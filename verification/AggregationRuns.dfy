/** The aggregate tables: upserts, the docker loop, and what holds after any run
    of ingests and aggregation tasks with a clock that never goes back. */
module AggregationRuns {
  import opened Options
  import opened Windows
  import opened Timestamps
  import opened Aggregation

  /** The unique key of an aggregate row; system rows have no container. */
  datatype AggKey = AggKey(server: int, container: Option<string>, period: Period, start: Time)

  type Table = map<AggKey, Aggregate>

  function Lookup(t: Table, k: AggKey): Option<Aggregate> {
    if k in t then Some(t[k]) else None
  }

  /** Which of the two tables a task writes. */
  datatype Scope = SystemOnly | DockerOnly | Both

  predicate Targets(k: AggKey, servers: set<int>, scope: Scope, p: Period, from: Time) {
    && k.server in servers && k.period == p && k.start == from
    && (scope.SystemOnly? ==> k.container.None?) && (scope.DockerOnly? ==> k.container.Some?)
  }

  /** One GROUP BY over the window, upserted: rows that exist for a targeted key
      replace what was stored, everything else stays. */
  ghost predicate Upserted(before: Table, after: Table, raw: seq<Row>,
                           servers: set<int>, scope: Scope, p: Period, from: Time, to: Time) {
    forall k ::
      Lookup(after, k) ==
      if Targets(k, servers, scope, p, from) && AggregateOf(raw, k.server, k.container, from, to).Some?
      then AggregateOf(raw, k.server, k.container, from, to)
      else Lookup(before, k)
  }

  predicate Present(raw: seq<Row>, server: int, name: string, from: Time, to: Time) {
    exists r :: r in raw && In(r, server, Some(name), from, to)
  }

  lemma PresentHasAggregate(raw: seq<Row>, server: int, name: string, from: Time, to: Time)
    ensures Present(raw, server, name, from, to) <==> AggregateOf(raw, server, Some(name), from, to).Some?
  {
    StatsExtremes(raw, server, Some(name), from, to, Cpu);
  }

  function Ids(servers: seq<int>): set<int> {
    set s | s in servers
  }

  class Store {
    var raw: seq<Row>
    var table: Table

    constructor (raw: seq<Row>, table: Table)
      ensures this.raw == raw && this.table == table
    {
      this.raw, this.table := raw, table;
    }

    /** aggregate_system_metrics. */
    method AggregateSystem(server: int, p: Period, from: Time, to: Time) returns (r: Option<Aggregate>)
      modifies this`table
      ensures r == AggregateOf(raw, server, None, from, to)
      ensures Upserted(old(table), table, raw, {server}, SystemOnly, p, from, to)
    {
      r := AggregateOf(raw, server, None, from, to);
      if r.None? {
        return;
      }
      table := table[AggKey(server, None, p, from) := r.value];
    }

    /** SELECT DISTINCT container_name. */
    method ContainersIn(server: int, from: Time, to: Time) returns (names: seq<string>)
      ensures forall c :: c in names <==> Present(raw, server, c, from, to)
      ensures forall i, j | 0 <= i < j < |names| :: names[i] != names[j]
    {
      names := [];
      for i := 0 to |raw|
        invariant forall c :: c in names <==> Present(raw[..i], server, c, from, to)
        invariant forall i, j | 0 <= i < j < |names| :: names[i] != names[j]
      {
        var r := raw[i];
        assert raw[..i + 1] == raw[..i] + [r];
        if r.server == server && r.container.Some? && from <= r.at < to && r.container.value !in names {
          assert r in raw[..i + 1] && In(r, server, Some(r.container.value), from, to);
          names := names + [r.container.value];
        }
        forall c ensures c in names <==> Present(raw[..i + 1], server, c, from, to) {
          if Present(raw[..i], server, c, from, to) {
            var x :| x in raw[..i] && In(x, server, Some(c), from, to);
            assert x in raw[..i + 1];
          }
        }
      }
      assert raw[..|raw|] == raw;
    }

    /** aggregate_docker_metrics: asking for the names first and then for each
        container in turn is one GROUP BY. */
    method AggregateDocker(server: int, p: Period, from: Time, to: Time)
      returns (aggregates: seq<Aggregate>, names: seq<string>)
      modifies this`table
      ensures forall c :: c in names <==> Present(raw, server, c, from, to)
      ensures forall i, j | 0 <= i < j < |names| :: names[i] != names[j]
      ensures |aggregates| == |names|
      ensures forall i | 0 <= i < |names| :: AggregateOf(raw, server, Some(names[i]), from, to) == Some(aggregates[i])
      ensures Upserted(old(table), table, raw, {server}, DockerOnly, p, from, to)
    {
      names := ContainersIn(server, from, to);
      aggregates := [];
      ghost var before := table;
      for i := 0 to |names|
        invariant |aggregates| == i
        invariant forall j | 0 <= j < i :: AggregateOf(raw, server, Some(names[j]), from, to) == Some(aggregates[j])
        invariant forall k ::
                    Lookup(table, k) ==
                    if Targets(k, {server}, DockerOnly, p, from) && k.container.value in names[..i]
                    then AggregateOf(raw, k.server, k.container, from, to)
                    else Lookup(before, k)
      {
        var name := names[i];
        PresentHasAggregate(raw, server, name, from, to);
        var row := AggregateOf(raw, server, Some(name), from, to);
        table := table[AggKey(server, Some(name), p, from) := row.value];
        aggregates := aggregates + [row.value];
      }
      forall name ensures Present(raw, server, name, from, to) <==>
                          AggregateOf(raw, server, Some(name), from, to).Some?
      {
        PresentHasAggregate(raw, server, name, from, to);
      }
    }

    /** aggregate_all_servers when no server raises. */
    method AggregateAll(servers: seq<int>, p: Period, from: Time, to: Time)
      modifies this`table
      ensures Upserted(old(table), table, raw, Ids(servers), Both, p, from, to)
    {
      ghost var before := table;
      for i := 0 to |servers|
        invariant Upserted(before, table, raw, Ids(servers[..i]), Both, p, from, to)
      {
        var sid := servers[i];
        ghost var t0 := table;
        var r := AggregateSystem(sid, p, from, to);
        ghost var t1 := table;
        var rows, names := AggregateDocker(sid, p, from, to);
        UpsertedBoth(t0, t1, table, raw, sid, p, from, to);
        UpsertedMore(before, t0, table, raw, Ids(servers[..i]), sid, p, from, to);
        assert Ids(servers[..i + 1]) == Ids(servers[..i]) + {sid};
      }
      assert servers[..|servers|] == servers;
    }
  }

  lemma UpsertedBoth(t0: Table, t1: Table, t2: Table, raw: seq<Row>, server: int, p: Period, from: Time, to: Time)
    requires Upserted(t0, t1, raw, {server}, SystemOnly, p, from, to)
    requires Upserted(t1, t2, raw, {server}, DockerOnly, p, from, to)
    ensures Upserted(t0, t2, raw, {server}, Both, p, from, to)
  {
  }

  lemma UpsertedMore(t0: Table, t1: Table, t2: Table, raw: seq<Row>,
                     servers: set<int>, server: int, p: Period, from: Time, to: Time)
    requires Upserted(t0, t1, raw, servers, Both, p, from, to)
    requires Upserted(t1, t2, raw, {server}, Both, p, from, to)
    ensures Upserted(t0, t2, raw, servers + {server}, Both, p, from, to)
  {
  }

  // ----- docker sample counts

  function DockerCount(raw: seq<Row>, server: int, from: Time, to: Time): nat {
    if raw == [] then 0
    else
      var r := raw[|raw| - 1];
      DockerCount(raw[..|raw| - 1], server, from, to) +
      if r.server == server && r.container.Some? && from <= r.at < to then 1 else 0
  }

  function CountsOf(raw: seq<Row>, server: int, from: Time, to: Time, names: seq<string>): nat {
    if names == [] then 0
    else
      CountsOf(raw, server, from, to, names[..|names| - 1]) +
      Count(raw, server, Some(names[|names| - 1]), from, to)
  }

  lemma {:induction false} NoRowsNoCounts(server: int, from: Time, to: Time, names: seq<string>)
    ensures CountsOf([], server, from, to, names) == 0
  {
    if names != [] {
      NoRowsNoCounts(server, from, to, names[..|names| - 1]);
    }
  }

  /** One more row adds to the count of its own container and of no other. */
  lemma {:induction false} CountsStep(raw: seq<Row>, server: int, from: Time, to: Time, names: seq<string>)
    requires raw != [] && forall i, j | 0 <= i < j < |names| :: names[i] != names[j]
    ensures var r := raw[|raw| - 1];
            CountsOf(raw, server, from, to, names) ==
            CountsOf(raw[..|raw| - 1], server, from, to, names) +
            if r.server == server && r.container.Some? && r.container.value in names && from <= r.at < to then 1 else 0
  {
    if names != [] {
      var n := |names| - 1;
      CountsStep(raw, server, from, to, names[..n]);
      assert names == names[..n] + [names[n]];
    }
  }

  /** The sample counts of the containers of a window add up to its raw rows. */
  lemma {:induction false} DockerCountsAddUp(raw: seq<Row>, server: int, from: Time, to: Time, names: seq<string>)
    requires forall i, j | 0 <= i < j < |names| :: names[i] != names[j]
    requires forall c | Present(raw, server, c, from, to) :: c in names
    ensures CountsOf(raw, server, from, to, names) == DockerCount(raw, server, from, to)
  {
    if raw == [] {
      NoRowsNoCounts(server, from, to, names);
    } else {
      var n := |raw| - 1;
      var r := raw[n];
      assert raw == raw[..n] + [r];
      forall c | Present(raw[..n], server, c, from, to) ensures c in names {
        var x :| x in raw[..n] && In(x, server, Some(c), from, to);
        assert x in raw;
        assert Present(raw, server, c, from, to);
      }
      assert r.server == server && r.container.Some? && from <= r.at < to ==>
          In(r, server, Some(r.container.value), from, to);
      DockerCountsAddUp(raw[..n], server, from, to, names);
      CountsStep(raw, server, from, to, names);
    }
  }

  // ----- every run

  datatype Done = Done(server: int, docker: bool, period: Period, start: Time)

  /** `done` is history: for each window that has been aggregated, how many of
      the raw rows there were at the last time. */
  datatype Db = Db(now: Time, raw: seq<Row>, table: Table, done: map<Done, nat>)

  /** A row becomes visible when its transaction commits, some time after the
      start of the transaction that `collected_at` records. A task aggregates the
      servers for which it does not raise, over the window it chose when it
      started; `scope` allows for a server whose docker part raised. */
  datatype Step =
    | Tick(to: Time)
    | Ingest(row: Row)
    | Task(p: Period, from: Time, servers: set<int>, scope: Scope)

  function DoneBy(servers: set<int>, scope: Scope, p: Period, from: Time): set<Done> {
    (if scope.DockerOnly? then {} else set s | s in servers :: Done(s, false, p, from)) +
    (if scope.SystemOnly? then {} else set s | s in servers :: Done(s, true, p, from))
  }

  ghost predicate Next(db: Db, step: Step, db': Db) {
    match step
    case Tick(to) => db.now <= to && db' == db.(now := to)
    case Ingest(row) => row.at <= db.now && db' == db.(raw := db.raw + [row])
    case Task(p, from, servers, scope) =>
      && from % Length(p) == 0 && from + Length(p) <= db.now
      && db' == db.(table := db'.table, done := db'.done)
      && db'.done == db.done + (map d | d in DoneBy(servers, scope, p, from) :: |db.raw|)
      && Upserted(db.table, db'.table, db.raw, servers, scope, p, from, from + Length(p))
  }

  /** The window that a task picks when it starts is one it may aggregate at any
      later time. */
  lemma PickedWindowAllowed(p: Period, start: DateTime, now: Time)
    requires Datable(start) && Moment(start) <= now
    ensures var from := Moment(PeriodStart(p, start)); from % Length(p) == 0 && from + Length(p) <= now
  {
    LastClosedWindow(p, start);
  }

  function DoneKey(k: AggKey): Done {
    Done(k.server, k.container.Some?, k.period, k.start)
  }

  predicate Selects(k: AggKey, r: Row) {
    In(r, k.server, k.container, k.start, k.start + Length(k.period))
  }

  function Computed(raw: seq<Row>, k: AggKey): Option<Aggregate> {
    AggregateOf(raw, k.server, k.container, k.start, k.start + Length(k.period))
  }

  /** No row for the key has become visible since it was last aggregated. */
  predicate UpToDate(db: Db, k: AggKey) {
    && DoneKey(k) in db.done && db.done[DoneKey(k)] <= |db.raw|
    && forall r | r in db.raw[db.done[DoneKey(k)]..] :: !Selects(k, r)
  }

  ghost predicate RowOk(db: Db, k: AggKey) {
    if DoneKey(k) in db.done
    then db.done[DoneKey(k)] <= |db.raw| && Lookup(db.table, k) == Computed(db.raw[..db.done[DoneKey(k)]], k)
    else Lookup(db.table, k) == None
  }

  ghost predicate Inv(db: Db) {
    forall k :: RowOk(db, k)
  }

  // ----- rows that arrive later

  function CountOf(raw: seq<Row>, k: AggKey): nat {
    Count(raw, k.server, k.container, k.start, k.start + Length(k.period))
  }

  lemma {:induction false} CountGrows(a: seq<Row>, b: seq<Row>, k: AggKey)
    ensures CountOf(a + b, k) >= CountOf(a, k)
    ensures CountOf(a + b, k) == CountOf(a, k) <==> forall r | r in b :: !Selects(k, r)
  {
    if b == [] {
      assert a + b == a;
    } else {
      var m := |b| - 1;
      CountGrows(a, b[..m], k);
      assert (a + b)[..|a| + m] == a + b[..m];
      assert CountOf(a + b, k) == CountOf(a + b[..m], k) + if Selects(k, b[m]) then 1 else 0;
      assert forall r :: r in b <==> r in b[..m] || r == b[m];
    }
  }

  lemma {:induction false} OthersChangeNothing(a: seq<Row>, b: seq<Row>, k: AggKey)
    requires forall r | r in b :: !Selects(k, r)
    ensures Computed(a + b, k) == Computed(a, k)
  {
    if b == [] {
      assert a + b == a;
    } else {
      var m := |b| - 1;
      assert (a + b)[..|a| + m] == a + b[..m];
      assert b[m] in b;
      OthersChangeNothing(a, b[..m], k);
    }
  }

  /** An aggregate's count is the number of rows, and there is none without. */
  lemma ComputedCount(raw: seq<Row>, k: AggKey)
    ensures var n := CountOf(raw, k);
            if n == 0 then Computed(raw, k).None? else Computed(raw, k).Some? && Computed(raw, k).value.count == n
  {
    StatsCount(raw, k.server, k.container, k.start, k.start + Length(k.period), Cpu);
  }

  /** More rows change an aggregate exactly if one of them belongs to it, and
      never make it disappear. */
  lemma LaterRows(a: seq<Row>, b: seq<Row>, k: AggKey)
    ensures Computed(a + b, k) == Computed(a, k) <==> forall r | r in b :: !Selects(k, r)
    ensures Computed(a, k).Some? ==> Computed(a + b, k).Some?
  {
    CountGrows(a, b, k);
    ComputedCount(a, k);
    ComputedCount(a + b, k);
    if forall r | r in b :: !Selects(k, r) {
      OthersChangeNothing(a, b, k);
    }
  }

  // ----- every step keeps the invariant

  lemma TaskKeepsRow(db: Db, step: Step, db': Db, k: AggKey)
    requires RowOk(db, k) && Next(db, step, db') && step.Task?
    ensures RowOk(db', k)
  {
    assert DoneKey(k) in DoneBy(step.servers, step.scope, step.p, step.from) <==>
        Targets(k, step.servers, step.scope, step.p, step.from);
    assert db.raw[..|db.raw|] == db.raw;
    if DoneKey(k) in db.done {
      var n := db.done[DoneKey(k)];
      assert db.raw == db.raw[..n] + db.raw[n..];
      LaterRows(db.raw[..n], db.raw[n..], k);
    }
  }

  lemma StepKeepsInv(db: Db, step: Step, db': Db)
    requires Inv(db) && Next(db, step, db')
    ensures Inv(db')
  {
    forall k ensures RowOk(db', k) {
      assert RowOk(db, k);
      if step.Task? {
        TaskKeepsRow(db, step, db', k);
      } else if step.Ingest? && DoneKey(k) in db.done {
        assert db'.raw[..db.done[DoneKey(k)]] == db.raw[..db.done[DoneKey(k)]];
      }
    }
  }

  ghost predicate IsRun(run: seq<Db>, steps: seq<Step>) {
    && |run| == |steps| + 1
    && run[0].table == map[] && run[0].done == map[]
    && forall i | 0 <= i < |steps| :: Next(run[i], steps[i], run[i + 1])
  }

  lemma {:induction false} RunInv(run: seq<Db>, steps: seq<Step>, i: nat)
    requires IsRun(run, steps) && i < |run|
    ensures Inv(run[i])
  {
    if i == 0 {
      forall k ensures RowOk(run[0], k) {
      }
    } else {
      RunInv(run, steps, i - 1);
      StepKeepsInv(run[i - 1], steps[i - 1], run[i]);
    }
  }

  /** Every stored row is the aggregate of the raw rows visible when its window
      was last aggregated, and a window that never was has none. */
  lemma StoredRowsAreExact(run: seq<Db>, steps: seq<Step>, i: nat, k: AggKey)
    requires IsRun(run, steps) && i < |run|
    ensures if DoneKey(k) in run[i].done
            then run[i].done[DoneKey(k)] <= |run[i].raw| &&
                 Lookup(run[i].table, k) == Computed(run[i].raw[..run[i].done[DoneKey(k)]], k)
            else Lookup(run[i].table, k) == None
  {
    RunInv(run, steps, i);
    assert RowOk(run[i], k);
  }

  /** So it equals recomputation from the rows there are now exactly if none of
      its own has become visible since. */
  lemma StoredRowIsCurrent(run: seq<Db>, steps: seq<Step>, i: nat, k: AggKey)
    requires IsRun(run, steps) && i < |run| && DoneKey(k) in run[i].done
    ensures Lookup(run[i].table, k) == Computed(run[i].raw, k) <==> UpToDate(run[i], k)
  {
    StoredRowsAreExact(run, steps, i, k);
    var raw, n := run[i].raw, run[i].done[DoneKey(k)];
    assert raw == raw[..n] + raw[n..];
    LaterRows(raw[..n], raw[n..], k);
  }

  /** Aggregating a window again changes the table exactly if a row of one of its
      keys has become visible since. */
  lemma RerunChangesNothing(run: seq<Db>, steps: seq<Step>, i: nat)
    requires IsRun(run, steps) && i < |steps| && steps[i].Task?
    requires DoneBy(steps[i].servers, steps[i].scope, steps[i].p, steps[i].from) <= run[i].done.Keys
    ensures run[i + 1].table == run[i].table <==>
            forall k | Targets(k, steps[i].servers, steps[i].scope, steps[i].p, steps[i].from) :: UpToDate(run[i], k)
  {
    var step := steps[i];
    forall k ensures Lookup(run[i + 1].table, k) == Lookup(run[i].table, k) <==>
                     (Targets(k, step.servers, step.scope, step.p, step.from) ==> UpToDate(run[i], k))
    {
      RerunOfKey(run, steps, i, k);
    }
    if forall k | Targets(k, step.servers, step.scope, step.p, step.from) :: UpToDate(run[i], k) {
      SameTable(run[i + 1].table, run[i].table);
    }
  }

  lemma RerunOfKey(run: seq<Db>, steps: seq<Step>, i: nat, k: AggKey)
    requires IsRun(run, steps) && i < |steps| && steps[i].Task?
    requires DoneBy(steps[i].servers, steps[i].scope, steps[i].p, steps[i].from) <= run[i].done.Keys
    ensures Lookup(run[i + 1].table, k) == Lookup(run[i].table, k) <==>
            (Targets(k, steps[i].servers, steps[i].scope, steps[i].p, steps[i].from) ==> UpToDate(run[i], k))
  {
    var step := steps[i];
    if Targets(k, step.servers, step.scope, step.p, step.from) {
      assert DoneKey(k) in DoneBy(step.servers, step.scope, step.p, step.from);
      StoredRowIsCurrent(run, steps, i, k);
      StoredRowsAreExact(run, steps, i, k);
      var raw, n := run[i].raw, run[i].done[DoneKey(k)];
      assert raw == raw[..n] + raw[n..];
      LaterRows(raw[..n], raw[n..], k);
    }
  }

  lemma SameTable(a: Table, b: Table)
    requires forall k :: Lookup(a, k) == Lookup(b, k)
    ensures a == b
  {
    forall k ensures (k in a <==> k in b) && (k in a ==> a[k] == b[k]) {
      assert Lookup(a, k) == Lookup(b, k);
    }
  }

  const LATE_ROW := Row(1, None, 0, 50.0, 50.0, 50.0)
  const LATE_KEY := AggKey(1, None, FiveMin, 0)
  const AT_START := Db(0, [], map[], map[])
  const WINDOW_OVER := AT_START.(now := Length(FiveMin))
  const AGGREGATED := WINDOW_OVER.(done := map[Done(1, false, FiveMin, 0) := 0])
  const COMMITTED := AGGREGATED.(raw := [LATE_ROW])

  /** A row that becomes visible after its window was aggregated: the aggregation
      finds nothing, and the row stays out of the table. */
  lemma LateRow()
    ensures IsRun([AT_START, WINDOW_OVER, AGGREGATED, COMMITTED],
                  [Tick(Length(FiveMin)), Task(FiveMin, 0, {1}, SystemOnly), Ingest(LATE_ROW)])
    ensures DoneKey(LATE_KEY) in COMMITTED.done && Selects(LATE_KEY, LATE_ROW) && !UpToDate(COMMITTED, LATE_KEY)
    ensures Lookup(COMMITTED.table, LATE_KEY) == None && Computed(COMMITTED.raw, LATE_KEY).Some?
  {
    EmptyTask();
    assert [] + [LATE_ROW] == [LATE_ROW];
    var run := [AT_START, WINDOW_OVER, AGGREGATED, COMMITTED];
    var steps := [Tick(Length(FiveMin)), Task(FiveMin, 0, {1}, SystemOnly), Ingest(LATE_ROW)];
    forall i | 0 <= i < 3 ensures Next(run[i], steps[i], run[i + 1]) {
      assert i == 0 || i == 1 || i == 2;
    }
    OneRow(LATE_ROW, LATE_KEY);
  }

  lemma EmptyTask()
    ensures Next(WINDOW_OVER, Task(FiveMin, 0, {1}, SystemOnly), AGGREGATED)
  {
    assert DoneBy({1}, SystemOnly, FiveMin, 0) == {Done(1, false, FiveMin, 0)};
    assert AGGREGATED.done == WINDOW_OVER.done + map d | d in DoneBy({1}, SystemOnly, FiveMin, 0) :: |WINDOW_OVER.raw|;
  }

  lemma OneRow(row: Row, k: AggKey)
    requires Selects(k, row)
    ensures Computed([row], k).Some? && row in [row][0..]
  {
    CountGrows([], [row], k);
    ComputedCount([row], k);
    assert [] + [row] == [row];
  }

  // ----- granularities

  /** The stored rows of a tiled window. */
  function StoredParts(t: Table, server: int, container: Option<string>, p: Period, from: Time, n: nat):
    seq<Option<Aggregate>>
  {
    seq(n, i requires 0 <= i < n => Lookup(t, AggKey(server, container, p, from + i * Length(p))))
  }

  predicate Refines(coarse: Period, fine: Period, n: nat) {
    (coarse.Hourly? && fine.FiveMin? && n == 12) || (coarse.Daily? && fine.Hourly? && n == 24)
  }

  /** End to end: once an hour and its twelve five-minute windows have been
      aggregated, at whatever times and in whatever order, and the five-minute
      rows are up to date, the stored hourly row is the merge of the stored
      five-minute rows exactly if it is up to date too; likewise days of hours. */
  lemma StoredGranularitiesAgree(
    run: seq<Db>, steps: seq<Step>, i: nat,
    server: int, container: Option<string>, coarse: Period, fine: Period, n: nat, from: Time)
    requires IsRun(run, steps) && i < |run| && Refines(coarse, fine, n)
    requires Done(server, container.Some?, coarse, from) in run[i].done
    requires forall j | 0 <= j < n :: UpToDate(run[i], AggKey(server, container, fine, from + j * Length(fine)))
    ensures var parts := StoredParts(run[i].table, server, container, fine, from, n);
            var key := AggKey(server, container, coarse, from);
            && AllPositive(parts)
            && (Lookup(run[i].table, key) == MergeAll(parts) <==> UpToDate(run[i], key))
  {
    var parts := StoredParts(run[i].table, server, container, fine, from, n);
    var computed := Parts(run[i].raw, server, container, from, Length(fine), n);
    forall j | 0 <= j < n ensures parts[j] == computed[j] {
      PartsAt(run[i].raw, server, container, from, Length(fine), n, j);
      StoredRowIsCurrent(run, steps, i, AggKey(server, container, fine, from + j * Length(fine)));
    }
    assert parts == computed;
    StoredRowIsCurrent(run, steps, i, AggKey(server, container, coarse, from));
    GranularitiesAgree(run[i].raw, server, container, from, Length(fine), n);
  }

  // ----- the table in plain terms

  /** In every run a stored row has the count of the rows of its server and
      container that were visible in its window when it was last aggregated, and
      in each cell the average, least and greatest value of its own column over
      them. */
  lemma StoredRowDescribes(run: seq<Db>, steps: seq<Step>, i: nat, k: AggKey)
    requires IsRun(run, steps) && i < |run| && DoneKey(k) in run[i].done
    ensures run[i].done[DoneKey(k)] <= |run[i].raw|
    ensures Describes(Lookup(run[i].table, k),
                      Picked(run[i].raw[..run[i].done[DoneKey(k)]],
                             k.server, k.container, k.start, k.start + Length(k.period)))
  {
    StoredRowsAreExact(run, steps, i, k);
    var visible := run[i].raw[..run[i].done[DoneKey(k)]];
    AggregateDescribes(visible, k.server, k.container, k.start, k.start + Length(k.period));
  }
}
