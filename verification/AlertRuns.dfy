/** What holds in every run of ingests, evaluations, rule edits and sweeps, with
    a clock that never goes back. */
module AlertRuns {
  import opened Arithmetic
  import opened Options
  import opened Alerts

  /** `Evaluate` may run any time after its row was stored, as often as it
      likes; `EditRule` covers updates and toggling. */
  datatype Step =
    | Tick(to: Time)
    | Ingest(sample: Sample)
    | Evaluation(sample: Sample, order: seq<int>)
    | CreateRule(rule: Rule)
    | EditRule(id: int, rule: Rule)
    | DeleteRule(id: int)
    | DeleteServer(server: int)
    | Resolve

  predicate Enabled(db: Db, step: Step) {
    match step
    case Tick(to) => db.now <= to
    case Ingest(m) =>
      // collected_at is the start of the transaction and differs per server and container
      WellFormed(m) && m.at <= db.now &&
      forall x | x in db.samples && x.server == m.server && x.container == m.container :: x.at != m.at
    case Evaluation(m, order) => m in db.samples
    case CreateRule(rule) => rule.last.None?
    case EditRule(id, rule) => id in db.rules && rule.last == db.rules[id].last && rule.server == db.rules[id].server
    case DeleteRule(id) => id in db.rules
    case DeleteServer(_) => true
    case Resolve => true
  }

  function Apply(db: Db, step: Step): Db
    requires Enabled(db, step)
  {
    match step
    case Tick(to) => db.(now := to)
    case Ingest(m) => db.(samples := db.samples + [m])
    case Evaluation(m, order) => Evaluate(db, m, order)
    case CreateRule(rule) => db.(rules := db.rules[db.nextRule := rule], nextRule := db.nextRule + 1)
    case EditRule(id, rule) => db.(rules := db.rules[id := rule])
    case DeleteRule(id) =>
      db.(rules := db.rules - {id},
          events := map e | e in db.events && db.events[e].rule != id :: db.events[e])
    case DeleteServer(server) =>
      db.(rules := map r | r in db.rules && db.rules[r].server != server :: db.rules[r],
          samples := Without(db.samples, server),
          events := map e | e in db.events && db.events[e].server != server :: db.events[e])
    case Resolve => ResolveTask(db)
  }

  /** The rows left when those of a server go with it. */
  function Without(samples: seq<Sample>, server: int): seq<Sample> {
    if samples == [] then []
    else
      var m := samples[|samples| - 1];
      Without(samples[..|samples| - 1], server) + if m.server == server then [] else [m]
  }

  // ----- the invariant

  ghost predicate SpacedOk(db: Db, i: nat, j: nat) {
    i < j < |db.log| && db.log[i].rule == db.log[j].rule ==>
      db.log[j].at - db.log[i].at >= db.log[j].cooldown * SECOND
  }

  ghost predicate LastOk(db: Db, i: nat) {
    i < |db.log| ==>
      var f := db.log[i];
      && f.rule < db.nextRule
      && (f.rule in db.rules ==> db.rules[f.rule].last.Some? && f.at <= db.rules[f.rule].last.value)
  }

  predicate RuleOk(db: Db, id: int) {
    id in db.rules ==> id < db.nextRule && (db.rules[id].last.Some? ==> db.rules[id].last.value <= db.now)
  }

  /** An event fired on a stored row that breached the rule as it was. */
  predicate EventOk(db: Db, id: int) {
    id in db.events ==>
      var e := db.events[id];
      && id < db.nextEvent && e.rule < db.nextRule
      && e.source in db.samples && e.source.server == e.server && e.source.container == e.container
      && Breaches(e.under, e.source) && (e.under.kind.System? <==> e.container.None?)
      && (e.resolved.Some? ==> e.resolved.value <= db.now)
      && (e.rule in db.rules ==> db.rules[e.rule].server == e.server)
  }

  /** Event ids are given out in order, so the i-th firing made event Base + i. */
  function Base(db: Db): int { db.nextEvent - |db.log| }

  predicate TiedOk(db: Db, id: int) {
    id in db.events ==>
      && Base(db) <= id < db.nextEvent
      && var e := db.events[id]; db.log[id - Base(db)] == Firing(e.rule, e.fired, e.under.cooldown)
  }

  ghost predicate LoggedOk(db: Db, i: nat) {
    i < |db.log| && db.log[i].rule in db.rules ==> Base(db) + i in db.events
  }

  predicate DistinctTimes(samples: seq<Sample>) {
    forall i, j | 0 <= i < j < |samples| && samples[i].server == samples[j].server &&
                  samples[i].container == samples[j].container :: samples[i].at != samples[j].at
  }

  ghost predicate SamplesOk(db: Db) {
    (forall m | m in db.samples :: WellFormed(m) && m.at <= db.now) && DistinctTimes(db.samples)
  }

  ghost predicate RulesOk(db: Db) { forall id :: RuleOk(db, id) }
  ghost predicate EventsOk(db: Db) { forall id :: EventOk(db, id) }
  ghost predicate LogOk(db: Db) {
    (forall i, j :: SpacedOk(db, i, j)) && (forall i :: LastOk(db, i))
  }
  ghost predicate FiringsOk(db: Db) {
    (forall id :: TiedOk(db, id)) && (forall i :: LoggedOk(db, i))
  }

  ghost predicate Inv(db: Db) {
    RulesOk(db) && EventsOk(db) && LogOk(db) && FiringsOk(db) && SamplesOk(db)
  }

  lemma {:induction false} WithoutKeeps(samples: seq<Sample>, server: int, m: Sample)
    ensures m in Without(samples, server) <==> m in samples && m.server != server
  {
    if samples != [] {
      var n := |samples| - 1;
      WithoutKeeps(samples[..n], server, m);
      assert samples == samples[..n] + [samples[n]];
    }
  }

  lemma {:induction false} WithoutDistinct(samples: seq<Sample>, server: int)
    requires DistinctTimes(samples)
    ensures DistinctTimes(Without(samples, server))
  {
    if samples != [] {
      var n := |samples| - 1;
      var front, m := Without(samples[..n], server), samples[n];
      WithoutDistinct(samples[..n], server);
      forall x | x in front && x.server == m.server && x.container == m.container ensures x.at != m.at {
        WithoutKeeps(samples[..n], server, x);
        var i :| 0 <= i < n && samples[i] == x;
      }
    }
  }

  lemma FireKeepsFirings(db: Db, m: Sample, id: int)
    requires FiringsOk(db) && LogOk(db)
    ensures FiringsOk(FireOne(db, m, id))
  {
    var db' := FireOne(db, m, id);
    if db' != db {
      forall e ensures TiedOk(db', e) {
        assert TiedOk(db, e);
      }
      forall i: nat ensures LoggedOk(db', i) {
        assert LoggedOk(db, i);
      }
    }
  }

  lemma StepKeepsFirings(db: Db, step: Step)
    requires Inv(db) && Enabled(db, step) && !step.Evaluation? && !step.Resolve?
    ensures FiringsOk(Apply(db, step))
  {
    var db' := Apply(db, step);
    forall e ensures TiedOk(db', e) {
      assert TiedOk(db, e);
    }
    forall i: nat ensures LoggedOk(db', i) {
      assert LoggedOk(db, i) && LastOk(db, i) && TiedOk(db, Base(db) + i) && EventOk(db, Base(db) + i);
    }
  }

  lemma StepKeepsSamples(db: Db, step: Step)
    requires Inv(db) && Enabled(db, step) && !step.Evaluation? && !step.Resolve?
    ensures SamplesOk(Apply(db, step))
    ensures forall e | e in Apply(db, step).events :: e in db.events && db.events[e].source in Apply(db, step).samples
  {
    if step.DeleteServer? {
      WithoutDistinct(db.samples, step.server);
      forall m ensures m in Without(db.samples, step.server) <==> m in db.samples && m.server != step.server {
        WithoutKeeps(db.samples, step.server, m);
      }
    }
    forall e | e in db.events
      ensures db.events[e].source in db.samples && db.events[e].source.server == db.events[e].server
    {
      assert EventOk(db, e);
    }
  }

  lemma FireKeepsInv(db: Db, m: Sample, id: int)
    requires Inv(db) && m in db.samples
    ensures Inv(FireOne(db, m, id))
  {
    var db' := FireOne(db, m, id);
    FireKeepsFirings(db, m, id);
    if db' != db {
      assert RuleOk(db, id);
      forall r ensures RuleOk(db', r) {
        assert RuleOk(db, r);
      }
      forall e ensures EventOk(db', e) {
        assert EventOk(db, e);
      }
      forall i: nat, j: nat ensures SpacedOk(db', i, j) {
        assert SpacedOk(db, i, j) && LastOk(db, i);
      }
      forall i: nat ensures LastOk(db', i) {
        assert LastOk(db, i);
      }
    }
  }

  lemma {:induction false} EvaluateKeepsInv(db: Db, m: Sample, order: seq<int>)
    requires Inv(db) && m in db.samples
    ensures Inv(Evaluate(db, m, order)) && Evaluate(db, m, order).samples == db.samples
  {
    if order != [] {
      EvaluateKeepsInv(db, m, order[..|order| - 1]);
      FireKeepsInv(Evaluate(db, m, order[..|order| - 1]), m, order[|order| - 1]);
    }
  }

  lemma SweepKeepsInv(db: Db, kind: Kind)
    requires Inv(db)
    ensures Inv(Sweep(db, kind))
  {
    var db' := Sweep(db, kind);
    forall r ensures RuleOk(db', r) {
      assert RuleOk(db, r);
    }
    forall e ensures EventOk(db', e) && TiedOk(db', e) {
      assert EventOk(db, e) && TiedOk(db, e);
    }
    forall i: nat, j: nat ensures SpacedOk(db', i, j) {
      assert SpacedOk(db, i, j);
    }
    forall i: nat ensures LastOk(db', i) && LoggedOk(db', i) {
      assert LastOk(db, i) && LoggedOk(db, i);
    }
  }

  lemma StepKeepsInv(db: Db, step: Step)
    requires Inv(db) && Enabled(db, step)
    ensures Inv(Apply(db, step))
  {
    var db' := Apply(db, step);
    if step.Evaluation? {
      EvaluateKeepsInv(db, step.sample, step.order);
    } else if step.Resolve? {
      SweepKeepsInv(db, System);
      SweepKeepsInv(Sweep(db, System), Docker);
    } else {
      StepKeepsFirings(db, step);
      StepKeepsSamples(db, step);
      forall r ensures RuleOk(db', r) {
        assert RuleOk(db, r);
      }
      forall e ensures EventOk(db', e) {
        assert EventOk(db, e);
      }
      forall i: nat, j: nat ensures SpacedOk(db', i, j) {
        assert SpacedOk(db, i, j);
      }
      forall i: nat ensures LastOk(db', i) {
        assert LastOk(db, i);
      }
    }
  }

  predicate Init(db: Db) {
    db == Db(db.now, map[], db.nextRule, [], map[], db.nextEvent, [])
  }

  ghost predicate IsRun(run: seq<Db>, steps: seq<Step>) {
    && |run| == |steps| + 1 && Init(run[0])
    && forall i | 0 <= i < |steps| :: Enabled(run[i], steps[i]) && run[i + 1] == Apply(run[i], steps[i])
  }

  lemma {:induction false} RunInv(run: seq<Db>, steps: seq<Step>, i: nat)
    requires IsRun(run, steps) && i < |run|
    ensures Inv(run[i])
  {
    if i > 0 {
      RunInv(run, steps, i - 1);
      StepKeepsInv(run[i - 1], steps[i - 1]);
    }
  }

  // ----- cooldown

  /** Two events of one rule are at least the cooldown in force at the later one
      apart, whatever edits came in between and whichever containers of a batch
      fired them. */
  lemma CooldownRespected(run: seq<Db>, steps: seq<Step>, n: nat, i: nat, j: nat)
    requires IsRun(run, steps) && n < |run| && i < j < |run[n].log|
    requires run[n].log[i].rule == run[n].log[j].rule
    ensures run[n].log[j].at - run[n].log[i].at >= run[n].log[j].cooldown * SECOND
  {
    RunInv(run, steps, n);
    assert SpacedOk(run[n], i, j);
  }

  /** The history of firings is the table of events: the i-th firing made event
      Base + i, which is there as long as its rule is. */
  lemma FiringsAreEvents(run: seq<Db>, steps: seq<Step>, n: nat, i: nat)
    requires IsRun(run, steps) && n < |run| && i < |run[n].log|
    ensures var db := run[n];
            var f, id := db.log[i], Base(db) + i;
            && (f.rule in db.rules ==> id in db.events)
            && (id in db.events ==>
                  var e := db.events[id]; f == Firing(e.rule, e.fired, e.under.cooldown))
            && forall e | e in db.events :: Base(db) <= e < Base(db) + |db.log|
  {
    RunInv(run, steps, n);
    assert LoggedOk(run[n], i) && TiedOk(run[n], Base(run[n]) + i);
    forall e | e in run[n].events ensures Base(run[n]) <= e < Base(run[n]) + |run[n].log| {
      assert TiedOk(run[n], e);
    }
  }

  /** The same for rows of the events table: a later event of the same rule was
      created at least the cooldown it fired under after an earlier one. */
  lemma EventsSpaced(run: seq<Db>, steps: seq<Step>, n: nat, d: int, e: int)
    requires IsRun(run, steps) && n < |run| && d < e && d in run[n].events && e in run[n].events
    requires run[n].events[d].rule == run[n].events[e].rule
    ensures run[n].events[e].fired - run[n].events[d].fired >= run[n].events[e].under.cooldown * SECOND
  {
    RunInv(run, steps, n);
    var db := run[n];
    assert TiedOk(db, d) && TiedOk(db, e);
    assert SpacedOk(db, d - Base(db), e - Base(db));
  }

  predicate InWindow(f: Firing, rule: int, from: Time, to: Time) {
    f.rule == rule && from <= f.at <= to
  }

  function Count(log: seq<Firing>, rule: int, from: Time, to: Time): nat {
    if log == [] then 0
    else Count(log[..|log| - 1], rule, from, to) + if InWindow(log[|log| - 1], rule, from, to) then 1 else 0
  }

  lemma OneGapMore(c: int, gap: int)
    ensures (c - 1) * gap + gap == c * gap
  {
  }

  lemma {:induction false} CountPushesApart(log: seq<Firing>, rule: int, from: Time, to: Time, gap: int)
    returns (i: nat)
    requires gap >= 0 && Count(log, rule, from, to) > 0
    requires forall i, j | 0 <= i < j < |log| && log[i].rule == log[j].rule == rule :: log[j].at - log[i].at >= gap
    ensures i < |log| && InWindow(log[i], rule, from, to)
    ensures log[i].at >= from + (Count(log, rule, from, to) - 1) * gap
  {
    var n := |log| - 1;
    if !InWindow(log[n], rule, from, to) {
      i := CountPushesApart(log[..n], rule, from, to, gap);
    } else {
      i := n;
      if Count(log[..n], rule, from, to) > 0 {
        var k := CountPushesApart(log[..n], rule, from, to, gap);
        var c := Count(log[..n], rule, from, to);
        assert log[n].at >= log[k].at + gap;
        OneGapMore(c, gap);
      }
    }
  }

  lemma DivBound(k: nat, gap: int, length: int)
    requires gap > 0 && k * gap <= length
    ensures k <= length / gap
  {
    var q := length / gap;
    assert length < (q + 1) * gap;
    if k >= q + 1 {
      MulMonotone(q + 1, k, gap);
    }
  }

  /** A rule whose cooldown never was below c seconds fires at most
      floor(L / c) + 1 times in any interval of length L. */
  lemma FiringRateBounded(run: seq<Db>, steps: seq<Step>, n: nat, rule: int, c: nat, from: Time, length: nat)
    requires IsRun(run, steps) && n < |run| && c > 0
    requires forall i | 0 <= i < |run[n].log| && run[n].log[i].rule == rule :: run[n].log[i].cooldown >= c
    ensures Count(run[n].log, rule, from, from + length) <= length / (c * SECOND) + 1
  {
    var log, gap := run[n].log, c * SECOND;
    forall i, j | 0 <= i < j < |log| && log[i].rule == log[j].rule == rule
      ensures log[j].at - log[i].at >= gap
    {
      CooldownRespected(run, steps, n, i, j);
    }
    var k := Count(log, rule, from, from + length);
    if k > 0 {
      var i := CountPushesApart(log, rule, from, from + length, gap);
      DivBound(k - 1, gap, length);
    }
  }

  // ----- what one evaluation does

  function FiringIds(db: Db, m: Sample, order: seq<int>): seq<int> {
    if order == [] then []
    else
      var id := order[|order| - 1];
      FiringIds(db, m, order[..|order| - 1]) + if id in db.rules && Fires(db.rules[id], m, db.now) then [id] else []
  }

  /** Rules do not influence each other: each rule of the query fires exactly
      when it breaches and is cooled down in the state before the evaluation. */
  lemma {:induction false} EvaluationIsPerRule(db: Db, m: Sample, order: seq<int>)
    requires forall i, j | 0 <= i < j < |order| :: order[i] != order[j]
    ensures var db', ids := Evaluate(db, m, order), FiringIds(db, m, order);
            && db'.rules.Keys == db.rules.Keys
            && (forall id | id in db.rules ::
                  db'.rules[id] == if id in ids then db.rules[id].(last := Some(db.now)) else db.rules[id])
            && (forall id :: id in ids <==> id in order && id in db.rules && Fires(db.rules[id], m, db.now))
            && db'.now == db.now && db'.samples == db.samples && db'.nextRule == db.nextRule
  {
    if order != [] {
      var n := |order| - 1;
      EvaluationIsPerRule(db, m, order[..n]);
      assert order == order[..n] + [order[n]];
    }
  }

  /** Each rule that fires gets one event, in query order, and no other event
      changes. */
  lemma {:induction false} EvaluationEvents(db: Db, m: Sample, order: seq<int>)
    requires forall i, j | 0 <= i < j < |order| :: order[i] != order[j]
    ensures var db', ids := Evaluate(db, m, order), FiringIds(db, m, order);
            && db'.nextEvent == db.nextEvent + |ids|
            && (forall id | id in ids :: id in db.rules && db.rules[id].field in m.fields)
            && (forall e | db.nextEvent <= e < db.nextEvent + |ids| ::
                  var id := ids[e - db.nextEvent];
                  e in db'.events && db'.events[e] == EventOf(id, db.rules[id], m, db.now))
            && (forall e | e < db.nextEvent || e >= db.nextEvent + |ids| ::
                  (e in db'.events <==> e in db.events) && (e in db.events ==> db'.events[e] == db.events[e]))
  {
    if order != [] {
      var n := |order| - 1;
      EvaluationEvents(db, m, order[..n]);
      FireOneEvent(db, m, order[..n], order[n]);
      var db', ids, ids0 := Evaluate(db, m, order), FiringIds(db, m, order), FiringIds(db, m, order[..n]);
      forall e | db.nextEvent <= e < db.nextEvent + |ids|
        ensures var id := ids[e - db.nextEvent];
                e in db'.events && db'.events[e] == EventOf(id, db.rules[id], m, db.now)
      {
        if e < db.nextEvent + |ids0| {
          assert ids[e - db.nextEvent] == ids0[e - db.nextEvent];
        }
      }
    }
  }

  /** The last rule of a query is still as it was before the evaluation. */
  lemma FireOneEvent(db: Db, m: Sample, order: seq<int>, id: int)
    requires id !in order && forall i, j | 0 <= i < j < |order| :: order[i] != order[j]
    ensures var mid := Evaluate(db, m, order);
            && mid.now == db.now
            && (id in mid.rules <==> id in db.rules) && (id in db.rules ==> mid.rules[id] == db.rules[id])
  {
    EvaluationIsPerRule(db, m, order);
  }

  // ----- sweeps

  lemma {:induction false} LatestIsNewest(samples: seq<Sample>, server: int, container: Option<string>)
    ensures var latest := Latest(samples, server, container);
            && (latest.Some? ==>
                  && latest.value in samples && latest.value.server == server && latest.value.container == container)
            && (forall m | m in samples && m.server == server && m.container == container ::
                  latest.Some? && m.at <= latest.value.at)
  {
    if samples != [] {
      var n := |samples| - 1;
      LatestIsNewest(samples[..n], server, container);
      assert samples == samples[..n] + [samples[n]];
    }
  }

  predicate SameTest(a: Rule, b: Rule) {
    a.kind == b.kind && a.field == b.field && a.op == b.op && a.threshold == b.threshold
  }

  predicate Newer(db: Db, m: Sample, e: Event) {
    m in db.samples && m.server == e.server && m.container == e.container && m.at > e.source.at
  }

  /** Firing and resolving agree: a sweep closes an event only if a newer row
      for its server (and container) has arrived or its rule tests something
      else by now. */
  lemma ClosedOnlyByNews(run: seq<Db>, steps: seq<Step>, n: nat, kind: Kind, id: int)
    requires IsRun(run, steps) && n < |run| && Closes(run[n], kind, id)
    ensures var db := run[n];
            var e := db.events[id];
            !SameTest(db.rules[e.rule], e.under) || exists m :: Newer(db, m, e)
  {
    RunInv(run, steps, n);
    var db := run[n];
    var e := db.events[id];
    assert EventOk(db, id);
    LatestIsNewest(db.samples, e.server, Subject(kind, e));
    var m := Latest(db.samples, e.server, Subject(kind, e)).value;
    if SameTest(db.rules[e.rule], e.under) {
      assert Subject(kind, e) == e.container;
      if m.at == e.source.at {
        SameTimeSameSample(db, m, e.source);
      }
      assert Newer(db, m, e);
    }
  }

  lemma SameTimeSameSample(db: Db, a: Sample, b: Sample)
    requires SamplesOk(db) && a in db.samples && b in db.samples
    requires a.server == b.server && a.container == b.container && a.at == b.at
    ensures a == b
  {
    var i :| 0 <= i < |db.samples| && db.samples[i] == a;
    var j :| 0 <= j < |db.samples| && db.samples[j] == b;
  }

  /** After a sweep that did not raise, an event it considered is either closed
      now, or its latest value is absent or still breaches; one that raised has
      changed nothing. */
  lemma OpenAfterSweep(db: Db, kind: Kind, id: int)
    requires Considered(db, kind, id)
    ensures var db' := Sweep(db, kind);
            var rule, value := db.rules[db.events[id].rule], LatestValue(db, kind, id);
            if Raises(db, kind) then db' == db
            else
              id in db'.events &&
              if db'.events[id].resolved.Some? then db'.events[id].resolved == Some(db.now)
              else value.Absent? || Holds(value, rule.op, rule.threshold)
  {
    if !Raises(db, kind) {
      assert !RaisesOn(db, kind, id);
    }
  }

  /** A second sweep closes nothing until a row arrives or a rule changes, even
      when the clock has moved on. */
  lemma SweepIsIdempotent(db: Db, kind: Kind, later: Time)
    ensures var swept := Sweep(db, kind).(now := later); Sweep(swept, kind) == swept
  {
    var swept := Sweep(db, kind).(now := later);
    if Raises(db, kind) {
      var id :| id in db.events && RaisesOn(db, kind, id);
      assert RaisesOn(swept, kind, id);
    } else {
      forall id | id in swept.events
        ensures !Closes(swept, kind, id)
      {
        if Considered(db, kind, id) {
          OpenAfterSweep(db, kind, id);
        }
      }
      assert Sweep(swept, kind).events == swept.events;
    }
  }

  /** So is the whole task. */
  lemma TaskIsIdempotent(db: Db, later: Time)
    ensures var done := ResolveTask(db).(now := later); ResolveTask(done) == done
  {
    var mid := Sweep(db, System);
    var done := ResolveTask(db).(now := later);
    if Raises(db, System) {
      SweepIsIdempotent(db, System, later);
      var id :| id in db.events && RaisesOn(db, System, id);
      assert RaisesOn(done, System, id);
    } else {
      SweepIsIdempotent(mid, Docker, later);
      SystemPartStays(db, later);
    }
  }

  lemma SystemPartStays(db: Db, later: Time)
    requires !Raises(db, System)
    ensures var done := ResolveTask(db).(now := later); Sweep(done, System) == done
  {
    var mid := Sweep(db, System);
    var done := ResolveTask(db).(now := later);
    forall id | id in done.events ensures !Closes(done, System, id) {
      if Considered(done, System, id) {
        SweepsApart(mid, Docker, System, id);
        assert Considered(mid, System, id) && Considered(db, System, id);
        OpenAfterSweep(db, System, id);
      }
    }
    assert Raises(done, System) || Sweep(done, System).events == done.events;
  }

  // ----- resolved_at is written once

  predicate Keeps(db: Db, db': Db, id: int) {
    && db.nextEvent <= db'.nextEvent
    && (id in db'.events && id < db.nextEvent ==> id in db.events)
    && (id in db.events && db.events[id].resolved.Some? && id in db'.events ==>
          db'.events[id].resolved == db.events[id].resolved)
  }

  lemma {:induction false} EvaluateKeepsResolved(db: Db, m: Sample, order: seq<int>, id: int)
    requires EventOk(db, id)
    ensures Keeps(db, Evaluate(db, m, order), id)
  {
    if order != [] {
      EvaluateKeepsResolved(db, m, order[..|order| - 1], id);
    }
  }

  lemma StepKeepsResolved(db: Db, step: Step, id: int)
    requires Inv(db) && Enabled(db, step)
    ensures Keeps(db, Apply(db, step), id)
  {
    assert EventOk(db, id);
    if step.Evaluation? {
      EvaluateKeepsResolved(db, step.sample, step.order, id);
    }
  }

  /** An event that is there now and was there once has been there in between. */
  lemma PresentBefore(run: seq<Db>, steps: seq<Step>, i: nat, j: nat, id: int)
    requires IsRun(run, steps) && i < j < |run| && id in run[i].events && id in run[j].events
    ensures id in run[j - 1].events
    ensures run[j - 1].events[id].resolved.Some? ==> run[j].events[id].resolved == run[j - 1].events[id].resolved
  {
    RunInv(run, steps, i);
    RunInv(run, steps, j - 1);
    assert EventOk(run[i], id);
    NextEventGrows(run, steps, i, j - 1);
    StepKeepsResolved(run[j - 1], steps[j - 1], id);
  }

  /** Once written, resolved_at never changes while the event exists. */
  lemma {:induction false} ResolvedOnce(run: seq<Db>, steps: seq<Step>, i: nat, j: nat, id: int)
    requires IsRun(run, steps) && i <= j < |run|
    requires id in run[i].events && run[i].events[id].resolved.Some? && id in run[j].events
    ensures run[j].events[id].resolved == run[i].events[id].resolved
    decreases j
  {
    if i < j {
      PresentBefore(run, steps, i, j, id);
      ResolvedOnce(run, steps, i, j - 1, id);
    }
  }

  lemma {:induction false} NextEventGrows(run: seq<Db>, steps: seq<Step>, i: nat, j: nat)
    requires IsRun(run, steps) && i <= j < |run|
    ensures run[i].nextEvent <= run[j].nextEvent
    decreases j
  {
    if i < j {
      NextEventGrows(run, steps, i, j - 1);
      RunInv(run, steps, j - 1);
      StepKeepsResolved(run[j - 1], steps[j - 1], 0);
    }
  }

  // ----- an event stays open until there is news

  /** Nothing newer than the row the event fired on is known, and its rule, if
      it still exists, tests what it tested then. */
  ghost predicate NoNews(db: Db, id: int) {
    id in db.events && db.events[id].rule in db.rules ==>
      SameTest(db.rules[db.events[id].rule], db.events[id].under) && !exists m :: Newer(db, m, db.events[id])
  }

  lemma OpenStep(run: seq<Db>, steps: seq<Step>, n: nat, id: int)
    requires IsRun(run, steps) && n < |steps| && NoNews(run[n], id)
    requires id in run[n].events && run[n].events[id].resolved.None? && id in run[n + 1].events
    ensures run[n + 1].events[id].resolved.None?
  {
    RunInv(run, steps, n);
    assert EventOk(run[n], id);
    var step := steps[n];
    if step.Evaluation? {
      EvaluateKeepsOpen(run[n], step.sample, step.order, id);
    } else if step.Resolve? {
      forall kind | Closes(run[n], kind, id) ensures false {
        ClosedOnlyByNews(run, steps, n, kind, id);
      }
      TaskClosesOnly(run[n], id);
    }
  }

  lemma {:induction false} EvaluateKeepsOpen(db: Db, m: Sample, order: seq<int>, id: int)
    requires EventOk(db, id) && id in db.events
    ensures var db' := Evaluate(db, m, order);
            db.nextEvent <= db'.nextEvent && id in db'.events && db'.events[id] == db.events[id]
  {
    if order != [] {
      EvaluateKeepsOpen(db, m, order[..|order| - 1], id);
    }
  }

  /** Through any number of sweeps, ingests for other subjects, evaluations and
      edits of other rules, an open event stays open as long as there is no
      news for it. */
  lemma {:induction false} StaysOpen(run: seq<Db>, steps: seq<Step>, i: nat, j: nat, id: int)
    requires IsRun(run, steps) && i <= j < |run|
    requires id in run[i].events && run[i].events[id].resolved.None? && id in run[j].events
    requires forall n | i <= n < j :: NoNews(run[n], id)
    ensures run[j].events[id].resolved.None?
    decreases j
  {
    if i < j {
      PresentBefore(run, steps, i, j, id);
      StaysOpen(run, steps, i, j - 1, id);
      OpenStep(run, steps, j - 1, id);
    }
  }

  // ----- a rule that blocks the sweeps

  /** Whatever row comes, the rule orders something that is not a number. */
  lemma OtherForAllRows(db: Db, db': Db, kind: Kind, id: int)
    requires SamplesOk(db) && SamplesOk(db') && RaisesOn(db, kind, id) && Considered(db', kind, id)
    requires var e, e' := db.events[id], db'.events[id];
             && e'.rule == e.rule && e'.server == e.server && e'.container == e.container
             && SameTest(db'.rules[e.rule], db.rules[e.rule])
             && (forall m | m in db.samples && m.server == e.server :: m in db'.samples)
    ensures RaisesOn(db', kind, id)
  {
    var e := db.events[id];
    LatestIsNewest(db.samples, e.server, Subject(kind, e));
    LatestIsNewest(db'.samples, e.server, Subject(kind, e));
  }

  /** The rule of the event is neither edited nor deleted, nor is its server. */
  predicate Spares(step: Step, e: Event) {
    && (step.EditRule? || step.DeleteRule? ==> step.id != e.rule)
    && (step.DeleteServer? ==> step.server != e.server)
  }

  lemma {:induction false} EvaluateKeepsTests(db: Db, m: Sample, order: seq<int>, rule: int)
    requires rule in db.rules
    ensures var db' := Evaluate(db, m, order);
            && rule in db'.rules && SameTest(db'.rules[rule], db.rules[rule])
            && db'.samples == db.samples && db'.now == db.now
  {
    if order != [] {
      EvaluateKeepsTests(db, m, order[..|order| - 1], rule);
    }
  }

  lemma BlockStep(db: Db, step: Step, kind: Kind, id: int)
    requires Inv(db) && Enabled(db, step) && RaisesOn(db, kind, id) && Spares(step, db.events[id])
    ensures var db' := Apply(db, step);
            RaisesOn(db', kind, id) && db'.events[id].rule == db.events[id].rule &&
            db'.events[id].server == db.events[id].server
  {
    var db' := Apply(db, step);
    var e := db.events[id];
    StepKeepsInv(db, step);
    assert EventOk(db, id);
    if step.Resolve? {
      BlockedTask(db, kind, id);
    } else {
      if step.Evaluation? {
        EvaluateKeepsOpen(db, step.sample, step.order, id);
        EvaluateKeepsTests(db, step.sample, step.order, e.rule);
      } else if step.CreateRule? {
        assert RuleOk(db, e.rule);
      } else if step.DeleteServer? {
        forall m ensures m in Without(db.samples, step.server) <==> m in db.samples && m.server != step.server {
          WithoutKeeps(db.samples, step.server, m);
        }
      }
      OtherForAllRows(db, db', kind, id);
    }
  }

  predicate OfDockerRule(db: Db, e: int)
    requires e in db.events
  {
    db.events[e].rule in db.rules && db.rules[db.events[e].rule].kind.Docker?
  }

  /** While a system comparison raises, the task changes nothing; while a docker
      comparison does, it changes no event of a docker rule. */
  lemma BlockedTask(db: Db, kind: Kind, id: int)
    requires RaisesOn(db, kind, id)
    ensures var db' := ResolveTask(db);
            && RaisesOn(db', kind, id) && db'.events[id] == db.events[id]
            && (kind.System? ==> db' == db)
            && (forall e | e in db.events && OfDockerRule(db, e) :: e in db'.events && db'.events[e] == db.events[e])
  {
    assert Raises(db, kind);
    if kind.Docker? && !Raises(db, System) {
      SweepsApart(db, System, Docker, id);
      RaisesApart(db, System, Docker);
    }
  }

  ghost predicate Affected(db: Db, kind: Kind, e: int) {
    kind.System? ||
    (e in db.events && db.events[e].rule in db.rules ==> db.rules[db.events[e].rule].kind.Docker?)
  }

  lemma OpenThroughBlock(db: Db, step: Step, kind: Kind, id: int, e: int)
    requires Inv(db) && Enabled(db, step) && RaisesOn(db, kind, id) && Affected(db, kind, e)
    requires e in db.events && db.events[e].resolved.None? && e in Apply(db, step).events
    ensures Apply(db, step).events[e].resolved.None?
  {
    assert EventOk(db, e);
    if step.Evaluation? {
      EvaluateKeepsOpen(db, step.sample, step.order, e);
    } else if step.Resolve? {
      BlockedTask(db, kind, id);
      if db.events[e].rule !in db.rules {
        TaskClosesOnly(db, e);
      }
    }
  }

  /** One event is enough to keep others open for good: once the comparison for it
      raises, it raises in every later state until its rule is edited or deleted
      or its server is deleted. */
  lemma {:induction false} BlockLasts(run: seq<Db>, steps: seq<Step>, i: nat, j: nat, kind: Kind, id: int)
    requires IsRun(run, steps) && i <= j < |run| && RaisesOn(run[i], kind, id)
    requires forall n | i <= n < j :: Spares(steps[n], run[i].events[id])
    ensures RaisesOn(run[j], kind, id)
    ensures run[j].events[id].rule == run[i].events[id].rule && run[j].events[id].server == run[i].events[id].server
    decreases j
  {
    if i < j {
      BlockLasts(run, steps, i, j - 1, kind, id);
      RunInv(run, steps, j - 1);
      BlockStep(run[j - 1], steps[j - 1], kind, id);
    }
  }

  /** Until then no open event closes, if the rule is a system rule, and no open
      event of a docker rule does, if it is a docker rule. */
  lemma {:induction false} OneRuleBlocksAll(
    run: seq<Db>, steps: seq<Step>, i: nat, j: nat, kind: Kind, id: int, e: int)
    requires IsRun(run, steps) && i <= j < |run| && RaisesOn(run[i], kind, id)
    requires forall n | i <= n < j :: Spares(steps[n], run[i].events[id]) && Affected(run[n], kind, e)
    requires e in run[i].events && run[i].events[e].resolved.None? && e in run[j].events
    ensures run[j].events[e].resolved.None?
    decreases j
  {
    if i < j {
      RunInv(run, steps, j - 1);
      PresentBefore(run, steps, i, j, e);
      OneRuleBlocksAll(run, steps, i, j - 1, kind, id, e);
      BlockLasts(run, steps, i, j - 1, kind, id);
      OpenThroughBlock(run[j - 1], steps[j - 1], kind, id, e);
    }
  }

  // ----- when a rule fires and an event closes, in plain terms

  /** The value is on the alarming side of the threshold. */
  predicate Beyond(value: real, op: Operator, threshold: real) {
    && (op.Gt? ==> value > threshold) && (op.Gte? ==> value > threshold || value == threshold)
    && (op.Lt? ==> value < threshold) && (op.Lte? ==> value < threshold || value == threshold)
    && (op.Eq? ==> value == threshold) && (op.Neq? ==> value < threshold || value > threshold)
  }

  /** The rule concerns the row: same server, switched on, of the row's kind, and
      for a docker rule no other container is named. */
  predicate Concerns(rule: Rule, m: Sample) {
    && rule.server == m.server && rule.active
    && (rule.kind == System ==> m.container == None)
    && (rule.kind == Docker ==> m.container != None && (rule.container == None || rule.container == m.container))
  }

  ghost predicate NewEvent(db: Db, db': Db, id: int, e: int) {
    db.nextEvent <= e < db'.nextEvent && e in db'.events && db'.events[e].rule == id
  }

  /** A queried rule gets an event from an evaluation exactly if it concerns the
      row, the row has the value it tests, the value is beyond the threshold, and
      the rule never fired or did so at least its cooldown, in seconds, ago. */
  lemma FiresExactly(db: Db, m: Sample, order: seq<int>, id: int)
    requires forall i, j | 0 <= i < j < |order| :: order[i] != order[j]
    requires id in order && id in db.rules
    ensures var rule := db.rules[id];
            (exists e :: NewEvent(db, Evaluate(db, m, order), id, e)) <==>
              && Concerns(rule, m) && rule.field in m.fields
              && Beyond(m.fields[rule.field], rule.op, rule.threshold)
              && (rule.last == None || db.now - rule.last.value >= rule.cooldown * 1_000_000)
  {
    NewEventExactly(db, m, order, id);
    TestIsBeyond(db.rules[id], m);
  }

  lemma FiringCount(db: Db, m: Sample, order: seq<int>)
    requires forall i, j | 0 <= i < j < |order| :: order[i] != order[j]
    ensures Evaluate(db, m, order).nextEvent == db.nextEvent + |FiringIds(db, m, order)|
  {
    EvaluationEvents(db, m, order);
  }

  lemma FiringListed(db: Db, m: Sample, order: seq<int>, id: int)
    requires forall i, j | 0 <= i < j < |order| :: order[i] != order[j]
    ensures id in FiringIds(db, m, order) <==> id in order && id in db.rules && Fires(db.rules[id], m, db.now)
  {
    EvaluationIsPerRule(db, m, order);
  }

  /** The k-th firing of an evaluation. */
  lemma {:induction false} FiringAt(db: Db, m: Sample, order: seq<int>, k: nat)
    requires forall i, j | 0 <= i < j < |order| :: order[i] != order[j]
    requires k < |FiringIds(db, m, order)|
    ensures var db', id := Evaluate(db, m, order), FiringIds(db, m, order)[k];
            && id in order && id in db.rules && Fires(db.rules[id], m, db.now)
            && db.nextEvent + k < db'.nextEvent && db.nextEvent + k in db'.events
            && db'.events[db.nextEvent + k] == EventOf(id, db.rules[id], m, db.now)
            && id in db'.rules && db'.rules[id] == db.rules[id].(last := Some(db.now))
  {
    var n := |order| - 1;
    var front, last := order[..n], order[n];
    assert order == front + [last];
    FiringCount(db, m, front);
    if k < |FiringIds(db, m, front)| {
      FiringAt(db, m, front, k);
      assert FiringIds(db, m, order)[k] in front;
    } else {
      FireOneEvent(db, m, front, last);
    }
  }

  lemma NewEventExactly(db: Db, m: Sample, order: seq<int>, id: int)
    requires forall i, j | 0 <= i < j < |order| :: order[i] != order[j]
    requires id in order && id in db.rules
    ensures (exists e :: NewEvent(db, Evaluate(db, m, order), id, e)) <==> Fires(db.rules[id], m, db.now)
  {
    var db', ids := Evaluate(db, m, order), FiringIds(db, m, order);
    FiringListed(db, m, order, id);
    FiringCount(db, m, order);
    if id in ids {
      var k: nat :| k < |ids| && ids[k] == id;
      FiringAt(db, m, order, k);
      assert NewEvent(db, db', id, db.nextEvent + k);
    }
    if e :| NewEvent(db, db', id, e) {
      FiringAt(db, m, order, e - db.nextEvent);
    }
  }

  lemma TestIsBeyond(rule: Rule, m: Sample)
    ensures Selected(rule, m) && Breaches(rule, m) <==>
            Concerns(rule, m) && rule.field in m.fields && Beyond(m.fields[rule.field], rule.op, rule.threshold)
  {
    if rule.field in m.fields {
      OperatorsPartition(m.fields[rule.field], rule.threshold);
    }
  }

  /** What the event of a firing says. */
  lemma EventSays(db: Db, m: Sample, order: seq<int>, id: int, e: int)
    requires forall i, j | 0 <= i < j < |order| :: order[i] != order[j]
    requires id in order && id in db.rules && NewEvent(db, Evaluate(db, m, order), id, e)
    ensures var rule, event := db.rules[id], Evaluate(db, m, order).events[e];
            && rule.field in m.fields && event.value == m.fields[rule.field] && event.threshold == rule.threshold
            && event.server == m.server && event.container == m.container
            && event.fired == db.now && event.resolved == None && event.source == m
            && id in Evaluate(db, m, order).rules
            && Evaluate(db, m, order).rules[id] == rule.(last := Some(db.now))
  {
    FiringCount(db, m, order);
    FiringAt(db, m, order, e - db.nextEvent);
  }

  /** m is the newest row of the server, or of the container for a docker rule. */
  predicate NewestFor(db: Db, rule: Rule, e: Event, m: Sample) {
    && m in db.samples && m.server == e.server
    && m.container == (if rule.kind == System then None else e.container)
    && (rule.kind == Docker ==> e.container != None)
    && forall x | x in db.samples && x != m && x.server == m.server && x.container == m.container :: x.at < m.at
  }

  /** v is what the row has in that column, a metric or an id. */
  predicate InColumn(m: Sample, field: string, v: real) {
    || (field in m.fields && v == m.fields[field])
    || (field !in m.fields && field == "id" && v == m.id as real)
    || (field !in m.fields && field == "server_id" && v == m.server as real)
  }

  lemma NewestIsLatest(db: Db, rule: Rule, e: Event, m: Sample)
    requires NewestFor(db, rule, e, m)
    ensures Latest(db.samples, e.server, Subject(rule.kind, e)) == Some(m)
  {
    LatestIsNewest(db.samples, e.server, Subject(rule.kind, e));
  }

  /** If nothing raises, the task closes an open event whose rule exists, switched
      on or off, exactly if the newest value of the tested column is no longer
      beyond the threshold. */
  lemma TaskClosesByValue(db: Db, id: int, m: Sample, v: real)
    requires !Raises(db, System) && !Raises(db, Docker)
    requires id in db.events && db.events[id].resolved == None && db.events[id].rule in db.rules
    requires var rule := db.rules[db.events[id].rule];
             NewestFor(db, rule, db.events[id], m) && InColumn(m, rule.field, v)
    ensures var rule, after := db.rules[db.events[id].rule], ResolveTask(db).events;
            && id in after
            && after[id].resolved == if Beyond(v, rule.op, rule.threshold) then None else Some(db.now)
  {
    var rule := db.rules[db.events[id].rule];
    NewestIsLatest(db, rule, db.events[id], m);
    OperatorsPartition(v, rule.threshold);
    SweepsApart(db, System, Docker, id);
    RaisesApart(db, System, Docker);
  }

  /** A column that is not a number differs from every threshold and cannot be
      ordered: equality closes the event, inequality keeps it open, and any other
      operator raises. A name the row does not have keeps it open. */
  lemma TaskOnOtherColumns(db: Db, id: int, m: Sample)
    requires id in db.events && db.events[id].resolved == None && db.events[id].rule in db.rules
    requires var rule := db.rules[db.events[id].rule];
             NewestFor(db, rule, db.events[id], m) && rule.field !in m.fields && rule.field !in ID_COLUMNS
    ensures var rule, after := db.rules[db.events[id].rule], ResolveTask(db).events;
            if rule.field in (if rule.kind == System then SYSTEM_OTHERS else DOCKER_OTHERS) then
              && (rule.op in {Gt, Gte, Lt, Lte} ==> Raises(db, rule.kind))
              && (!Raises(db, System) && !Raises(db, Docker) ==>
                    id in after && after[id].resolved == if rule.op == Neq then None else Some(db.now))
            else id in after && after[id] == db.events[id]
  {
    var rule := db.rules[db.events[id].rule];
    NewestIsLatest(db, rule, db.events[id], m);
    SweepsApart(db, System, Docker, id);
    RaisesApart(db, System, Docker);
    if RaisesOn(db, rule.kind, id) {
      assert Raises(db, rule.kind);
    }
  }

  /** And it leaves alone what is closed already, what has no rule any more, what
      has no row to judge by, and old docker events that name no container. */
  lemma TaskLeavesOthers(db: Db, id: int)
    requires id in db.events
    requires var e := db.events[id];
             || e.resolved != None || e.rule !in db.rules
             || (db.rules[e.rule].kind == Docker && e.container == None)
             || (forall m | m in db.samples && m.server == e.server ::
                   m.container != if db.rules[e.rule].kind == System then None else e.container)
    ensures id in ResolveTask(db).events && ResolveTask(db).events[id] == db.events[id]
  {
    var e := db.events[id];
    LatestIsNewest(db.samples, e.server, Subject(System, e));
    LatestIsNewest(db.samples, e.server, Subject(Docker, e));
    TaskClosesOnly(db, id);
  }

  /** Switching a rule on or off has no bearing on what closes. */
  lemma ActiveIsIrrelevant(db: Db, r: int, active: bool)
    requires r in db.rules
    ensures ResolveTask(db.(rules := db.rules[r := db.rules[r].(active := active)])).events == ResolveTask(db).events
  {
    var db' := db.(rules := db.rules[r := db.rules[r].(active := active)]);
    SweepIgnoresActive(db, System, r, active);
    SweepIgnoresActive(Sweep(db, System), Docker, r, active);
  }

  lemma SweepIgnoresActive(db: Db, kind: Kind, r: int, active: bool)
    requires r in db.rules
    ensures var rules := db.rules[r := db.rules[r].(active := active)];
            && Sweep(db.(rules := rules), kind) == Sweep(db, kind).(rules := rules)
            && (Raises(db.(rules := rules), kind) <==> Raises(db, kind))
  {
    var db' := db.(rules := db.rules[r := db.rules[r].(active := active)]);
    forall id ensures (Closes(db', kind, id) <==> Closes(db, kind, id)) &&
                      (RaisesOn(db', kind, id) <==> RaisesOn(db, kind, id))
    {
      assert Considered(db', kind, id) <==> Considered(db, kind, id);
    }
    assert Raises(db', kind) <==> Raises(db, kind);
    if !Raises(db, kind) {
      assert Sweep(db', kind).events == Sweep(db, kind).events;
    }
  }
}
