/** Alert rules, the events they fire and the sweeps that resolve them. */
module Alerts {
  import opened Options
  import opened Listing

  /** Microseconds, the resolution of the timestamps. */
  type Time = int
  const SECOND: Time := 1_000_000

  datatype Operator = Gt | Gte | Lt | Lte | Eq | Neq

  function Compare(actual: real, op: Operator, threshold: real): bool {
    match op
    case Gt => actual > threshold
    case Gte => actual >= threshold
    case Lt => actual < threshold
    case Lte => actual <= threshold
    case Eq => actual == threshold
    case Neq => actual != threshold
  }

  /** Of above, equal and below exactly one holds; the other three operators are
      their complements. */
  lemma OperatorsPartition(a: real, t: real)
    ensures [Compare(a, Gt, t), Compare(a, Eq, t), Compare(a, Lt, t)] in
            {[true, false, false], [false, true, false], [false, false, true]}
    ensures Compare(a, Gte, t) != Compare(a, Lt, t)
    ensures Compare(a, Lte, t) != Compare(a, Gt, t)
    ensures Compare(a, Neq, t) != Compare(a, Eq, t)
    ensures Compare(a, Eq, a)
  {
  }

  /** Above and below are each other's mirror, and moving away keeps them. */
  lemma OperatorsAreOrdered(a: real, b: real, t: real)
    ensures Compare(a, Gt, t) <==> Compare(t, Lt, a)
    ensures a <= b && Compare(a, Gt, t) ==> Compare(b, Gt, t)
    ensures a <= b && Compare(b, Lt, t) ==> Compare(a, Lt, t)
    ensures a < b ==> Compare(b, Gt, a)
  {
  }

  datatype Kind = System | Docker

  datatype Rule = Rule(
    server: int,
    kind: Kind,
    field: string,
    op: Operator,
    threshold: real,
    container: Option<string>,
    cooldown: nat,
    active: bool,
    last: Option<Time>)

  const SYSTEM_COLUMNS := {"cpu_percent", "memory_percent", "disk_percent"}
  const DOCKER_COLUMNS := {"cpu_percent", "memory_usage_mb", "memory_limit_mb"}
  const ID_COLUMNS := {"id", "server_id"}

  /** Names of attributes that are not numbers; the time of a row is one. */
  type OtherNames = s: set<string> |
    "collected_at" in s && s !! SYSTEM_COLUMNS && s !! DOCKER_COLUMNS && s !! ID_COLUMNS
    witness {"collected_at"}

  /** Which these are depends on the table only: further columns, and whatever
      else Python finds on a row object. */
  const SYSTEM_OTHERS: OtherNames
  const DOCKER_OTHERS: OtherNames

  /** A row of the metrics table (no container) or of the docker metrics table.
      `fields` holds the columns that are checked against rules; a docker row
      without a memory limit lacks that field. */
  datatype Sample = Sample(id: int, server: int, container: Option<string>, at: Time, fields: map<string, real>)

  predicate WellFormed(m: Sample) {
    m.fields.Keys <= if m.container.None? then SYSTEM_COLUMNS else DOCKER_COLUMNS
  }

  /** `fired` is the clock of the evaluation, which is also written to the rule's
      last_triggered_at. `source` and `under` are history: the row and the rule
      the event fired on. */
  datatype Event = Event(
    rule: int,
    server: int,
    container: Option<string>,
    value: real,
    threshold: real,
    fired: Time,
    resolved: Option<Time>,
    source: Sample,
    under: Rule)

  /** History of firings, kept when a rule and its events are deleted. */
  datatype Firing = Firing(rule: int, at: Time, cooldown: nat)

  datatype Db = Db(
    now: Time,
    rules: map<int, Rule>,
    nextRule: int,
    samples: seq<Sample>,
    events: map<int, Event>,
    nextEvent: int,
    log: seq<Firing>)

  // ----- evaluation

  predicate Selected(rule: Rule, sample: Sample) {
    && rule.server == sample.server && rule.active
    && (rule.kind.System? <==> sample.container.None?)
  }

  predicate Breaches(rule: Rule, sample: Sample) {
    && (rule.kind.Docker? && rule.container.Some? ==> rule.container == sample.container)
    && rule.field in sample.fields
    && Compare(sample.fields[rule.field], rule.op, rule.threshold)
  }

  predicate CooledDown(rule: Rule, now: Time) {
    rule.last.Some? ==> now - rule.last.value >= rule.cooldown * SECOND
  }

  predicate Fires(rule: Rule, sample: Sample, now: Time) {
    Selected(rule, sample) && Breaches(rule, sample) && CooledDown(rule, now)
  }

  function EventOf(id: int, rule: Rule, sample: Sample, now: Time): Event
    requires rule.field in sample.fields
  {
    Event(id, sample.server, sample.container, sample.fields[rule.field], rule.threshold, now, None, sample, rule)
  }

  function FireOne(db: Db, sample: Sample, id: int): Db {
    if id in db.rules && Fires(db.rules[id], sample, db.now) then
      var rule := db.rules[id];
      db.(rules := db.rules[id := rule.(last := Some(db.now))],
          events := db.events[db.nextEvent := EventOf(id, rule, sample, db.now)],
          nextEvent := db.nextEvent + 1,
          log := db.log + [Firing(id, db.now, rule.cooldown)])
    else db
  }

  /** One evaluation of a stored row against the rules, in the order the query
      returned them. */
  function Evaluate(db: Db, sample: Sample, order: seq<int>): Db {
    if order == [] then db
    else FireOne(Evaluate(db, sample, order[..|order| - 1]), sample, order[|order| - 1])
  }

  // ----- sweeps

  datatype Attribute = Absent | Number(value: real) | Other

  /** What `getattr` finds on a row: any attribute, whether or not it is one that
      rules are meant for. */
  function Attr(m: Sample, field: string): Attribute {
    if field in m.fields then Number(m.fields[field])
    else if field == "id" then Number(m.id as real)
    else if field == "server_id" then Number(m.server as real)
    else if field in (if m.container.None? then SYSTEM_OTHERS else DOCKER_OTHERS) then Other
    else Absent
  }

  /** Python raises when it has to order something else and a number. */
  predicate Unordered(a: Attribute, op: Operator) {
    a.Other? && !op.Eq? && !op.Neq?
  }

  /** The comparison of an attribute that is there. */
  predicate Holds(a: Attribute, op: Operator, threshold: real) {
    if a.Number? then Compare(a.value, op, threshold) else op.Neq?
  }

  /** ORDER BY collected_at DESC LIMIT 1. */
  function Latest(samples: seq<Sample>, server: int, container: Option<string>): Option<Sample> {
    if samples == [] then None
    else
      var m := samples[|samples| - 1];
      var rest := Latest(samples[..|samples| - 1], server, container);
      if m.server == server && m.container == container && (rest.None? || rest.value.at < m.at) then Some(m) else rest
  }

  /** The part of the table a sweep looks an event up in. */
  function Subject(kind: Kind, e: Event): Option<string> {
    if kind.System? then None else e.container
  }

  predicate Considered(db: Db, kind: Kind, id: int) {
    && id in db.events && db.events[id].resolved.None?
    && db.events[id].rule in db.rules && db.rules[db.events[id].rule].kind == kind
    && (kind.Docker? ==> db.events[id].container.Some?)
  }

  /** The latest value of what the rule tests. */
  function LatestValue(db: Db, kind: Kind, id: int): Attribute
    requires Considered(db, kind, id)
  {
    var e := db.events[id];
    var latest := Latest(db.samples, e.server, Subject(kind, e));
    if latest.None? then Absent else Attr(latest.value, db.rules[e.rule].field)
  }

  /** The uncached decision for one event. */
  predicate Closes(db: Db, kind: Kind, id: int) {
    && Considered(db, kind, id)
    && var value, rule := LatestValue(db, kind, id), db.rules[db.events[id].rule];
       !value.Absent? && !Unordered(value, rule.op) && !Holds(value, rule.op, rule.threshold)
  }

  /** The comparison for this event raises. */
  predicate RaisesOn(db: Db, kind: Kind, id: int) {
    Considered(db, kind, id) && Unordered(LatestValue(db, kind, id), db.rules[db.events[id].rule].op)
  }

  /** Nothing is committed when one comparison raises. */
  predicate Raises(db: Db, kind: Kind) {
    exists id | id in db.events :: RaisesOn(db, kind, id)
  }

  function Sweep(db: Db, kind: Kind): Db {
    if Raises(db, kind) then db
    else
      db.(events := map id | id in db.events ::
                      if Closes(db, kind, id) then db.events[id].(resolved := Some(db.now)) else db.events[id])
  }

  /** The task: the system sweep and then, unless it raised, the docker sweep. */
  function ResolveTask(db: Db): Db {
    if Raises(db, System) then db else Sweep(Sweep(db, System), Docker)
  }

  /** A sweep of one kind is no concern of the other. */
  lemma SweepsApart(db: Db, kind: Kind, other: Kind, id: int)
    requires kind != other
    ensures var db' := Sweep(db, kind);
            && (Considered(db', other, id) <==> Considered(db, other, id))
            && (Considered(db, other, id) ==>
                  db'.events[id] == db.events[id] && LatestValue(db', other, id) == LatestValue(db, other, id))
            && (Closes(db', other, id) <==> Closes(db, other, id))
            && (RaisesOn(db', other, id) <==> RaisesOn(db, other, id))
  {
  }

  lemma RaisesApart(db: Db, kind: Kind, other: Kind)
    requires kind != other
    ensures Raises(Sweep(db, kind), other) <==> Raises(db, other)
  {
    var db' := Sweep(db, kind);
    if Raises(db, other) {
      var id :| id in db.events && RaisesOn(db, other, id);
      SweepsApart(db, kind, other, id);
    }
    if Raises(db', other) {
      var id :| id in db'.events && RaisesOn(db', other, id);
      SweepsApart(db, kind, other, id);
    }
  }

  /** An event that should close is closed by the task exactly if no system
      comparison raises and, for a docker event, no docker comparison does. */
  lemma TaskClosesExactly(db: Db, kind: Kind, id: int)
    requires Closes(db, kind, id)
    ensures id in ResolveTask(db).events
    ensures ResolveTask(db).events[id].resolved.Some? <==>
            !Raises(db, System) && (kind.Docker? ==> !Raises(db, Docker))
  {
    if !Raises(db, System) {
      SweepsApart(db, System, Docker, id);
      RaisesApart(db, System, Docker);
    }
  }

  /** And it closes no other event. */
  lemma TaskClosesOnly(db: Db, id: int)
    requires id in db.events && !Closes(db, System, id) && !Closes(db, Docker, id)
    ensures id in ResolveTask(db).events && ResolveTask(db).events[id] == db.events[id]
  {
    SweepsApart(db, System, Docker, id);
  }

  /** A sweep that has dealt with the events in `done`. */
  ghost predicate SweptTo(db: Db, kind: Kind, done: seq<int>, events: map<int, Event>, resolved: seq<int>) {
    && events.Keys == db.events.Keys
    && (forall id | id in done :: !RaisesOn(db, kind, id))
    && (forall id :: id in resolved <==> id in done && Closes(db, kind, id))
    && forall id | id in events ::
         events[id] == if id in resolved then db.events[id].(resolved := Some(db.now)) else db.events[id]
  }

  lemma SweptMore(db: Db, kind: Kind, done: seq<int>, events: map<int, Event>, resolved: seq<int>, id: int)
    requires SweptTo(db, kind, done, events, resolved) && id !in done && id in db.events && !RaisesOn(db, kind, id)
    ensures events[id] == db.events[id]
    ensures if Closes(db, kind, id)
            then SweptTo(db, kind, done + [id], events[id := db.events[id].(resolved := Some(db.now))], resolved + [id])
            else SweptTo(db, kind, done + [id], events, resolved)
  {
  }

  lemma SweptAll(db: Db, kind: Kind, rows: seq<int>, events: map<int, Event>, resolved: seq<int>)
    requires SweptTo(db, kind, rows, events, resolved) && forall id :: id in rows <==> Considered(db, kind, id)
    ensures !Raises(db, kind) && Sweep(db, kind) == db.(events := events)
    ensures forall id :: id in resolved <==> Closes(db, kind, id)
  {
    assert Sweep(db, kind).events == events;
  }

  // ----- the running services

  class Store {
    var now: Time
    var rules: map<int, Rule>
    var nextRule: int
    var samples: seq<Sample>
    var events: map<int, Event>
    var nextEvent: int
    ghost var log: seq<Firing>

    ghost function View(): Db
      reads this
    {
      Db(now, rules, nextRule, samples, events, nextEvent, log)
    }

    constructor (db: Db)
      ensures View() == db
    {
      now, rules, nextRule, samples := db.now, db.rules, db.nextRule, db.samples;
      events, nextEvent, log := db.events, db.nextEvent, db.log;
    }

    /** evaluate_system_metrics and evaluate_docker_metrics: `order` is the
        result of the query for the active rules of that server and kind. */
    method EvaluateMetrics(sample: Sample, order: seq<int>) returns (pending: seq<int>)
      requires forall id | id in order :: id in rules && Selected(rules[id], sample)
      modifies this
      ensures View() == Evaluate(old(View()), sample, order)
      ensures |pending| == nextEvent - old(nextEvent)
      ensures forall i | 0 <= i < |pending| :: pending[i] == old(nextEvent) + i
    {
      pending := [];
      assert order[..0] == [];
      for i := 0 to |order|
        invariant View() == Evaluate(old(View()), sample, order[..i])
        invariant forall id | id in order :: id in rules && Selected(rules[id], sample)
        invariant |pending| == nextEvent - old(nextEvent)
        invariant forall j | 0 <= j < |pending| :: pending[j] == old(nextEvent) + j
      {
        assert order[..i + 1][..i] == order[..i];
        var id := order[i];
        var rule := rules[id];
        if rule.kind.Docker? && rule.container.Some? && rule.container != sample.container {
          continue;
        }
        if rule.field !in sample.fields {
          continue;
        }
        if !Compare(sample.fields[rule.field], rule.op, rule.threshold) {
          continue;
        }
        if rule.last.Some? {
          var elapsed := now - rule.last.value;
          if elapsed < rule.cooldown * SECOND {
            continue;
          }
        }
        events := events[nextEvent := EventOf(id, rule, sample, now)];
        pending := pending + [nextEvent];
        nextEvent := nextEvent + 1;
        rules := rules[id := rule.(last := Some(now))];
        log := log + [Firing(id, now, rule.cooldown)];
      }
      assert order[..|order|] == order;
    }

    /** auto_resolve_system_alerts and auto_resolve_docker_alerts: `rows` is the
        result of the join of open events with their rules. The cache of latest
        rows changes nothing: exactly the events close that a lookup of their
        own would close, or none when a comparison raises. */
    method AutoResolve(kind: Kind, rows: seq<int>) returns (resolvedIds: seq<int>, raised: bool)
      requires forall id :: id in rows <==> Considered(View(), kind, id)
      requires forall i, j | 0 <= i < j < |rows| :: rows[i] != rows[j]
      modifies this
      ensures View() == Sweep(old(View()), kind)
      ensures raised <==> Raises(old(View()), kind)
      ensures !raised ==> forall id :: id in resolvedIds <==> Closes(old(View()), kind, id)
    {
      ghost var db := View();
      var before := events;
      resolvedIds, raised := [], false;
      var cache: map<(int, Option<string>), Option<Sample>> := map[];
      for i := 0 to |rows|
        invariant View().(events := db.events) == db
        invariant forall k | k in cache :: cache[k] == Latest(samples, k.0, k.1)
        invariant SweptTo(db, kind, rows[..i], events, resolvedIds)
      {
        var id := rows[i];
        assert Considered(db, kind, id) && id !in rows[..i] && rows[..i + 1] == rows[..i] + [id];
        var event := events[id];
        var rule := rules[event.rule];
        var key := (event.server, Subject(kind, event));
        if key !in cache {
          cache := cache[key := Latest(samples, key.0, key.1)];
        }
        var latest := cache[key];
        var value := if latest.None? then Absent else Attr(latest.value, rule.field);
        assert value == LatestValue(db, kind, id);
        if Unordered(value, rule.op) {
          assert RaisesOn(db, kind, id);
          events, raised := before, true;
          return;
        }
        SweptMore(db, kind, rows[..i], events, resolvedIds, id);
        if value.Absent? || Holds(value, rule.op, rule.threshold) {
          continue;
        }
        events := events[id := event.(resolved := Some(now))];
        resolvedIds := resolvedIds + [id];
      }
      assert rows[..|rows|] == rows;
      SweptAll(db, kind, rows, events, resolvedIds);
    }

    /** The join of open events with their rules. */
    method OpenEvents(kind: Kind) returns (rows: seq<int>)
      ensures Lists(rows, set id | id in events && Considered(View(), kind, id))
    {
      var db := Db(now, rules, nextRule, samples, events, nextEvent, []);
      rows := ListSet(set id | id in events && Considered(db, kind, id));
      assert forall id :: Considered(db, kind, id) <==> Considered(View(), kind, id);
    }

    /** task_resolve_alerts. */
    method Resolve() returns (raised: bool)
      modifies this
      ensures View() == ResolveTask(old(View()))
      ensures raised <==> Raises(old(View()), System) || Raises(old(View()), Docker)
    {
      var rows := OpenEvents(System);
      var ids;
      ids, raised := AutoResolve(System, rows);
      if raised {
        return;
      }
      RaisesApart(old(View()), System, Docker);
      rows := OpenEvents(Docker);
      ids, raised := AutoResolve(Docker, rows);
    }
  }
}
