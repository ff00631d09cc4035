/** The heartbeat task: servers that fall silent are marked inactive, servers
    that are seen again are marked active, and each change is announced. */
module Heartbeat {
  import opened Options
  import opened Listing

  /** Microseconds. */
  type Time = int
  const SILENCE: Time := 300_000_000

  datatype Server = Server(active: bool, paused: bool, lastSeen: Option<Time>)

  datatype Notice = Notice(server: int, down: bool)

  predicate Silent(s: Server, threshold: Time) {
    s.lastSeen.Some? && s.lastSeen.value < threshold && s.active && !s.paused
  }

  predicate Back(s: Server, threshold: Time) {
    s.lastSeen.Some? && s.lastSeen.value >= threshold && !s.active && !s.paused
  }

  function SilentIds(servers: map<int, Server>, threshold: Time): set<int> {
    set id | id in servers && Silent(servers[id], threshold)
  }

  function BackIds(servers: map<int, Server>, threshold: Time): set<int> {
    set id | id in servers && Back(servers[id], threshold)
  }

  function Mark(servers: map<int, Server>, ids: set<int>, active: bool): map<int, Server> {
    map id | id in servers :: if id in ids then servers[id].(active := active) else servers[id]
  }

  function Announce(ids: seq<int>, down: bool): seq<Notice> {
    if ids == [] then [] else Announce(ids[..|ids| - 1], down) + [Notice(ids[|ids| - 1], down)]
  }

  /** The table and the queue after a pass that announced `downs` and `ups`. */
  ghost predicate Passed(before: map<int, Server>, after: map<int, Server>, now: Time, downs: seq<int>, ups: seq<int>) {
    && Lists(downs, SilentIds(before, now - SILENCE)) && Lists(ups, BackIds(before, now - SILENCE))
    && after.Keys == before.Keys
    && forall id | id in before ::
         after[id] == if id in downs then before[id].(active := false)
                      else if id in ups then before[id].(active := true)
                      else before[id]
  }

  /** The first update does not change which servers the second one selects. */
  lemma SecondUpdate(before: map<int, Server>, threshold: Time)
    ensures BackIds(Mark(before, SilentIds(before, threshold), false), threshold) == BackIds(before, threshold)
  {
    var mid := Mark(before, SilentIds(before, threshold), false);
    forall id ensures id in BackIds(mid, threshold) <==> id in BackIds(before, threshold) {
    }
  }

  class Task {
    var servers: map<int, Server>
    var queue: seq<Notice>

    constructor (servers: map<int, Server>)
      ensures this.servers == servers && queue == []
    {
      this.servers, queue := servers, [];
    }

    /** `_run_heartbeat_check`: two bulk updates, the second on the result of the
        first, then the announcements. */
    method Check(now: Time) returns (downs: seq<int>, ups: seq<int>)
      modifies this
      ensures Passed(old(servers), servers, now, downs, ups)
      ensures queue == old(queue) + Announce(downs, true) + Announce(ups, false)
    {
      var threshold := now - SILENCE;
      var deactivated := SilentIds(servers, threshold);
      servers := Mark(servers, deactivated, false);
      var recovered := BackIds(servers, threshold);
      servers := Mark(servers, recovered, true);
      SecondUpdate(old(servers), threshold);
      ghost var table := servers;
      downs := ListSet(deactivated);
      ups := ListSet(recovered);
      for i := 0 to |downs|
        invariant servers == table && queue == old(queue) + Announce(downs[..i], true)
      {
        assert downs[..i + 1][..i] == downs[..i];
        queue := queue + [Notice(downs[i], true)];
      }
      assert downs[..|downs|] == downs;
      for i := 0 to |ups|
        invariant servers == table && queue == old(queue) + Announce(downs, true) + Announce(ups[..i], false)
      {
        assert ups[..i + 1][..i] == ups[..i];
        queue := queue + [Notice(ups[i], false)];
      }
      assert ups[..|ups|] == ups;
    }
  }

  // ----- runs

  /** An ingest request that has authenticated its server and not yet committed
      `last_seen_at`. What it will write is the start of its transaction, which
      is the lookup of the server. */
  datatype Ingest = Ingest(server: int, begun: Time)

  /** `used` holds the server ids ever given out. */
  datatype State = State(
    now: Time,
    servers: map<int, Server>,
    used: set<int>,
    inflight: map<nat, Ingest>,
    queue: seq<Notice>)

  datatype Step =
    | Tick(to: Time)
    | Register(id: int)
    | SetPaused(id: int, paused: bool)
    | Delete(id: int)
    | Authenticate(r: nat, id: int)
    | Write(r: nat)
    | Pass(downs: seq<int>, ups: seq<int>)

  function Seen(servers: map<int, Server>, q: Ingest): map<int, Server> {
    if q.server in servers then servers[q.server := servers[q.server].(lastSeen := Some(q.begun))] else servers
  }

  ghost predicate Next(s: State, step: Step, s': State) {
    match step
    case Tick(to) => s.now <= to && s' == s.(now := to)
    case Register(id) =>
      id !in s.used && s' == s.(servers := s.servers[id := Server(true, false, None)], used := s.used + {id})
    case SetPaused(id, paused) =>
      id in s.servers && s' == s.(servers := s.servers[id := s.servers[id].(paused := paused)])
    case Delete(id) => s' == s.(servers := s.servers - {id})
    case Authenticate(r, id) =>
      id in s.servers && s.servers[id].active && !s.servers[id].paused && r !in s.inflight &&
      s' == s.(inflight := s.inflight[r := Ingest(id, s.now)])
    case Write(r) =>
      r in s.inflight &&
      s' == s.(inflight := s.inflight - {r}, servers := Seen(s.servers, s.inflight[r]))
    case Pass(downs, ups) =>
      && Passed(s.servers, s'.servers, s.now, downs, ups)
      && s' == s.(servers := s'.servers, queue := s.queue + Announce(downs, true) + Announce(ups, false))
  }

  /** The notices of one server, oldest first: true for down. */
  function Of(queue: seq<Notice>, id: int): seq<bool> {
    if queue == [] then []
    else
      Of(queue[..|queue| - 1], id) +
      if queue[|queue| - 1].server == id then [queue[|queue| - 1].down] else []
  }

  /** Down, recovery, down, ... */
  predicate Alternates(ns: seq<bool>) {
    forall i | 0 <= i < |ns| :: ns[i] <==> i % 2 == 0
  }

  ghost predicate ServerOk(s: State, id: int) {
    && Alternates(Of(s.queue, id))
    && (id in s.servers ==> id in s.used && (s.servers[id].active <==> |Of(s.queue, id)| % 2 == 0))
    && (id !in s.used ==> Of(s.queue, id) == [])
  }

  ghost predicate Inv(s: State) {
    forall id :: ServerOk(s, id)
  }

  lemma {:induction false} OfConcat(a: seq<Notice>, b: seq<Notice>, id: int)
    ensures Of(a + b, id) == Of(a, id) + Of(b, id)
  {
    if b == [] {
      assert a + b == a;
    } else {
      var n := |b| - 1;
      OfConcat(a, b[..n], id);
      assert (a + b)[..|a| + n] == a + b[..n];
    }
  }

  lemma {:induction false} OfAnnounce(ids: seq<int>, down: bool, id: int)
    requires forall i, j | 0 <= i < j < |ids| :: ids[i] != ids[j]
    ensures Of(Announce(ids, down), id) == if id in ids then [down] else []
  {
    if ids != [] {
      var n := |ids| - 1;
      OfAnnounce(ids[..n], down, id);
      assert ids == ids[..n] + [ids[n]];
      OfConcat(Announce(ids[..n], down), [Notice(ids[n], down)], id);
      assert Of([Notice(ids[n], down)], id) == if ids[n] == id then [down] else [];
    }
  }

  /** One pass announces a server at most once, with the right kind. */
  lemma PassNotices(s: State, step: Step, s': State, id: int)
    requires Next(s, step, s') && step.Pass?
    ensures Of(s'.queue, id) ==
            Of(s.queue, id) + (if id in step.downs then [true] else if id in step.ups then [false] else [])
  {
    OfConcat(s.queue + Announce(step.downs, true), Announce(step.ups, false), id);
    OfConcat(s.queue, Announce(step.downs, true), id);
    OfAnnounce(step.downs, true, id);
    OfAnnounce(step.ups, false, id);
    assert id in step.downs ==> id !in step.ups;
  }

  lemma PassKeepsOk(s: State, step: Step, s': State, id: int)
    requires ServerOk(s, id) && Next(s, step, s') && step.Pass?
    ensures ServerOk(s', id)
  {
    PassNotices(s, step, s', id);
  }

  lemma StepKeepsInv(s: State, step: Step, s': State)
    requires Inv(s) && Next(s, step, s')
    ensures Inv(s')
  {
    forall id ensures ServerOk(s', id) {
      assert ServerOk(s, id);
      if step.Pass? {
        PassKeepsOk(s, step, s', id);
      }
    }
  }

  ghost predicate IsRun(run: seq<State>, steps: seq<Step>) {
    && |run| == |steps| + 1
    && run[0].servers == map[] && run[0].queue == [] && run[0].inflight == map[]
    && forall i | 0 <= i < |steps| :: Next(run[i], steps[i], run[i + 1])
  }

  lemma {:induction false} RunInv(run: seq<State>, steps: seq<Step>, i: nat)
    requires IsRun(run, steps) && i < |run|
    ensures Inv(run[i])
  {
    if i == 0 {
      forall id ensures ServerOk(run[0], id) {
      }
    } else {
      RunInv(run, steps, i - 1);
      StepKeepsInv(run[i - 1], steps[i - 1], run[i]);
    }
  }

  /** The notices of every server alternate, starting with down. */
  lemma NoticesAlternate(run: seq<State>, steps: seq<Step>, i: nat, id: int)
    requires IsRun(run, steps) && i < |run|
    ensures Alternates(Of(run[i].queue, id))
  {
    RunInv(run, steps, i);
    assert ServerOk(run[i], id);
  }

  /** A pass flips no paused server and none that was never seen, and flips a
      server only in the direction its notice says. */
  lemma PassFlips(s: State, step: Step, s': State, id: int)
    requires Next(s, step, s') && step.Pass? && id in s.servers
    requires s'.servers[id].active != s.servers[id].active
    ensures !s.servers[id].paused && s.servers[id].lastSeen.Some?
    ensures Of(s'.queue, id) == Of(s.queue, id) + [s.servers[id].active]
  {
    PassNotices(s, step, s', id);
  }

  // ----- recovery

  /** A request of the server is in flight that began less than five minutes ago. */
  predicate Racing(s: State, r: nat, id: int) {
    r in s.inflight && s.inflight[r].server == id && s.inflight[r].begun >= s.now - SILENCE
  }

  ghost predicate AnyRacing(s: State, id: int) {
    exists r :: Racing(s, r, id)
  }

  /** Inactive, silent, and no recent request left that could report it. */
  ghost predicate Stuck(s: State, id: int) {
    && id in s.used
    && !AnyRacing(s, id)
    && (id in s.servers ==> !s.servers[id].active)
    && (id in s.servers && s.servers[id].lastSeen.Some? ==> s.servers[id].lastSeen.value < s.now - SILENCE)
  }

  lemma StuckStays(s: State, step: Step, s': State, id: int)
    requires Next(s, step, s') && Stuck(s, id)
    ensures Stuck(s', id) && Of(s'.queue, id) == Of(s.queue, id)
  {
    if step.Pass? {
      PassNotices(s, step, s', id);
    }
    forall r ensures !Racing(s', r, id) {
      assert !Racing(s, r, id);
    }
    if step.Write? {
      assert !Racing(s, step.r, id);
    }
  }

  lemma RunStep(run: seq<State>, steps: seq<Step>, i: nat)
    requires IsRun(run, steps) && i < |steps|
    ensures Next(run[i], steps[i], run[i + 1])
  {
  }

  lemma {:induction false} StuckForever(run: seq<State>, steps: seq<Step>, i: nat, j: nat, id: int)
    requires IsRun(run, steps) && i <= j < |run| && Stuck(run[i], id)
    ensures Stuck(run[j], id) && Of(run[j].queue, id) == Of(run[i].queue, id)
    decreases j
  {
    if i < j {
      StuckForever(run, steps, i, j - 1, id);
      RunStep(run, steps, j - 1);
      StuckStays(run[j - 1], steps[j - 1], run[j], id);
    }
  }

  /** Ingest refuses inactive servers, so a server that a pass marks inactive
      while none of its recent requests is in flight never becomes active again
      and never gets a recovery notice, however often its agent reports. */
  lemma NoRecoveryWithoutRace(run: seq<State>, steps: seq<Step>, i: nat, j: nat, id: int)
    requires IsRun(run, steps) && i < j < |run| && steps[i].Pass? && id in steps[i].downs
    requires !AnyRacing(run[i + 1], id)
    ensures id in run[j].servers ==> !run[j].servers[id].active
    ensures Of(run[j].queue, id) == Of(run[i + 1].queue, id)
  {
    RunInv(run, steps, i);
    RunStep(run, steps, i);
    assert ServerOk(run[i], id);
    StuckForever(run, steps, i + 1, j, id);
  }

  /** With such a request it can recover: the write lands and the next pass
      announces it. */
  lemma RaceCanRecover(s: State, r: nat, id: int) returns (s1: State, s2: State, step: Step)
    requires Racing(s, r, id) && id in s.servers && !s.servers[id].active && !s.servers[id].paused
    ensures Next(s, Write(r), s1) && Next(s1, step, s2) && step.Pass?
    ensures s2.servers.Keys == s.servers.Keys && s2.servers[id].active && Of(s2.queue, id) == Of(s.queue, id) + [false]
  {
    s1 := s.(inflight := s.inflight - {r}, servers := Seen(s.servers, s.inflight[r]));
    s2, step := AnyPass(s1);
    assert id in BackIds(s1.servers, s.now - SILENCE);
    PassNotices(s1, step, s2, id);
  }

  /** A pass is possible in every state. */
  lemma AnyPass(s: State) returns (s': State, step: Step)
    ensures step.Pass? && Next(s, step, s')
  {
    var threshold := s.now - SILENCE;
    var downs := AnyListing(SilentIds(s.servers, threshold));
    var ups := AnyListing(BackIds(s.servers, threshold));
    var after := map x | x in s.servers ::
        if x in downs then s.servers[x].(active := false)
        else if x in ups then s.servers[x].(active := true)
        else s.servers[x];
    s' := s.(servers := after, queue := s.queue + Announce(downs, true) + Announce(ups, false));
    step := Pass(downs, ups);
  }

  /** The run can go on to a state in which the server is active. */
  ghost predicate CanRecover(run: seq<State>, steps: seq<Step>, id: int) {
    exists run', steps' :: Recovers(run, steps, run', steps', id)
  }

  ghost predicate Recovers(run: seq<State>, steps: seq<Step>, run': seq<State>, steps': seq<Step>, id: int) {
    && IsRun(run', steps') && run <= run' && steps <= steps'
    && id in run'[|steps'|].servers && run'[|steps'|].servers[id].active
  }

  /** Exactly then: after a pass that marked a server inactive, it can become
      active again if and only if one of its requests was past authentication
      and had begun less than five minutes before. */
  lemma RecoveryNeedsRace(run: seq<State>, steps: seq<Step>, id: int)
    requires IsRun(run, steps) && steps != [] && steps[|steps| - 1].Pass? && id in steps[|steps| - 1].downs
    ensures CanRecover(run, steps, id) <==> AnyRacing(run[|steps|], id)
  {
    var n := |steps| - 1;
    RunStep(run, steps, n);
    if r :| Racing(run[|steps|], r, id) {
      var s1, s2, step := RaceCanRecover(run[|steps|], r, id);
      var run', steps' := run + [s1, s2], steps + [Write(r), step];
      RunExtends(run, steps, Write(r), s1, step, s2);
      assert Recovers(run, steps, run', steps', id);
    } else if CanRecover(run, steps, id) {
      var run', steps' :| Recovers(run, steps, run', steps', id);
      assert steps'[n] == steps[n] && run'[n + 1] == run[n + 1];
      if |steps'| > |steps| {
        NoRecoveryWithoutRace(run', steps', n, |steps'|, id);
      }
    }
  }

  lemma RunExtends(run: seq<State>, steps: seq<Step>, a: Step, s1: State, b: Step, s2: State)
    requires IsRun(run, steps) && Next(run[|steps|], a, s1) && Next(s1, b, s2)
    ensures IsRun(run + [s1, s2], steps + [a, b])
  {
    var run', steps' := run + [s1, s2], steps + [a, b];
    forall i | 0 <= i < |steps'| ensures Next(run'[i], steps'[i], run'[i + 1]) {
      if i < |steps| {
        RunStep(run, steps, i);
      }
    }
  }

  /** Both cases occur. Here a server reports, falls silent for more than five
      minutes and is marked inactive while its next report is in flight. */
  lemma RaceIsReachable() returns (run: seq<State>, steps: seq<Step>)
    ensures IsRun(run, steps) && |steps| == 6 && steps[5] == Pass([7], []) && Racing(run[6], 1, 7)
  {
    var late := SILENCE + 1;
    var s0 := State(0, map[], {}, map[], []);
    var s1 := s0.(servers := map[7 := Server(true, false, None)], used := {7});
    var s2 := s1.(inflight := map[0 := Ingest(7, 0)]);
    var s3 := s2.(inflight := map[], servers := map[7 := Server(true, false, Some(0))]);
    var s4 := s3.(now := late);
    var s5 := s4.(inflight := map[1 := Ingest(7, late)]);
    var s6 := s5.(servers := map[7 := Server(false, false, Some(0))], queue := [Notice(7, true)]);
    run := [s0, s1, s2, s3, s4, s5, s6];
    steps := [Register(7), Authenticate(0, 7), Write(0), Tick(late), Authenticate(1, 7), Pass([7], [])];
    FirstSteps(s0, s1, s2, s3);
    DownPass(s5, s6);
    forall i | 0 <= i < 6 ensures Next(run[i], steps[i], run[i + 1]) {
      assert i == 0 || i == 1 || i == 2 || i == 3 || i == 4 || i == 5;
    }
  }

  lemma FirstSteps(s0: State, s1: State, s2: State, s3: State)
    requires s0 == State(0, map[], {}, map[], [])
    requires s1 == s0.(servers := map[7 := Server(true, false, None)], used := {7})
    requires s2 == s1.(inflight := map[0 := Ingest(7, 0)])
    requires s3 == s2.(inflight := map[], servers := map[7 := Server(true, false, Some(0))])
    ensures Next(s0, Register(7), s1) && Next(s1, Authenticate(0, 7), s2) && Next(s2, Write(0), s3)
  {
    assert s3.inflight == s2.inflight - {0};
  }

  lemma DownPass(s5: State, s6: State)
    requires s5.now == SILENCE + 1 && s5.servers == map[7 := Server(true, false, Some(0))] && s5.queue == []
    requires s6 == s5.(servers := map[7 := Server(false, false, Some(0))], queue := [Notice(7, true)])
    ensures Next(s5, Pass([7], []), s6)
  {
    assert SilentIds(s5.servers, 1) == {7} && BackIds(s5.servers, 1) == {};
    assert Announce([7], true) == [Notice(7, true)] by {
      assert [7][..0] == [];
    }
    assert Announce([], false) == [];
  }

  // ----- a pass in plain terms

  /** After a pass a server that is not paused and has been seen is active exactly
      if it was seen within the last five minutes; no other changes. */
  lemma PassDecides(s: State, step: Step, s': State, id: int)
    requires Next(s, step, s') && step.Pass? && id in s.servers
    ensures id in s'.servers
    ensures s'.servers[id] ==
            if s.servers[id].paused || s.servers[id].lastSeen == None then s.servers[id]
            else s.servers[id].(active := s.now - s.servers[id].lastSeen.value <= 5 * 60 * 1_000_000)
  {
  }
}
