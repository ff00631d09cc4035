/** The registry of dashboards that follow a server's log, and broadcasts that
    send without holding its lock. */
module Registry {
  import opened Listing

  datatype Socket = Socket(id: int)

  type Subs = map<int, set<Socket>>

  function Members(subs: Subs, server: int): set<Socket> {
    if server in subs then subs[server] else {}
  }

  function Add(subs: Subs, server: int, ws: Socket): Subs {
    subs[server := Members(subs, server) + {ws}]
  }

  /** Discarding sockets drops the entry of a server that has none left. */
  function Remove(subs: Subs, server: int, gone: set<Socket>): Subs {
    if server !in subs then subs
    else
      var left := subs[server] - gone;
      if left == {} then subs - {server} else subs[server := left]
  }

  class Manager {
    var subscribers: Subs

    constructor ()
      ensures subscribers == map[]
    {
      subscribers := map[];
    }

    method Subscribe(server: int, ws: Socket)
      modifies this
      ensures subscribers == Add(old(subscribers), server, ws)
    {
      if server !in subscribers {
        subscribers := subscribers[server := {}];
      }
      subscribers := subscribers[server := subscribers[server] + {ws}];
    }

    method Unsubscribe(server: int, ws: Socket)
      modifies this
      ensures subscribers == Remove(old(subscribers), server, {ws})
    {
      if server !in subscribers {
        return;
      }
      subscribers := subscribers[server := subscribers[server] - {ws}];
      if subscribers[server] == {} {
        subscribers := subscribers - {server};
      }
    }

    /** The snapshot a broadcast takes under the lock. */
    method Targets(server: int) returns (targets: seq<Socket>)
      ensures Lists(targets, Members(subscribers, server))
    {
      targets := ListSet(if server in subscribers then subscribers[server] else {});
    }

    /** The clean-up of a broadcast, under the lock again. */
    method Discard(server: int, failed: seq<Socket>)
      modifies this
      ensures subscribers == if failed == [] then old(subscribers)
                             else Remove(old(subscribers), server, set ws | ws in failed)
    {
      if failed == [] || server !in subscribers {
        return;
      }
      var subs := subscribers[server];
      for i := 0 to |failed|
        invariant subs == old(subscribers)[server] - (set ws | ws in failed[..i])
      {
        subs := subs - {failed[i]};
      }
      assert failed[..|failed|] == failed;
      subscribers := subscribers[server := subs];
      if subs == {} {
        subscribers := subscribers - {server};
      }
    }
  }

  /** broadcast when nothing else runs in between; `delivers` says which sends
      succeed. Every member is tried once and only those that failed leave. */
  method Broadcast(m: Manager, server: int, delivers: Socket -> bool) returns (tried: seq<Socket>)
    modifies m
    ensures Lists(tried, Members(old(m.subscribers), server))
    ensures forall ws :: ws in Members(m.subscribers, server) <==>
                         ws in Members(old(m.subscribers), server) && delivers(ws)
    ensures forall other | other != server :: Members(m.subscribers, other) == Members(old(m.subscribers), other)
  {
    var targets := m.Targets(server);
    tried := targets;
    if targets == [] {
      return;
    }
    var failed: seq<Socket> := [];
    for i := 0 to |targets|
      invariant m.subscribers == old(m.subscribers)
      invariant forall ws :: ws in failed <==> ws in targets[..i] && !delivers(ws)
    {
      if !delivers(targets[i]) {
        failed := failed + [targets[i]];
      }
    }
    assert targets[..|targets|] == targets;
    m.Discard(server, failed);
  }

  // ----- broadcasts interleaved with everything else

  datatype Attempt = Attempt(cast: nat, ws: Socket, ok: bool)

  datatype Cast = Cast(server: int, targets: seq<Socket>, sent: nat, failed: seq<Socket>, done: bool)

  /** `log` is history: every send that was attempted. */
  datatype State = State(subs: Subs, casts: map<nat, Cast>, log: seq<Attempt>)

  datatype Step =
    | Sub(server: int, ws: Socket)
    | Unsub(server: int, ws: Socket)
    | Begin(b: nat, server: int, targets: seq<Socket>)
    | Send(b: nat, ok: bool)
    | Clean(b: nat)

  ghost predicate Enabled(s: State, step: Step) {
    match step
    case Sub(_, _) => true
    case Unsub(_, _) => true
    case Begin(b, server, targets) => b !in s.casts && Lists(targets, Members(s.subs, server))
    case Send(b, _) => b in s.casts && s.casts[b].sent < |s.casts[b].targets|
    case Clean(b) => b in s.casts && s.casts[b].sent == |s.casts[b].targets| && !s.casts[b].done
  }

  ghost function Apply(s: State, step: Step): State
    requires Enabled(s, step)
  {
    match step
    case Sub(server, ws) => s.(subs := Add(s.subs, server, ws))
    case Unsub(server, ws) => s.(subs := Remove(s.subs, server, {ws}))
    case Begin(b, server, targets) => s.(casts := s.casts[b := Cast(server, targets, 0, [], false)])
    case Send(b, ok) =>
      var c := s.casts[b];
      var ws := c.targets[c.sent];
      s.(casts := s.casts[b := c.(sent := c.sent + 1, failed := if ok then c.failed else c.failed + [ws])],
         log := s.log + [Attempt(b, ws, ok)])
    case Clean(b) =>
      var c := s.casts[b];
      s.(casts := s.casts[b := c.(done := true)],
         subs := if c.failed == [] then s.subs else Remove(s.subs, c.server, set ws | ws in c.failed))
  }

  /** The sockets a broadcast has tried so far, in order. */
  function Tried(log: seq<Attempt>, b: nat): seq<Socket> {
    if log == [] then []
    else
      Tried(log[..|log| - 1], b) +
      if log[|log| - 1].cast == b then [log[|log| - 1].ws] else []
  }

  lemma {:induction false} TriedSnoc(log: seq<Attempt>, a: Attempt, b: nat)
    ensures Tried(log + [a], b) == Tried(log, b) + if a.cast == b then [a.ws] else []
  {
    assert (log + [a])[..|log|] == log;
  }

  ghost predicate CastOk(s: State, b: nat) {
    if b !in s.casts then Tried(s.log, b) == [] && forall ws :: Attempt(b, ws, false) !in s.log
    else
      var c := s.casts[b];
      && c.sent <= |c.targets| && Tried(s.log, b) == c.targets[..c.sent]
      && (forall i, j | 0 <= i < j < |c.targets| :: c.targets[i] != c.targets[j])
      && (forall ws :: ws in c.failed <==> Attempt(b, ws, false) in s.log)
  }

  predicate NoEmptySets(subs: Subs) {
    forall server | server in subs :: subs[server] != {}
  }

  ghost predicate Inv(s: State) {
    NoEmptySets(s.subs) && forall b :: CastOk(s, b)
  }

  lemma StepKeepsInv(s: State, step: Step)
    requires Inv(s) && Enabled(s, step)
    ensures Inv(Apply(s, step))
  {
    var s' := Apply(s, step);
    if step.Sub? {
      assert step.ws in s'.subs[step.server];
    }
    forall b ensures CastOk(s', b) {
      assert CastOk(s, b);
      if step.Send? {
        SendKeepsCast(s, step, b);
      }
    }
  }

  lemma {:induction false} SendKeepsCast(s: State, step: Step, b: nat)
    requires CastOk(s, b) && Enabled(s, step) && step.Send?
    ensures CastOk(Apply(s, step), b)
  {
    var c := s.casts[step.b];
    var s', a := Apply(s, step), Attempt(step.b, c.targets[c.sent], step.ok);
    TriedSnoc(s.log, a, b);
    if b == step.b {
      var c' := s'.casts[b];
      assert c.targets[..c.sent + 1] == c.targets[..c.sent] + [a.ws];
      forall ws ensures ws in c'.failed <==> Attempt(b, ws, false) in s'.log {
        assert Attempt(b, ws, false) in s'.log <==> Attempt(b, ws, false) in s.log || Attempt(b, ws, false) == a;
      }
    } else {
      forall ws ensures Attempt(b, ws, false) in s'.log <==> Attempt(b, ws, false) in s.log {
        assert Attempt(b, ws, false) != a;
      }
    }
  }

  ghost predicate IsRun(run: seq<State>, steps: seq<Step>) {
    && |run| == |steps| + 1 && run[0] == State(map[], map[], [])
    && forall i | 0 <= i < |steps| :: Enabled(run[i], steps[i]) && run[i + 1] == Apply(run[i], steps[i])
  }

  lemma {:induction false} RunInv(run: seq<State>, steps: seq<Step>, i: nat)
    requires IsRun(run, steps) && i < |run|
    ensures Inv(run[i])
  {
    if i == 0 {
      forall b ensures CastOk(run[0], b) {
      }
    } else {
      RunInv(run, steps, i - 1);
      StepKeepsInv(run[i - 1], steps[i - 1]);
    }
  }

  /** No server id is ever left with an empty set, and a broadcast that has
      finished sending tried each socket of its snapshot exactly once. */
  lemma EachTargetTriedOnce(run: seq<State>, steps: seq<Step>, i: nat, b: nat)
    requires IsRun(run, steps) && i < |run| && b in run[i].casts
    ensures NoEmptySets(run[i].subs)
    ensures run[i].casts[b].sent == |run[i].casts[b].targets| ==> Tried(run[i].log, b) == run[i].casts[b].targets
    ensures var t := Tried(run[i].log, b); forall j, k | 0 <= j < k < |t| :: t[j] != t[k]
  {
    RunInv(run, steps, i);
    assert CastOk(run[i], b);
  }

  /** A subscriber disappears only by its own unsubscribe or after a send to it
      failed; so one that joins during a broadcast stays. */
  lemma LeavesOnlyForCause(run: seq<State>, steps: seq<Step>, i: nat, server: int, ws: Socket)
    requires IsRun(run, steps) && i < |steps|
    requires ws in Members(run[i].subs, server) && ws !in Members(run[i + 1].subs, server)
    ensures || steps[i] == Unsub(server, ws)
            || (steps[i].Clean? && run[i].casts[steps[i].b].server == server &&
                ws in run[i].casts[steps[i].b].targets && Attempt(steps[i].b, ws, false) in run[i].log)
  {
    RunInv(run, steps, i);
    if steps[i].Clean? {
      var b := steps[i].b;
      assert CastOk(run[i], b);
      if Attempt(b, ws, false) in run[i].log {
        TriedHas(run[i].log, Attempt(b, ws, false));
      }
    }
  }

  lemma {:induction false} TriedHas(log: seq<Attempt>, a: Attempt)
    requires a in log
    ensures a.ws in Tried(log, a.cast)
  {
    var n := |log| - 1;
    if log[n] != a {
      assert log == log[..n] + [log[n]];
      TriedHas(log[..n], a);
    }
  }

  // ----- members

  lemma MembersAfter(subs: Subs, server: int, ws: Socket, gone: set<Socket>, other: int)
    ensures Members(Add(subs, server, ws), other) ==
            if other == server then Members(subs, server) + {ws} else Members(subs, other)
    ensures Members(Remove(subs, server, gone), other) ==
            if other == server then Members(subs, server) - gone else Members(subs, other)
  {
  }

  /** The step takes the socket out for a cause: its own unsubscribe, or the clean-up
      of a broadcast to that server in which a send to it failed. */
  predicate Dismisses(s: State, step: Step, server: int, ws: Socket) {
    || step == Unsub(server, ws)
    || (step.Clean? && step.b in s.casts && s.casts[step.b].server == server && Attempt(step.b, ws, false) in s.log)
  }

  lemma {:induction false} StaysMember(run: seq<State>, steps: seq<Step>, i: nat, j: nat, server: int, ws: Socket)
    requires IsRun(run, steps) && i <= j < |run| && ws in Members(run[i].subs, server)
    requires forall n: nat | i <= n < j :: !Dismisses(run[n], steps[n], server, ws)
    ensures ws in Members(run[j].subs, server)
    decreases j
  {
    if i < j {
      StaysMember(run, steps, i, j - 1, server, ws);
      if ws !in Members(run[j].subs, server) {
        LeavesOnlyForCause(run, steps, j - 1, server, ws);
      }
    }
  }

  /** A socket that has subscribed and was not dismissed since is among the targets
      of a broadcast. */
  lemma SubscriberIsTarget(run: seq<State>, steps: seq<Step>, i: nat, j: nat, server: int, ws: Socket)
    requires IsRun(run, steps) && i < j < |steps| && steps[i] == Sub(server, ws)
    requires steps[j].Begin? && steps[j].server == server
    requires forall n: nat | i < n < j :: !Dismisses(run[n], steps[n], server, ws)
    ensures ws in steps[j].targets
  {
    MembersAfter(run[i].subs, server, ws, {}, server);
    assert run[i + 1] == Apply(run[i], steps[i]);
    StaysMember(run, steps, i + 1, j, server, ws);
    assert Enabled(run[j], steps[j]);
  }

  /** The clean-up of a broadcast does take out every socket it failed to reach. */
  lemma FailedLeave(run: seq<State>, steps: seq<Step>, i: nat, ws: Socket)
    requires IsRun(run, steps) && i < |steps| && steps[i].Clean? && Attempt(steps[i].b, ws, false) in run[i].log
    ensures steps[i].b in run[i].casts && ws !in Members(run[i + 1].subs, run[i].casts[steps[i].b].server)
  {
    RunInv(run, steps, i);
    var b := steps[i].b;
    assert CastOk(run[i], b) && Enabled(run[i], steps[i]) && run[i + 1] == Apply(run[i], steps[i]);
    var c := run[i].casts[b];
    var gone := set x | x in c.failed;
    MembersAfter(run[i].subs, c.server, ws, gone, c.server);
  }

  predicate Began(s: State, b: nat) { b in s.casts }

  predicate Cleaned(s: State, b: nat) { b in s.casts && s.casts[b].done }

  lemma CleanedStep(s: State, step: Step, b: nat)
    requires Enabled(s, step)
    ensures Cleaned(Apply(s, step), b) <==> Cleaned(s, b) || step == Clean(b)
    ensures Began(s, b) ==> Began(Apply(s, step), b)
  {
  }

  /** A broadcast can clean up exactly if it has tried all its targets and has not
      done so before. */
  lemma {:induction false} CleanExactly(run: seq<State>, steps: seq<Step>, i: nat, b: nat)
    requires IsRun(run, steps) && i < |run|
    ensures Cleaned(run[i], b) <==> exists n :: 0 <= n < i && steps[n] == Clean(b)
    ensures Enabled(run[i], Clean(b)) <==>
            && b in run[i].casts && Tried(run[i].log, b) == run[i].casts[b].targets
            && forall n | 0 <= n < i :: steps[n] != Clean(b)
  {
    RunInv(run, steps, i);
    assert CastOk(run[i], b);
    if i > 0 {
      CleanExactly(run, steps, i - 1, b);
      assert Enabled(run[i - 1], steps[i - 1]) && run[i] == Apply(run[i - 1], steps[i - 1]);
      CleanedStep(run[i - 1], steps[i - 1], b);
    }
    if b in run[i].casts && run[i].casts[b].sent < |run[i].casts[b].targets| {
      assert |Tried(run[i].log, b)| < |run[i].casts[b].targets|;
    }
  }
}
