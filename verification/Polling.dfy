/** The bot's long-polling loop: updates are fetched with an offset that
    acknowledges the ones seen before. */
module Polling {
  import opened Options

  /** An update; only some carry a message. */
  datatype Update = Update(id: int, message: Option<string>)

  /** A request that failed or was refused, or the updates it returned. */
  datatype Response = Failed | Batch(updates: seq<Update>)

  /** Telegram numbers updates in ascending order. */
  predicate Ascending(stream: seq<Update>) {
    forall i: nat, j: nat | i < j < |stream| :: Id(stream, i) < Id(stream, j)
  }

  function Id(stream: seq<Update>, i: nat): int
    requires i < |stream|
  {
    stream[i].id
  }

  /** How many of the first n updates an offset acknowledges. */
  function Acknowledged(stream: seq<Update>, offset: int, n: nat): (k: nat)
    requires n <= |stream|
    ensures k <= n
  {
    if n == 0 then 0
    else Acknowledged(stream, offset, n - 1) + if stream[n - 1].id < offset then 1 else 0
  }

  function Position(stream: seq<Update>, offset: Option<int>): (k: nat)
    ensures k <= |stream|
  {
    if offset.None? then 0 else Acknowledged(stream, offset.value, |stream|)
  }

  function Messages(updates: seq<Update>): seq<string> {
    if updates == [] then []
    else
      var n := |updates| - 1;
      Messages(updates[..n]) + if updates[n].message.Some? then [updates[n].message.value] else []
  }

  function NextOffset(offset: Option<int>, r: Response): Option<int> {
    if r.Failed? || r.updates == [] then offset else Some(r.updates[|r.updates| - 1].id + 1)
  }

  function Dispatched(r: Response): seq<string> {
    if r.Failed? then [] else Messages(r.updates)
  }

  class Poller {
    var offset: Option<int>
    /** The messages handed to the dispatcher; one whose handler raises counts,
        for the exception is logged and the loop goes on. */
    var handled: seq<string>

    constructor ()
      ensures offset == None && handled == []
    {
      offset, handled := None, [];
    }

    /** One round of the loop. */
    method Round(r: Response)
      modifies this
      ensures offset == NextOffset(old(offset), r)
      ensures handled == old(handled) + Dispatched(r)
    {
      if r.Failed? {
        return;
      }
      for i := 0 to |r.updates|
        invariant offset == NextOffset(old(offset), Batch(r.updates[..i]))
        invariant handled == old(handled) + Messages(r.updates[..i])
      {
        var u := r.updates[i];
        assert r.updates[..i + 1][..i] == r.updates[..i];
        offset := Some(u.id + 1);
        if u.message.Some? {
          handled := handled + [u.message.value];
        }
      }
      assert r.updates[..|r.updates|] == r.updates;
    }
  }

  /** What the Bot API answers: some of the unacknowledged updates that have
      arrived so far, oldest first. `stream` is all that ever arrives. */
  predicate Serves(stream: seq<Update>, offset: Option<int>, r: Response) {
    r.Batch? ==> r.updates <= stream[Position(stream, offset)..]
  }

  lemma {:induction false} AcknowledgedPast(stream: seq<Update>, k: nat, n: nat)
    requires Ascending(stream) && k < |stream| && n <= |stream|
    ensures Acknowledged(stream, stream[k].id + 1, n) == if n <= k then n else k + 1
  {
    if n > 0 {
      AcknowledgedPast(stream, k, n - 1);
      assert n - 1 < k ==> Id(stream, n - 1) < Id(stream, k);
      assert k < n - 1 ==> Id(stream, k) < Id(stream, n - 1);
    }
  }

  /** An offset just past an update acknowledges it and all before it. */
  lemma PositionPast(stream: seq<Update>, k: nat)
    requires Ascending(stream) && k < |stream|
    ensures Position(stream, Some(stream[k].id + 1)) == k + 1
  {
    AcknowledgedPast(stream, k, |stream|);
  }

  lemma {:induction false} MessagesConcat(a: seq<Update>, b: seq<Update>)
    ensures Messages(a + b) == Messages(a) + Messages(b)
  {
    if b == [] {
      assert a + b == a;
    } else {
      var n := |b| - 1;
      MessagesConcat(a, b[..n]);
      assert (a + b)[..|a| + n] == a + b[..n];
    }
  }

  datatype State = State(offset: Option<int>, handled: seq<string>)

  ghost predicate IsRun(stream: seq<Update>, run: seq<State>, rs: seq<Response>) {
    && |run| == |rs| + 1 && run[0] == State(None, [])
    && forall i | 0 <= i < |rs| ::
         && Serves(stream, run[i].offset, rs[i])
         && run[i + 1] == State(NextOffset(run[i].offset, rs[i]), run[i].handled + Dispatched(rs[i]))
  }

  /** A batch moves the position on by its own length. */
  lemma {:induction false} RoundAdvances(stream: seq<Update>, offset: Option<int>, r: Response)
    requires Ascending(stream) && Serves(stream, offset, r)
    ensures var p, p' := Position(stream, offset), Position(stream, NextOffset(offset, r));
            p <= p' <= |stream| && stream[p..p'] == (if r.Failed? then [] else r.updates)
  {
    if r.Batch? && r.updates != [] {
      var p, n := Position(stream, offset), |r.updates|;
      SliceOf(stream, p, r.updates);
      PositionPast(stream, p + n - 1);
    }
  }

  lemma SliceOf<T>(s: seq<T>, p: nat, part: seq<T>)
    requires p <= |s| && part <= s[p..] && part != []
    ensures p + |part| <= |s| && s[p..p + |part|] == part && s[p + |part| - 1] == part[|part| - 1]
  {
  }

  /** What one round adds. */
  lemma {:induction false} RoundDispatches(stream: seq<Update>, offset: Option<int>, r: Response)
    requires Ascending(stream) && Serves(stream, offset, r)
    ensures Messages(stream[..Position(stream, NextOffset(offset, r))]) ==
            Messages(stream[..Position(stream, offset)]) + Dispatched(r)
  {
    RoundAdvances(stream, offset, r);
    var p, p' := Position(stream, offset), Position(stream, NextOffset(offset, r));
    assert stream[..p'] == stream[..p] + stream[p..p'];
    MessagesConcat(stream[..p], stream[p..p']);
  }

  /** In every run, however the requests fail, the messages dispatched are those
      of the acknowledged updates: each exactly once and in order. */
  lemma {:induction false} EachMessageOnce(stream: seq<Update>, run: seq<State>, rs: seq<Response>, i: nat)
    requires Ascending(stream) && IsRun(stream, run, rs) && i < |run|
    ensures run[i].handled == Messages(stream[..Position(stream, run[i].offset)])
  {
    if i > 0 {
      EachMessageOnce(stream, run, rs, i - 1);
      RoundDispatches(stream, run[i - 1].offset, rs[i - 1]);
    }
  }

  // ----- restarts of the bot

  /** A restart forgets the offset; Telegram then serves from what earlier
      requests have confirmed. `seen` is history: the places in the stream of the
      updates dispatched so far. */
  datatype Life = Life(offset: Option<int>, confirmed: nat, seen: seq<nat>)

  /** A request that fails may still have reached Telegram. */
  datatype Step = Poll(r: Response, reached: bool) | Restart

  function Cursor(stream: seq<Update>, l: Life): nat {
    if l.offset.None? then l.confirmed else Position(stream, l.offset)
  }

  function Range(from: nat, to: nat): seq<nat> {
    if to <= from then [] else Range(from, to - 1) + [to - 1]
  }

  predicate Offered(stream: seq<Update>, l: Life, step: Step) {
    step.Poll? && step.r.Batch? ==>
      step.reached && Cursor(stream, l) <= |stream| && step.r.updates <= stream[Cursor(stream, l)..]
  }

  function Lives(stream: seq<Update>, l: Life, step: Step): Life {
    match step
    case Restart => l.(offset := None)
    case Poll(r, reached) =>
      var c := Cursor(stream, l);
      Life(NextOffset(l.offset, r),
           if reached then c else l.confirmed,
           l.seen + if r.Failed? then [] else Range(c, c + |r.updates|))
  }

  ghost predicate IsLife(stream: seq<Update>, lives: seq<Life>, steps: seq<Step>) {
    && |lives| == |steps| + 1 && lives[0] == Life(None, 0, [])
    && forall i | 0 <= i < |steps| ::
         Offered(stream, lives[i], steps[i]) && lives[i + 1] == Lives(stream, lives[i], steps[i])
  }

  lemma {:induction false} RangeHas(from: nat, to: nat)
    ensures forall k :: k in Range(from, to) <==> from <= k < to
  {
    if from < to {
      RangeHas(from, to - 1);
    }
  }

  lemma {:induction false} RangeJoins(a: nat, b: nat, c: nat)
    requires a <= b <= c
    ensures Range(a, b) + Range(b, c) == Range(a, c)
  {
    if b < c {
      RangeJoins(a, b, c - 1);
      assert Range(a, b) + (Range(b, c - 1) + [c - 1]) == Range(a, b) + Range(b, c - 1) + [c - 1];
    } else {
      assert Range(a, b) + [] == Range(a, b);
    }
  }

  /** How a poll moves the cursor. */
  lemma PollMoves(stream: seq<Update>, l: Life, step: Step)
    requires Ascending(stream) && Offered(stream, l, step) && step.Poll?
    ensures Cursor(stream, Lives(stream, l, step)) ==
            Cursor(stream, l) + if step.r.Failed? then 0 else |step.r.updates|
  {
    if step.r.Batch? && step.r.updates != [] {
      var c, n := Cursor(stream, l), |step.r.updates|;
      SliceOf(stream, c, step.r.updates);
      PositionPast(stream, c + n - 1);
    }
  }

  /** Dispatched are exactly the first `high` updates, and nothing behind the
      cursor or the confirmed updates is missing. */
  ghost predicate Prefix(stream: seq<Update>, l: Life, high: nat) {
    && (forall k :: k in l.seen <==> 0 <= k < high)
    && l.confirmed <= Cursor(stream, l) <= high
  }

  lemma SeenGrows(seen: seq<nat>, high: nat, from: nat, to: nat)
    requires (forall k :: k in seen <==> 0 <= k < high) && from <= high
    ensures forall k :: k in seen + Range(from, to) <==> 0 <= k < if to > high then to else high
  {
    RangeHas(from, to);
  }

  lemma StepKeepsPrefix(stream: seq<Update>, l: Life, step: Step, high: nat) returns (high': nat)
    requires Ascending(stream) && Offered(stream, l, step) && Prefix(stream, l, high)
    ensures Prefix(stream, Lives(stream, l, step), high')
  {
    high' := high;
    if step.Poll? {
      PollMoves(stream, l, step);
      if step.r.Batch? {
        var c, n := Cursor(stream, l), |step.r.updates|;
        high' := if c + n > high then c + n else high;
        SeenGrows(l.seen, high, c, c + n);
      } else {
        assert l.seen + [] == l.seen;
      }
    }
  }

  /** However often requests fail and the bot restarts, no update is skipped:
      those dispatched are always the first so many of the stream. */
  lemma {:induction false} NothingSkipped(stream: seq<Update>, lives: seq<Life>, steps: seq<Step>, i: nat)
    returns (high: nat)
    requires Ascending(stream) && IsLife(stream, lives, steps) && i < |lives|
    ensures Prefix(stream, lives[i], high)
  {
    if i == 0 {
      high := 0;
    } else {
      high := NothingSkipped(stream, lives, steps, i - 1);
      high := StepKeepsPrefix(stream, lives[i - 1], steps[i - 1], high);
    }
  }

  /** And only a restart repeats any: between restarts the updates dispatched are
      consecutive, each once and in order. */
  lemma {:induction false} RepeatsNeedRestart(
    stream: seq<Update>, lives: seq<Life>, steps: seq<Step>, i: nat, j: nat)
    requires Ascending(stream) && IsLife(stream, lives, steps) && i <= j < |lives|
    requires forall n | i <= n < j :: steps[n].Poll?
    ensures var a, b := Cursor(stream, lives[i]), Cursor(stream, lives[j]);
            a <= b && lives[j].seen == lives[i].seen + Range(a, b)
    decreases j
  {
    if i < j {
      RepeatsNeedRestart(stream, lives, steps, i, j - 1);
      var a, c := Cursor(stream, lives[i]), Cursor(stream, lives[j - 1]);
      PollSees(stream, lives[j - 1], steps[j - 1]);
      RangeAppends(lives[i].seen, a, c, Cursor(stream, lives[j]));
    }
  }

  lemma PollSees(stream: seq<Update>, l: Life, step: Step)
    requires Ascending(stream) && Offered(stream, l, step) && step.Poll?
    ensures var c, c' := Cursor(stream, l), Cursor(stream, Lives(stream, l, step));
            c <= c' && Lives(stream, l, step).seen == l.seen + Range(c, c')
  {
    PollMoves(stream, l, step);
  }

  lemma RangeAppends(seen: seq<nat>, a: nat, b: nat, c: nat)
    requires a <= b <= c
    ensures seen + Range(a, b) + Range(b, c) == seen + Range(a, c)
  {
    RangeJoins(a, b, c);
    assert seen + (Range(a, b) + Range(b, c)) == seen + Range(a, b) + Range(b, c);
  }

  // ----- which messages are dispatched

  /** The places of the updates that carry a message, ascending. */
  ghost predicate Carriers(updates: seq<Update>, places: seq<nat>) {
    && (forall a, b | 0 <= a < b < |places| :: places[a] < places[b])
    && (forall i :: i in places <==> 0 <= i < |updates| && updates[i].message != None)
  }

  function Places(updates: seq<Update>): seq<nat> {
    if updates == [] then []
    else
      var n := |updates| - 1;
      Places(updates[..n]) + if updates[n].message == None then [] else [n]
  }

  lemma {:induction false} PlacesCarry(updates: seq<Update>)
    ensures Carriers(updates, Places(updates))
  {
    if updates != [] {
      var n := |updates| - 1;
      PlacesCarry(updates[..n]);
      if updates[n].message != None {
        CarriersSnoc(updates[..n], Places(updates[..n]), updates[n]);
      }
      assert updates == updates[..n] + [updates[n]];
    }
  }

  lemma CarriersSnoc(updates: seq<Update>, places: seq<nat>, u: Update)
    requires Carriers(updates, places) && u.message != None
    ensures Carriers(updates + [u], places + [|updates|])
  {
    forall a, b | 0 <= a < b < |places| + 1
      ensures (places + [|updates|])[a] < (places + [|updates|])[b]
    {
      assert places[a] in places;
    }
  }

  lemma {:induction false} MessageAt(updates: seq<Update>, k: nat)
    requires k < |Places(updates)|
    ensures |Messages(updates)| == |Places(updates)| && Places(updates)[k] < |updates|
    ensures updates[Places(updates)[k]].message == Some(Messages(updates)[k])
  {
    var n := |updates| - 1;
    if k < |Places(updates[..n])| {
      MessageAt(updates[..n], k);
    } else {
      SameLength(updates[..n]);
    }
  }

  lemma {:induction false} SameLength(updates: seq<Update>)
    ensures |Messages(updates)| == |Places(updates)|
  {
    if updates != [] {
      SameLength(updates[..|updates| - 1]);
    }
  }

  /** Every message is dispatched, as it is and in order, and nothing else. */
  lemma MessagesAreAll(updates: seq<Update>) returns (places: seq<nat>)
    ensures Carriers(updates, places) && |Messages(updates)| == |places|
    ensures forall k | 0 <= k < |places| ::
              places[k] < |updates| && updates[places[k]].message == Some(Messages(updates)[k])
  {
    places := Places(updates);
    PlacesCarry(updates);
    SameLength(updates);
    forall k | 0 <= k < |places|
      ensures places[k] < |updates| && updates[places[k]].message == Some(Messages(updates)[k])
    {
      MessageAt(updates, k);
    }
  }
}
