/** The agent's log socket: a receiver and a periodic flusher share a buffer and
    a lock, and a final flush runs when the socket closes.

    A step is the code between two awaits. A commit may succeed, fail, or be
    interrupted by a cancellation that the `except Exception` does not catch. */
module LogBatching {

  type Line = string

  const BATCH_MAX := 50

  datatype Batch = Batch(lines: seq<Line>, persisted: bool)

  /** Where the handler is. `final` tells the flush after the socket closed from
      the ones before. */
  datatype Receiver =
    | Receiving
    | Broadcasting
    | WaitLock(final: bool)
    | Commit(items: seq<Line>, final: bool)
    | Undo(items: seq<Line>, final: bool)
    | Cancelling
    | Closed

  datatype Flusher =
    | Sleeping
    | Waiting
    | Committing(items: seq<Line>)
    | Undoing(items: seq<Line>)
    | Stopped
    | Broken

  /** `received` is every line taken from the socket, `settled` the batches whose
      commit is over, in order; `clean` says that no commit has failed or been
      interrupted so far. */
  datatype State = State(
    receiver: Receiver,
    flusher: Flusher,
    buffer: seq<Line>,
    received: seq<Line>,
    settled: seq<Batch>,
    clean: bool)

  predicate Locked(s: State) {
    s.receiver.Commit? || s.receiver.Undo? || s.flusher.Committing? || s.flusher.Undoing?
  }

  datatype Step =
    | Receive(line: Line)
    | Broadcasted
    | Leave(kept: bool)
    | Lock
    | CommitOk
    | CommitFail
    | Undone(raises: bool)
    | Cancel(kept: bool)
    | Wake
    | FLock
    | FCommitOk
    | FCommitFail
    | FUndone(raises: bool)

  predicate Enabled(s: State, step: Step) {
    match step
    case Receive(_) => s.receiver.Receiving?
    case Broadcasted => s.receiver.Broadcasting?
    case Leave(_) =>
      s.receiver.Receiving? || s.receiver.Broadcasting? || s.receiver == WaitLock(false) ||
      s.receiver.Commit? || s.receiver.Undo?
    case Lock => s.receiver.WaitLock? && !Locked(s)
    case CommitOk => s.receiver.Commit?
    case CommitFail => s.receiver.Commit?
    case Undone(_) => s.receiver.Undo?
    case Cancel(_) => s.receiver.Cancelling?
    case Wake => s.flusher.Sleeping?
    case FLock => s.flusher.Waiting? && !Locked(s)
    case FCommitOk => s.flusher.Committing?
    case FCommitFail => s.flusher.Committing?
    case FUndone(_) => s.flusher.Undoing?
  }

  function Settle(s: State, items: seq<Line>, persisted: bool): State {
    s.(settled := s.settled + [Batch(items, persisted)])
  }

  /** Where a flush of the handler returns to. */
  function After(final: bool): Receiver {
    if final then Closed else Receiving
  }

  function Leaving(r: Receiver): Receiver {
    if (r.Commit? || r.Undo?) && r.final then Closed else Cancelling
  }

  /** An exception or a cancellation ends the loop wherever it stands; in the
      middle of a commit the batch may or may not have reached the database. */
  function Interrupt(s: State, kept: bool): State
    requires Enabled(s, Leave(kept))
  {
    var s' := s.(receiver := Leaving(s.receiver));
    match s.receiver
    case Commit(items, _) => Settle(s', items, kept).(clean := false)
    case Undo(items, _) => Settle(s', items, false)
    case _ => s'
  }

  /** `flush_task.cancel()` and the await of the task. A flusher that died of an
      exception of its own raises it here, and the final flush is skipped. */
  function StopFlusher(s: State, kept: bool): State
    requires s.receiver.Cancelling?
  {
    var s' := s.(flusher := Stopped, receiver := WaitLock(true));
    match s.flusher
    case Committing(items) => Settle(s', items, kept).(clean := false)
    case Undoing(items) => Settle(s', items, false)
    case Broken => s.(receiver := Closed)
    case _ => s'
  }

  function Apply(s: State, step: Step): State
    requires Enabled(s, step)
  {
    match step
    case Receive(line) => s.(receiver := Broadcasting, buffer := s.buffer + [line], received := s.received + [line])
    case Broadcasted => s.(receiver := if |s.buffer| >= BATCH_MAX then WaitLock(false) else Receiving)
    case Leave(kept) => Interrupt(s, kept)
    case Lock =>
      var final := s.receiver.final;
      if s.buffer == [] then s.(receiver := After(final)) else s.(receiver := Commit(s.buffer, final), buffer := [])
    case CommitOk => Settle(s.(receiver := After(s.receiver.final)), s.receiver.items, true)
    case CommitFail => s.(receiver := Undo(s.receiver.items, s.receiver.final), clean := false)
    case Undone(raises) =>
      Settle(s.(receiver := if raises then Leaving(s.receiver) else After(s.receiver.final)), s.receiver.items, false)
    case Cancel(kept) => StopFlusher(s, kept)
    case Wake => s.(flusher := Waiting)
    case FLock =>
      if s.buffer == [] then s.(flusher := Sleeping) else s.(flusher := Committing(s.buffer), buffer := [])
    case FCommitOk => Settle(s.(flusher := Sleeping), s.flusher.items, true)
    case FCommitFail => s.(flusher := Undoing(s.flusher.items), clean := false)
    case FUndone(raises) => Settle(s.(flusher := if raises then Broken else Sleeping), s.flusher.items, false)
  }

  // ----- what every step keeps

  function Flat(batches: seq<Batch>): seq<Line> {
    if batches == [] then [] else Flat(batches[..|batches| - 1]) + batches[|batches| - 1].lines
  }

  lemma FlatAppend(batches: seq<Batch>, b: Batch)
    ensures Flat(batches + [b]) == Flat(batches) + b.lines
  {
    assert (batches + [b])[..|batches|] == batches;
  }

  /** The lines a commit in progress has taken from the buffer. */
  function InFlight(s: State): seq<Line> {
    if s.receiver.Commit? || s.receiver.Undo? then s.receiver.items
    else if s.flusher.Committing? || s.flusher.Undoing? then s.flusher.items
    else []
  }

  predicate Conserved(s: State) {
    s.received == Flat(s.settled) + InFlight(s) + s.buffer
  }

  predicate OneAtATime(s: State) {
    && !((s.receiver.Commit? || s.receiver.Undo?) && (s.flusher.Committing? || s.flusher.Undoing?))
    && (s.receiver.Closed? ==> s.flusher.Stopped? || s.flusher.Broken?)
    && ((s.receiver.WaitLock? || s.receiver.Commit? || s.receiver.Undo?) && s.receiver.final ==> s.flusher.Stopped?)
    && (s.flusher.Stopped? ==>
          s.receiver.Closed? || ((s.receiver.WaitLock? || s.receiver.Commit? || s.receiver.Undo?) && s.receiver.final))
  }

  predicate Bounded(s: State) {
    && |s.buffer| <= BATCH_MAX && |InFlight(s)| <= BATCH_MAX
    && (s.receiver.Receiving? ==> |s.buffer| < BATCH_MAX)
    && (s.receiver.Commit? || s.receiver.Undo? ==> s.buffer == [])
    && (forall b | b in s.settled :: 0 < |b.lines| <= BATCH_MAX)
    && (Locked(s) ==> |InFlight(s)| > 0)
  }

  predicate CleanOk(s: State) {
    s.clean ==>
      && (forall b | b in s.settled :: b.persisted)
      && !s.receiver.Undo? && !s.flusher.Undoing? && !s.flusher.Broken?
  }

  predicate ClosedOk(s: State) {
    s.receiver.Closed? && !s.flusher.Broken? ==> s.buffer == []
  }

  predicate Inv(s: State) {
    Conserved(s) && OneAtATime(s) && Bounded(s) && CleanOk(s) && ClosedOk(s)
  }

  lemma SettleConserves(s: State, s': State, persisted: bool)
    requires Conserved(s) && InFlight(s') == [] && s'.buffer == s.buffer && s'.received == s.received
    requires s'.settled == s.settled + [Batch(InFlight(s), persisted)]
    ensures Conserved(s')
  {
    FlatAppend(s.settled, Batch(InFlight(s), persisted));
  }

  lemma TakeConserves(s: State, s': State)
    requires Conserved(s) && InFlight(s) == [] && s'.received == s.received && s'.settled == s.settled
    requires InFlight(s') + s'.buffer == s.buffer
    ensures Conserved(s')
  {
    var f := Flat(s.settled);
    assert f + [] + s.buffer == f + (InFlight(s') + s'.buffer);
  }

  lemma AppendConserves(s: State, line: Line)
    requires Conserved(s) && Enabled(s, Receive(line))
    ensures Conserved(Apply(s, Receive(line)))
  {
    var f := Flat(s.settled) + InFlight(s);
    assert f + s.buffer + [line] == f + (s.buffer + [line]);
  }

  predicate OfFlusher(step: Step) {
    step.Wake? || step.FLock? || step.FCommitOk? || step.FCommitFail? || step.FUndone? || step.Cancel?
  }

  lemma ReceiverKeepsConserved(s: State, step: Step, s': State)
    requires Conserved(s) && OneAtATime(s) && Enabled(s, step) && !OfFlusher(step) && s' == Apply(s, step)
    ensures Conserved(s')
  {
    if step.Receive? {
      AppendConserves(s, step.line);
    } else if step.Lock? {
      TakeConserves(s, s');
    } else if step.CommitOk? {
      SettleConserves(s, s', true);
    } else if step.Undone? || (step.Leave? && s.receiver.Undo?) {
      SettleConserves(s, s', false);
    } else if step.Leave? && s.receiver.Commit? {
      SettleConserves(s, s', step.kept);
    } else {
      assert InFlight(s') == InFlight(s) && s'.settled == s.settled && s'.buffer == s.buffer;
    }
  }

  lemma FlusherKeepsConserved(s: State, step: Step, s': State)
    requires Conserved(s) && OneAtATime(s) && Enabled(s, step) && OfFlusher(step) && s' == Apply(s, step)
    ensures Conserved(s')
  {
    if step.FLock? {
      TakeConserves(s, s');
    } else if step.FCommitOk? {
      SettleConserves(s, s', true);
    } else if step.FUndone? || (step.Cancel? && s.flusher.Undoing?) {
      SettleConserves(s, s', false);
    } else if step.Cancel? && s.flusher.Committing? {
      SettleConserves(s, s', step.kept);
    } else {
      assert InFlight(s') == InFlight(s) && s'.settled == s.settled && s'.buffer == s.buffer;
    }
  }

  lemma StepKeepsOneAtATime(s: State, step: Step)
    requires OneAtATime(s) && Enabled(s, step)
    ensures OneAtATime(Apply(s, step))
  {
  }

  lemma StepKeepsBounded(s: State, step: Step)
    requires OneAtATime(s) && Bounded(s) && Enabled(s, step)
    ensures Bounded(Apply(s, step))
  {
  }

  lemma StepKeepsClean(s: State, step: Step)
    requires OneAtATime(s) && Bounded(s) && CleanOk(s) && ClosedOk(s) && Enabled(s, step)
    ensures CleanOk(Apply(s, step)) && ClosedOk(Apply(s, step))
  {
  }

  lemma StepKeepsInv(s: State, step: Step)
    requires Inv(s) && Enabled(s, step)
    ensures Inv(Apply(s, step))
  {
    if OfFlusher(step) {
      FlusherKeepsConserved(s, step, Apply(s, step));
    } else {
      ReceiverKeepsConserved(s, step, Apply(s, step));
    }
    StepKeepsOneAtATime(s, step);
    StepKeepsBounded(s, step);
    StepKeepsClean(s, step);
  }

  // ----- every run

  predicate Init(s: State) {
    s == State(Receiving, Sleeping, [], [], [], true)
  }

  predicate IsRun(run: seq<State>, steps: seq<Step>) {
    && |run| == |steps| + 1 && Init(run[0])
    && forall i | 0 <= i < |steps| :: Enabled(run[i], steps[i]) && run[i + 1] == Apply(run[i], steps[i])
  }

  lemma {:induction false} RunInv(run: seq<State>, steps: seq<Step>, i: nat)
    requires IsRun(run, steps) && i < |run|
    ensures Inv(run[i])
  {
    if i > 0 {
      RunInv(run, steps, i - 1);
      StepKeepsInv(run[i - 1], steps[i - 1]);
    }
  }

  /** Nothing is lost, duplicated or reordered: what came in is the settled
      batches, then the batch in flight, then the buffer. */
  lemma LinesConserved(run: seq<State>, steps: seq<Step>, i: nat)
    requires IsRun(run, steps) && i < |run|
    ensures run[i].received == Flat(run[i].settled) + InFlight(run[i]) + run[i].buffer
  {
    RunInv(run, steps, i);
  }

  /** The buffer holds at most 50 lines, a batch has between 1 and 50, and at
      most 100 lines are not settled yet. */
  lemma UnsettledBounded(run: seq<State>, steps: seq<Step>, i: nat)
    requires IsRun(run, steps) && i < |run|
    ensures |run[i].buffer| <= 50
    ensures |run[i].received| - |Flat(run[i].settled)| <= 100
    ensures forall b | b in run[i].settled :: 1 <= |b.lines| <= 50
  {
    RunInv(run, steps, i);
  }

  /** If no commit failed or was interrupted, closing the socket persists every
      line exactly once and in order. */
  lemma CleanClosePersistsAll(run: seq<State>, steps: seq<Step>, i: nat)
    requires IsRun(run, steps) && i < |run| && run[i].receiver.Closed? && run[i].clean
    ensures Flat(run[i].settled) == run[i].received
    ensures forall b | b in run[i].settled :: b.persisted
  {
    RunInv(run, steps, i);
  }

  /** When the socket has closed, every line has been offered to the database
      exactly if the flusher had not died of a rollback that raised, or had but
      left nothing in the buffer. */
  lemma CloseOffersAll(run: seq<State>, steps: seq<Step>, i: nat)
    requires IsRun(run, steps) && i < |run| && run[i].receiver.Closed?
    ensures Flat(run[i].settled) == run[i].received <==> !run[i].flusher.Broken? || run[i].buffer == []
  {
    RunInv(run, steps, i);
    assert |run[i].received| == |Flat(run[i].settled)| + |run[i].buffer|;
  }

  const LOST := Batch(["a"], false)

  /** A run in which the flusher's commit fails and its rollback raises. */
  function BrokenRun(i: nat): State {
    if i == 0 then State(Receiving, Sleeping, [], [], [], true)
    else if i == 1 then State(Broadcasting, Sleeping, ["a"], ["a"], [], true)
    else if i == 2 then State(Receiving, Sleeping, ["a"], ["a"], [], true)
    else if i == 3 then State(Receiving, Waiting, ["a"], ["a"], [], true)
    else if i == 4 then State(Receiving, Committing(["a"]), [], ["a"], [], true)
    else if i == 5 then State(Receiving, Undoing(["a"]), [], ["a"], [], false)
    else if i == 6 then State(Receiving, Broken, [], ["a"], [LOST], false)
    else if i == 7 then State(Broadcasting, Broken, ["b"], ["a", "b"], [LOST], false)
    else if i == 8 then State(Cancelling, Broken, ["b"], ["a", "b"], [LOST], false)
    else State(Closed, Broken, ["b"], ["a", "b"], [LOST], false)
  }

  const BROKEN_STEPS: seq<Step> :=
    [Receive("a"), Broadcasted, Wake, FLock, FCommitFail, FUndone(true), Receive("b"), Leave(false), Cancel(false)]

  lemma BrokenStep(i: nat)
    requires i < 9
    ensures Enabled(BrokenRun(i), BROKEN_STEPS[i])
    ensures BrokenRun(i + 1) == Apply(BrokenRun(i), BROKEN_STEPS[i])
  {
    assert [] + [LOST] == [LOST];
  }

  /** The exception is real: after a failed commit whose rollback raises in the
      flusher, a line received later is neither committed nor dropped, because
      waiting for the dead flusher skips the final flush. */
  lemma SkippedFinalFlush() returns (run: seq<State>)
    ensures IsRun(run, BROKEN_STEPS) && run[9].receiver.Closed?
    ensures run[9].received == ["a", "b"] && Flat(run[9].settled) == ["a"]
  {
    run := seq(10, i requires 0 <= i => BrokenRun(i));
    forall i | 0 <= i < 9
      ensures Enabled(run[i], BROKEN_STEPS[i]) && run[i + 1] == Apply(run[i], BROKEN_STEPS[i])
    {
      BrokenStep(i);
    }
    FlatAppend([], LOST);
    assert [] + [LOST] == [LOST];
  }

  // ----- when batches are taken and how they end

  /** The receiver turns to flushing exactly when the buffer has reached 50 lines. */
  lemma FlushWhenFull(run: seq<State>, steps: seq<Step>, i: nat)
    requires IsRun(run, steps) && i < |steps| && steps[i] == Broadcasted
    ensures run[i + 1].receiver == (if |run[i].buffer| == 50 then WaitLock(false) else Receiving)
  {
    RunInv(run, steps, i);
  }

  /** The commit in progress, if any, succeeded in this step. */
  predicate Commits(s: State, step: Step) {
    || step == CommitOk || step == FCommitOk
    || (step == Leave(true) && s.receiver.Commit?) || (step == Cancel(true) && s.flusher.Committing?)
  }

  /** A batch is settled as a whole, by the step that ends its commit, and counts as
      persisted exactly if that commit succeeded. */
  lemma BatchEnds(run: seq<State>, steps: seq<Step>, i: nat)
    requires IsRun(run, steps) && i < |steps|
    ensures var s, s' := run[i], run[i + 1];
            && (s'.settled == s.settled || s'.settled == s.settled + [Batch(InFlight(s), Commits(s, steps[i]))])
            && (Commits(s, steps[i]) ==> s'.settled != s.settled)
  {
    RunInv(run, steps, i);
    StepSettles(run[i], steps[i]);
  }

  lemma StepSettles(s: State, step: Step)
    requires OneAtATime(s) && Enabled(s, step)
    ensures var s' := Apply(s, step);
            && (s'.settled == s.settled || s'.settled == s.settled + [Batch(InFlight(s), Commits(s, step))])
            && (Commits(s, step) ==> s'.settled != s.settled)
  {
  }

  /** Whoever gets the lock takes the whole buffer as its batch. */
  lemma BatchBegins(run: seq<State>, steps: seq<Step>, i: nat)
    requires IsRun(run, steps) && i < |steps| && InFlight(run[i]) == [] && InFlight(run[i + 1]) != []
    ensures InFlight(run[i + 1]) == run[i].buffer && run[i + 1].buffer == []
  {
    RunInv(run, steps, i);
    assert Enabled(run[i], steps[i]) && run[i + 1] == Apply(run[i], steps[i]);
  }
}
