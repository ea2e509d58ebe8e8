/** Liveness of the truncate-boundary writer: when a call can go on, and when it only waits. */
module CdcTruncateLiveness {
  import opened Wrappers
  import opened CdcTruncate
  import opened CdcTruncateProofs

  // ---------------------------------------------------------------------------
  // No livelock
  // ---------------------------------------------------------------------------

  function MainRank(pc: MainPc): nat {
    match pc
    case Returned(_) => 0
    case Draining(_) => 1
    case CancelInput(_) => 2
    case EmptyWrite(ThenReturn) => 3
    case Receive => 4
    case Truncating => 5
    case EmptyWrite(ThenTruncate) => 6
    case AwaitBoundary(_) => 6
    case Segment => 7
  }

  function ForwarderRank(pc: ForwarderPc): nat {
    match pc
    case Idle => 0
    case Exited => 0
    case Closing => 1
    case Announcing(_) => 2
    case Receiving => 3
    case Sending(_) => 5
  }

  /** An upper bound on the number of steps that can still happen. */
  ghost function Rank(c: Call, s: State): nat
    requires Bounds(c, s)
  {
    20 * (|c.input| - s.ledger.taken) + MainRank(s.main.pc) + ForwarderRank(s.link.pc)
    + |s.writer.buffered| + (|c.input| - s.producer.sent)
    + (if s.producer.closed then 0 else 1) + (if s.producer.cancelled then 0 else 1)
  }

  ghost predicate Falls(c: Call, s: State, t: State)
    requires Bounds(c, s)
  {
    Bounds(c, t) && Rank(c, t) < Rank(c, s)
  }

  lemma {:induction false} MainReceiveFalls(c: Call, s: State)
    requires Bounds(c, s) && Enabled(c, s, MainReceive)
    ensures Falls(c, s, DoMainReceive(c, s))
  {
  }

  lemma {:induction false} ForwarderReceiveFalls(c: Call, s: State)
    requires Bounds(c, s) && Enabled(c, s, ForwarderReceive)
    ensures Falls(c, s, DoForwarderReceive(c, s))
  {
  }

  lemma {:induction false} MainDrainFalls(c: Call, s: State)
    requires Bounds(c, s) && Enabled(c, s, MainDrain)
    ensures Falls(c, s, DoMainDrain(s))
  {
  }

  /** The main loop goes on, and nothing else that counts has moved. */
  lemma {:induction false} MainMoves(c: Call, s: State, t: State)
    requires Bounds(c, s) && t.producer == s.producer && t.ledger == s.ledger && t.link.pc == s.link.pc
    requires t.writer.buffered <= s.writer.buffered && t.writer.lo <= t.writer.hi <= t.ledger.taken
    requires MainRank(t.main.pc) < MainRank(s.main.pc)
    ensures Falls(c, s, t)
  {
    SmallerSet(t.writer.buffered, s.writer.buffered);
  }

  lemma {:induction false} SmallerSet(a: set<nat>, b: set<nat>)
    requires a <= b
    ensures |a| <= |b|
  {
    if a != {} {
      var x :| x in a;
      SmallerSet(a - {x}, b - {x});
    }
  }

  lemma {:induction false} EmptyWriteFalls(c: Call, s: State, ok: bool)
    requires Bounds(c, s) && s.main.pc.EmptyWrite?
    ensures Falls(c, s, DoMainEmptyWrite(s, ok))
  {
    MainMoves(c, s, DoMainEmptyWrite(s, ok));
  }

  lemma {:induction false} BoundaryFalls(c: Call, s: State)
    requires Bounds(c, s) && Enabled(c, s, MainBoundary)
    ensures Falls(c, s, DoMainBoundary(s))
  {
    MainMoves(c, s, DoMainBoundary(s));
  }

  lemma {:induction false} TruncateFalls(c: Call, s: State, ok: bool, emptied: bool)
    requires Bounds(c, s) && s.main.pc.Truncating?
    ensures Falls(c, s, DoMainTruncate(s, ok, emptied))
  {
    MainMoves(c, s, DoMainTruncate(s, ok, emptied));
  }

  lemma {:induction false} MainFalls(c: Call, s: State, step: Step)
    requires Bounds(c, s) && Enabled(c, s, step) && IsMainStep(step)
    ensures Falls(c, s, Do(c, s, step))
  {
    if step.MainReceive? {
      MainReceiveFalls(c, s);
    } else if step.MainDrain? {
      MainDrainFalls(c, s);
    } else if step.MainEmptyWrite? {
      EmptyWriteFalls(c, s, step.ok);
    } else if step.MainBoundary? {
      BoundaryFalls(c, s);
    } else if step.MainTruncate? {
      TruncateFalls(c, s, step.ok, step.emptied);
    }
  }

  lemma {:induction false} WriterTakeFalls(c: Call, s: State)
    requires Bounds(c, s) && Enabled(c, s, WriterTake) && s.writer.lo <= s.link.pc.index < s.ledger.taken
    ensures Falls(c, s, DoWriterTake(s))
  {
  }

  lemma {:induction false} WriterFalls(c: Call, s: State, step: Step)
    requires Bounds(c, s) && Enabled(c, s, step) && IsWriterStep(step)
    requires s.link.pc.Sending? ==> s.writer.lo <= s.link.pc.index < s.ledger.taken
    ensures Falls(c, s, Do(c, s, step))
  {
    if step.WriterTake? { WriterTakeFalls(c, s); }
  }

  lemma {:induction false} OthersFall(c: Call, s: State, step: Step)
    requires Bounds(c, s) && Enabled(c, s, step) && !IsMainStep(step) && !IsWriterStep(step)
    ensures Falls(c, s, Do(c, s, step))
  {
    if step.ForwarderReceive? { ForwarderReceiveFalls(c, s); }
  }

  /** Every step, of any party, uses up rank. */
  lemma {:induction false} RankFalls(c: Call, s: State, step: Step)
    requires Inv(c, s) && Enabled(c, s, step)
    ensures Falls(c, s, Do(c, s, step))
  {
    if IsMainStep(step) { MainFalls(c, s, step); }
    else if IsWriterStep(step) { WriterFalls(c, s, step); }
    else { OthersFall(c, s, step); }
  }

  /** No livelock: a run can be no longer than a fixed multiple of its input. */
  lemma {:induction false} RunIsBounded(c: Call, run: seq<State>)
    requires IsRun(c, run)
    ensures |run| <= 21 * |c.input| + 7
  {
    RunRank(c, run, |run| - 1);
  }

  lemma {:induction false} NextFalls(c: Call, s: State, t: State)
    requires Inv(c, s) && Next(c, s, t)
    ensures Falls(c, s, t)
  {
    var step :| Enabled(c, s, step) && t == Do(c, s, step);
    RankFalls(c, s, step);
  }

  lemma {:induction false} RunStepFalls(c: Call, run: seq<State>, i: nat)
    requires IsRun(c, run) && 0 < i < |run|
    ensures Bounds(c, run[i - 1]) && Falls(c, run[i - 1], run[i])
  {
    RunInv(c, run, i - 1);
    assert Next(c, run[i - 1], run[i - 1 + 1]);
    NextFalls(c, run[i - 1], run[i]);
  }

  lemma {:induction false} RunRank(c: Call, run: seq<State>, i: nat)
    requires IsRun(c, run) && i < |run|
    ensures Bounds(c, run[i]) && Rank(c, run[i]) + i <= Rank(c, Start(c))
  {
    if i > 0 {
      RunRank(c, run, i - 1);
      RunStepFalls(c, run, i);
    }
  }

  // ---------------------------------------------------------------------------
  // No deadlock
  // ---------------------------------------------------------------------------

  /** A step that no failure causes, and that neither the producer nor the caller takes. */
  predicate IsVoluntary(step: Step) {
    && !step.ProducerSend? && !step.ProducerClose? && !step.ContextCancel? && !step.WriterFail?
    && (step.MainEmptyWrite? ==> step.ok) && (step.MainTruncate? ==> step.ok)
  }

  /** Without a failure, nothing happens until the producer or the caller does something. */
  ghost predicate Quiet(c: Call, s: State) {
    forall step :: IsVoluntary(step) ==> !Enabled(c, s, step)
  }

  /** The producer offers no item and has not closed. */
  predicate ProducerIdle(s: State) { !s.producer.closed && s.ledger.taken == s.producer.sent }

  /** The forwarder waits for the producer only while nothing is cancelled; the main loop always. */
  predicate WaitsForProducer(s: State) {
    ProducerIdle(s)
    && (s.main.pc.Receive? || (s.main.pc.Segment? && s.link.pc.Receiving? && !Cancelled(s)))
  }

  /** The step taken when nobody fails, nobody cancels and the producer does nothing. */
  ghost function Cooperate(c: Call, s: State): (step: Step)
    ensures IsVoluntary(step)
  {
    match s.main.pc
    case Receive => MainReceive
    case EmptyWrite(_) => MainEmptyWrite(true)
    case Truncating => MainTruncate(true, true)
    case CancelInput(_) => MainCancelInput
    case Draining(_) => if Available(c, s) || InputEnded(s) then MainDrain else MainDrainTimeout
    case Segment =>
      if s.link.pc.Sending? then WriterTake
      else if s.link.pc.Receiving? then if Cancelled(s) then ForwarderCancelled else ForwarderReceive
      else if s.link.pc.Announcing? then ForwarderAnnounce
      else if s.link.pc.Closing? then ForwarderClose
      else if s.writer.buffered == {} then WriterReturn
      else (var index :| index in s.writer.buffered; WriterFlush(index))
    case AwaitBoundary(_) =>
      if s.link.pc.Sending? || s.link.pc.Receiving? then ForwarderCancelled
      else if s.link.pc.Announcing? then ForwarderAnnounce
      else MainBoundary
    case Returned(_) => MainReceive
  }

  /** Unless the call waits for its producer, a step that no failure causes is enabled. */
  lemma {:induction false} NoDeadlock(c: Call, s: State)
    requires Inv(c, s) && !s.main.pc.Returned? && !WaitsForProducer(s)
    ensures Enabled(c, s, Cooperate(c, s))
  {
  }

  /** A call that has not returned stands still exactly while it waits for its producer. */
  lemma {:induction false} QuietExactly(c: Call, s: State)
    requires Inv(c, s) && !s.main.pc.Returned?
    ensures Quiet(c, s) <==> WaitsForProducer(s) && (s.main.pc.Segment? ==> s.writer.buffered == {})
  {
    if !WaitsForProducer(s) {
      NoDeadlock(c, s);
      assert !Quiet(c, s);
    } else if s.main.pc.Segment? && s.writer.buffered != {} {
      var index :| index in s.writer.buffered;
      assert Enabled(c, s, WriterFlush(index));
    } else {
      WaitingIsQuiet(c, s);
    }
  }

  lemma {:induction false} WaitingIsQuiet(c: Call, s: State)
    requires Inv(c, s) && WaitsForProducer(s) && (s.main.pc.Segment? ==> s.writer.buffered == {})
    ensures Quiet(c, s)
  {
  }

  /**
   When the caller has cancelled, the call can hang in one place only: the main loop's receive,
   which does not look at the context.
   */
  lemma {:induction false} CancelledHangsExactly(c: Call, run: seq<State>, i: nat)
    requires IsRun(c, run) && i < |run| && run[i].producer.cancelled && !run[i].main.pc.Returned?
    ensures Quiet(c, run[i]) <==> run[i].main.pc.Receive? && ProducerIdle(run[i])
  {
    RunInv(c, run, i);
    QuietExactly(c, run[i]);
  }

  /** It does hang there: before its first item, say. */
  lemma {:induction false} CancelledCanHang(c: Call) returns (run: seq<State>)
    ensures IsRun(c, run)
    ensures run[|run| - 1].producer.cancelled && Quiet(c, run[|run| - 1])
    ensures !run[|run| - 1].main.pc.Returned?
  {
    var s := Do(c, Start(c), ContextCancel);
    run := [Start(c), s];
    assert Next(c, Start(c), s);
    CancelledHangsExactly(c, run, 1);
  }

  // ---------------------------------------------------------------------------
  // The way to the return
  // ---------------------------------------------------------------------------

  /** What the forwarder has announced, or is about to. */
  function Announced(s: State): Option<Boundary> {
    if s.link.pc.Announcing? then Some(s.link.pc.boundary) else s.link.boundary
  }

  /**
   On its way out: the input has ended, or a write failed, or an error was met, or the context
   was cancelled before the forwarder met a truncate.
   */
  predicate Leaving(s: State) {
    || s.producer.closed
    || s.main.pc.CancelInput? || s.main.pc.Draining? || s.main.pc == EmptyWrite(ThenReturn)
    || s.main.pc == AwaitBoundary(true)
    || (s.main.pc == AwaitBoundary(false) && Announced(s) != Some(AtTruncate))
    || (s.main.pc.Segment? && Cancelled(s) && Announced(s) != Some(AtTruncate))
  }

  ghost predicate GoesOn(s: State, t: State) {
    t.producer == s.producer && (t.main.pc.Returned? || Leaving(t))
  }

  lemma {:induction false} MainGoesOn(c: Call, s: State)
    requires Inv(c, s) && !s.main.pc.Returned? && Leaving(s) && Enabled(c, s, Cooperate(c, s))
    requires !s.main.pc.Segment? && !s.main.pc.AwaitBoundary?
    ensures GoesOn(s, Do(c, s, Cooperate(c, s)))
  {
  }

  lemma {:induction false} SegmentGoesOn(c: Call, s: State)
    requires Inv(c, s) && s.main.pc.Segment? && Leaving(s) && Enabled(c, s, Cooperate(c, s))
    ensures GoesOn(s, Do(c, s, Cooperate(c, s)))
  {
  }

  lemma {:induction false} BoundaryGoesOn(c: Call, s: State)
    requires Inv(c, s) && s.main.pc.AwaitBoundary? && Leaving(s) && Enabled(c, s, Cooperate(c, s))
    ensures GoesOn(s, Do(c, s, Cooperate(c, s)))
  {
  }

  lemma {:induction false} LeavingGoesOn(c: Call, s: State)
    requires Inv(c, s) && !s.main.pc.Returned? && Leaving(s)
    ensures Enabled(c, s, Cooperate(c, s)) && GoesOn(s, Do(c, s, Cooperate(c, s)))
  {
    NoDeadlock(c, s);
    if s.main.pc.Segment? {
      SegmentGoesOn(c, s);
    } else if s.main.pc.AwaitBoundary? {
      BoundaryGoesOn(c, s);
    } else {
      MainGoesOn(c, s);
    }
  }

  /** Along the run nothing is done by the producer or the caller. */
  ghost predicate ProducerStill(run: seq<State>, p: Producer) {
    forall i :: 0 <= i < |run| ==> run[i].producer == p
  }

  lemma {:induction false} OneMoreStep(c: Call, run: seq<State>, step: Step) returns (longer: seq<State>)
    requires IsRun(c, run) && Enabled(c, run[|run| - 1], step)
    ensures longer == run + [Do(c, run[|run| - 1], step)] && IsRun(c, longer)
  {
    var t := Do(c, run[|run| - 1], step);
    longer := run + [t];
    assert Next(c, run[|run| - 1], t);
    forall i | 0 <= i < |longer| - 1 ensures Next(c, longer[i], longer[i + 1]) {
      if i < |run| - 1 { assert Next(c, run[i], run[i + 1]); }
    }
  }

  lemma {:induction false} OneStepOut(c: Call, run: seq<State>) returns (longer: seq<State>)
    requires IsRun(c, run) && !run[|run| - 1].main.pc.Returned? && Leaving(run[|run| - 1])
    ensures IsRun(c, longer) && |longer| == |run| + 1 && longer[..|run|] == run
    ensures GoesOn(run[|run| - 1], longer[|run|])
  {
    var s := run[|run| - 1];
    RunInv(c, run, |run| - 1);
    LeavingGoesOn(c, s);
    longer := OneMoreStep(c, run, Cooperate(c, s));
  }

  /**
   From every reachable state on the way out, the error and cancellation paths among them, the
   call can return without any help from the producer, closed or not.
   */
  lemma {:induction false} CanAlwaysReturn(c: Call, run: seq<State>) returns (rest: seq<State>)
    requires IsRun(c, run) && (run[|run| - 1].main.pc.Returned? || Leaving(run[|run| - 1]))
    ensures IsRun(c, run + rest) && (run + rest)[|run + rest| - 1].main.pc.Returned?
    ensures ProducerStill(rest, run[|run| - 1].producer)
    decreases 21 * |c.input| + 7 - |run|, 0
  {
    if run[|run| - 1].main.pc.Returned? {
      rest := [];
      assert run + rest == run;
    } else {
      var longer := OneStepOut(c, run);
      RunIsBounded(c, longer);
      rest := ReturnAfter(c, run, longer);
    }
  }

  lemma {:induction false} ReturnAfter(c: Call, run: seq<State>, longer: seq<State>) returns (rest: seq<State>)
    requires IsRun(c, run) && IsRun(c, longer) && |longer| == |run| + 1 && longer[..|run|] == run
    requires GoesOn(run[|run| - 1], longer[|run|])
    ensures IsRun(c, run + rest) && (run + rest)[|run + rest| - 1].main.pc.Returned?
    ensures ProducerStill(rest, run[|run| - 1].producer)
    decreases 21 * |c.input| + 7 - |longer|, 1
  {
    var t := longer[|run|];
    assert longer == run + [t];
    var more := CanAlwaysReturn(c, longer);
    rest := [t] + more;
    assert run + rest == longer + more;
  }
}
