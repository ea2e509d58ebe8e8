/**
 What the truncate-boundary writer calls: the destination sees the calls that the input plans, item
 by item, up to the first that fails, and the call returns what that one decides.
 */
module CdcTruncateCalls {
  import opened Wrappers
  import opened CdcTruncate
  import opened CdcTruncateProofs

  // ---------------------------------------------------------------------------
  // Reference: the calls the first n items ask for
  // ---------------------------------------------------------------------------

  /** The destination table must exist, so something is written before anything else happens. */
  function AtLeastOne(calls: seq<DestCall>): seq<DestCall> {
    if calls == [] then [WriteNothing(true)] else calls
  }

  /** A data item joins the segment before it or starts one; a truncate is a call of its own. */
  function Planned(input: seq<Item>, n: nat): seq<DestCall>
    requires n <= |input|
  {
    if n == 0 then []
    else
      var before, item := Planned(input, n - 1), input[n - 1];
      if item.IsError() then before
      else if item.IsTruncate() then AtLeastOne(before) + [TruncateTable(true)]
      else if before != [] && before[|before| - 1].WriteSegment? then
        before[..|before| - 1] + [WriteSegment(before[|before| - 1].from, n, true)]
      else before + [WriteSegment(n - 1, n, true)]
  }

  lemma {:induction false} PlannedSucceeds(input: seq<Item>, n: nat)
    requires n <= |input|
    ensures forall k :: 0 <= k < |Planned(input, n)| ==> Planned(input, n)[k].ok
    ensures Planned(input, n) != [] ==> !Planned(input, n)[0].TruncateTable?
  {
    if n > 0 { PlannedSucceeds(input, n - 1); }
  }

  // ---------------------------------------------------------------------------
  // The invariant
  // ---------------------------------------------------------------------------

  ghost predicate AtBoundary(calls: seq<DestCall>) {
    calls == [] || calls[|calls| - 1].TruncateTable?
  }

  /** The segment being written is the one the input plans. */
  ghost predicate InSegment(c: Call, s: State)
    requires Bounds(c, s)
  {
    && AtBoundary(Planned(c.input, s.writer.lo))
    && (s.writer.lo < s.writer.hi ==>
          Planned(c.input, s.writer.hi)
          == Planned(c.input, s.writer.lo) + [WriteSegment(s.writer.lo, s.writer.hi, true)])
  }

  /** Only a cancelled forwarder can stop before it has handed over the first item. */
  ghost predicate HandedFirst(s: State) {
    match s.link.pc
    case Idle => true
    case Sending(_) => true
    case Receiving => s.writer.lo < s.writer.hi
    case Announcing(b) => b == Failed(ContextCancelled) || s.writer.lo < s.writer.hi
    case _ => s.link.boundary == Some(Failed(ContextCancelled)) || s.writer.lo < s.writer.hi
  }

  ghost predicate SegmentCall(c: Call, s: State, ok: bool)
    requires Bounds(c, s)
  {
    s.calls == Planned(c.input, s.writer.lo) + [WriteSegment(s.writer.lo, s.writer.hi, ok)]
  }

  /** The calls made before a failure is returned. */
  ghost predicate CauseCalls(c: Call, s: State, cause: Cause)
    requires Bounds(c, s)
  {
    match cause
    case InputError(_) => s.calls == Planned(c.input, s.writer.hi)
    case ContextCancelled => SegmentCall(c, s, true)
    case WriteFailed =>
      || SegmentCall(c, s, false)
      || (s.calls == [WriteNothing(false)] && Planned(c.input, s.writer.hi) == [])
    case TruncateFailed => s.calls == AtLeastOne(Planned(c.input, s.writer.hi)) + [TruncateTable(false)]
  }

  ghost predicate CallsOk(c: Call, s: State) {
    && Bounds(c, s)
    && match s.main.pc
       case Receive =>
         && s.calls == Planned(c.input, s.writer.hi) && AtBoundary(s.calls)
         && (s.main.wroteSegment <==> s.calls != [])
       case EmptyWrite(_) => s.calls == [] == Planned(c.input, s.writer.hi)
       case Segment => InSegment(c, s) && HandedFirst(s) && s.calls == Planned(c.input, s.writer.lo)
       case AwaitBoundary(failed) =>
         InSegment(c, s) && HandedFirst(s) && SegmentCall(c, s, !failed) && s.main.wroteSegment
       case Truncating => s.calls == AtLeastOne(Planned(c.input, s.writer.hi)) && s.main.wroteSegment
       case CancelInput(cause) => CauseCalls(c, s, cause)
       case Draining(cause) => CauseCalls(c, s, cause)
       case Returned(None) => s.calls == AtLeastOne(Planned(c.input, s.writer.hi))
       case Returned(Some(cause)) => CauseCalls(c, s, cause)
  }

  lemma {:induction false} EndCalls(c: Call, s: State)
    requires Inv(c, s) && CallsOk(c, s) && Enabled(c, s, MainReceive) && InputEnded(s)
    ensures CallsOk(c, DoMainReceive(c, s))
  {
  }

  lemma {:induction false} ReceiveCalls(c: Call, s: State)
    requires Inv(c, s) && CallsOk(c, s) && Enabled(c, s, MainReceive) && Bounds(c, DoMainReceive(c, s))
    ensures CallsOk(c, DoMainReceive(c, s))
  {
    if InputEnded(s) { EndCalls(c, s); }
  }

  lemma {:induction false} EmptyWriteCalls(c: Call, s: State, ok: bool)
    requires Inv(c, s) && CallsOk(c, s) && s.main.pc.EmptyWrite?
    ensures CallsOk(c, DoMainEmptyWrite(s, ok))
  {
  }

  lemma {:induction false} BoundaryCalls(c: Call, s: State)
    requires Inv(c, s) && CallsOk(c, s) && Enabled(c, s, MainBoundary)
    ensures CallsOk(c, DoMainBoundary(s))
  {
  }

  lemma {:induction false} TruncateCalls(c: Call, s: State, ok: bool, emptied: bool)
    requires Inv(c, s) && CallsOk(c, s) && s.main.pc.Truncating?
    ensures CallsOk(c, DoMainTruncate(s, ok, emptied))
  {
  }

  /** One more data item of a segment. */
  lemma {:induction false} PlannedExtends(input: seq<Item>, lo: nat, hi: nat)
    requires lo <= hi < |input| && input[hi].IsData() && AtBoundary(Planned(input, lo))
    requires lo < hi ==> Planned(input, hi) == Planned(input, lo) + [WriteSegment(lo, hi, true)]
    ensures Planned(input, hi + 1) == Planned(input, lo) + [WriteSegment(lo, hi + 1, true)]
  {
    var before := Planned(input, lo);
    if lo < hi { assert (before + [WriteSegment(lo, hi, true)])[..|before|] == before; }
  }

  lemma {:induction false} WriterTakeCalls(c: Call, s: State)
    requires Inv(c, s) && CallsOk(c, s) && Enabled(c, s, WriterTake)
    ensures CallsOk(c, DoWriterTake(s))
  {
    PlannedExtends(c.input, s.writer.lo, s.writer.hi);
  }

  lemma {:induction false} WriterDoneCalls(c: Call, s: State, failed: bool)
    requires Inv(c, s) && CallsOk(c, s) && s.main.pc.Segment?
    ensures CallsOk(c, DoWriterDone(s, failed))
  {
  }

  predicate IsForwarderStep(step: Step) {
    step.ForwarderReceive? || step.ForwarderCancelled? || step.ForwarderAnnounce? || step.ForwarderClose?
  }

  lemma {:induction false} ForwarderReceiveCalls(c: Call, s: State)
    requires Inv(c, s) && CallsOk(c, s) && Enabled(c, s, ForwarderReceive) && Bounds(c, DoForwarderReceive(c, s))
    ensures CallsOk(c, DoForwarderReceive(c, s))
  {
  }

  lemma {:induction false} ForwarderCancelledCalls(c: Call, s: State)
    requires Inv(c, s) && CallsOk(c, s) && Enabled(c, s, ForwarderCancelled) && Bounds(c, DoForwarderCancelled(s))
    ensures CallsOk(c, DoForwarderCancelled(s))
  {
  }

  lemma {:induction false} ForwarderCalls(c: Call, s: State, step: Step)
    requires Inv(c, s) && CallsOk(c, s) && Enabled(c, s, step) && IsForwarderStep(step)
    requires Bounds(c, Do(c, s, step))
    ensures CallsOk(c, Do(c, s, step))
  {
    if step.ForwarderReceive? {
      ForwarderReceiveCalls(c, s);
    } else if step.ForwarderCancelled? {
      ForwarderCancelledCalls(c, s);
    }
  }

  predicate IsQuietStep(step: Step) {
    || step.ProducerSend? || step.ProducerClose? || step.ContextCancel? || step.WriterFlush?
    || step.MainCancelInput? || step.MainDrain? || step.MainDrainTimeout?
  }

  /** Steps that call nothing and leave the forwarder alone. */
  lemma {:induction false} QuietCalls(c: Call, s: State, step: Step)
    requires Inv(c, s) && CallsOk(c, s) && Enabled(c, s, step) && IsQuietStep(step)
    requires Bounds(c, Do(c, s, step))
    ensures CallsOk(c, Do(c, s, step))
  {
  }

  lemma {:induction false} CallsNext(c: Call, s: State, step: Step)
    requires Inv(c, s) && CallsOk(c, s) && Enabled(c, s, step) && Bounds(c, Do(c, s, step))
    ensures CallsOk(c, Do(c, s, step))
  {
    if IsForwarderStep(step) {
      ForwarderCalls(c, s, step);
    } else if IsQuietStep(step) {
      QuietCalls(c, s, step);
    } else {
      match step
      case MainReceive => ReceiveCalls(c, s);
      case MainEmptyWrite(ok) => EmptyWriteCalls(c, s, ok);
      case MainBoundary => BoundaryCalls(c, s);
      case MainTruncate(ok, emptied) => TruncateCalls(c, s, ok, emptied);
      case WriterTake => WriterTakeCalls(c, s);
      case WriterReturn => WriterDoneCalls(c, s, false);
      case WriterFail => WriterDoneCalls(c, s, true);
    }
  }

  lemma {:induction false} NextCalls(c: Call, s: State, t: State)
    requires Inv(c, s) && CallsOk(c, s) && Next(c, s, t) && Bounds(c, t)
    ensures CallsOk(c, t)
  {
    var step :| Enabled(c, s, step) && t == Do(c, s, step);
    CallsNext(c, s, step);
  }

  lemma {:induction false} RunStep(c: Call, run: seq<State>, i: nat)
    requires IsRun(c, run) && 0 < i < |run|
    ensures Inv(c, run[i - 1]) && Next(c, run[i - 1], run[i]) && Bounds(c, run[i])
  {
    RunInv(c, run, i - 1);
    RunInv(c, run, i);
    assert Next(c, run[i - 1], run[i - 1 + 1]);
  }

  lemma {:induction false} RunCalls(c: Call, run: seq<State>, i: nat)
    requires IsRun(c, run) && i < |run|
    ensures CallsOk(c, run[i])
  {
    if i > 0 {
      RunCalls(c, run, i - 1);
      RunStep(c, run, i);
      NextCalls(c, run[i - 1], run[i]);
    }
  }

  // ---------------------------------------------------------------------------
  // Main results
  // ---------------------------------------------------------------------------

  /**
   A nil return has made exactly the planned calls, each of them with success: an empty write
   when there was no item at all or a truncate came first, one write per run of data items, and
   one truncate per truncate item.
   */
  lemma {:induction false} SuccessMadeEveryCall(c: Call, run: seq<State>, i: nat)
    requires IsRun(c, run) && i < |run| && run[i].main.pc == Returned(None)
    ensures var s := run[i];
            && s.producer.sent <= |c.input| && s.calls == AtLeastOne(Planned(c.input, s.producer.sent))
            && s.calls != [] && !s.calls[0].TruncateTable?
            && (forall k :: 0 <= k < |s.calls| ==> s.calls[k].ok)
            && (s.producer.sent == 0 ==> s.calls == [WriteNothing(true)])
  {
    RunCalls(c, run, i);
    RunInv(c, run, i);
    PlannedSucceeds(c.input, run[i].producer.sent);
  }

  /** Nothing is truncated before something was written. */
  lemma {:induction false} WrittenBeforeTruncated(c: Call, run: seq<State>, i: nat)
    requires IsRun(c, run) && i < |run| && run[i].main.pc.Truncating?
    ensures var s := run[i];
            s.calls != [] && !s.calls[0].TruncateTable? && forall k :: 0 <= k < |s.calls| ==> s.calls[k].ok
  {
    RunCalls(c, run, i);
    PlannedSucceeds(c.input, run[i].writer.hi);
  }

  ghost predicate OnlyLastFails(calls: seq<DestCall>) {
    calls != [] && !calls[|calls| - 1].ok && forall k :: 0 <= k < |calls| - 1 ==> calls[k].ok
  }

  ghost predicate NoneFails(calls: seq<DestCall>) { forall k :: 0 <= k < |calls| ==> calls[k].ok }

  /**
   What is returned is decided by the calls: a failed call is the last one and is what the error
   reports; an input error or a cancellation is reported only if no call failed, and after
   an input error exactly the calls for the items before it were made.
   */
  lemma {:induction false} ErrorIsTheOneMet(c: Call, run: seq<State>, i: nat)
    requires IsRun(c, run) && i < |run| && run[i].main.pc.Returned?
    ensures ReportsTheOneMet(c, run[i], run[i].main.pc.failure)
  {
    RunCalls(c, run, i);
    RunInv(c, run, i);
    ReturnedReports(c, run[i]);
  }

  ghost predicate ReportsTheOneMet(c: Call, s: State, failure: Option<Cause>) {
    match failure
    case None => NoneFails(s.calls)
    case Some(WriteFailed) => OnlyLastFails(s.calls) && !s.calls[|s.calls| - 1].TruncateTable?
    case Some(TruncateFailed) => OnlyLastFails(s.calls) && s.calls[|s.calls| - 1].TruncateTable?
    case Some(ContextCancelled) => s.producer.cancelled && NoneFails(s.calls)
    case Some(InputError(i)) =>
      && i < |c.input| && c.input[i].IsError()
      && s.calls == Planned(c.input, i) && NoneFails(s.calls)
  }

  lemma {:induction false} ReturnedReports(c: Call, s: State)
    requires Inv(c, s) && CallsOk(c, s) && s.main.pc.Returned?
    ensures ReportsTheOneMet(c, s, s.main.pc.failure)
  {
    PlannedSucceeds(c.input, s.writer.lo);
    PlannedSucceeds(c.input, s.writer.hi);
  }
}
