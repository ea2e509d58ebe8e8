/** Invariant, safety, conservation and liveness of the truncate-boundary writer. */
module CdcTruncateProofs {
  import opened Wrappers
  import opened CdcTruncate

  // ---------------------------------------------------------------------------
  // The rows a writer holds but has not made durable
  // ---------------------------------------------------------------------------

  ghost function RowsOf(input: seq<Item>, held: set<nat>, lo: nat, hi: nat): Table
    requires lo <= hi <= |input|
  {
    if lo == hi then multiset{}
    else
      RowsOf(input, held, lo, hi - 1)
      + (if hi - 1 in held then input[hi - 1].Rows() else multiset{})
  }

  lemma {:induction false} RowsOfRemove(input: seq<Item>, held: set<nat>, lo: nat, hi: nat, k: nat)
    requires lo <= hi <= |input| && k in held
    ensures RowsOf(input, held, lo, hi) ==
            RowsOf(input, held - {k}, lo, hi)
            + (if lo <= k < hi then input[k].Rows() else multiset{})
  {
    if lo < hi { RowsOfRemove(input, held, lo, hi - 1, k); }
  }

  lemma {:induction false} RowsOfBeyond(input: seq<Item>, held: set<nat>, lo: nat, hi: nat, k: nat)
    requires lo <= hi <= k <= |input|
    ensures RowsOf(input, held + {k}, lo, hi) == RowsOf(input, held, lo, hi)
  {
    if lo < hi { RowsOfBeyond(input, held, lo, hi - 1, k); }
  }

  lemma {:induction false} RowsOfNone(input: seq<Item>, lo: nat, hi: nat)
    requires lo <= hi <= |input|
    ensures RowsOf(input, {}, lo, hi) == multiset{}
  {
    if lo < hi { RowsOfNone(input, lo, hi - 1); }
  }

  // ---------------------------------------------------------------------------
  // Invariant
  // ---------------------------------------------------------------------------

  ghost function At(c: Call, n: nat): Table
    requires n <= |c.input|
  {
    Replay(c.initial, c.input, n)
  }

  /** Item j has one owner once it is taken, and none before. */
  ghost predicate OneOwner(ledger: Ledger, pc: ForwarderPc, j: nat) {
    ledger.handed[j] + ledger.released[j] + (if pc == Sending(j) then 1 else 0)
    == (if j < ledger.taken then 1 else 0)
  }

  /** Every item taken from the input is handed over, released or in the forwarder's hand, once. */
  ghost predicate Owned(ledger: Ledger, pc: ForwarderPc) {
    forall j: nat :: OneOwner(ledger, pc, j)
  }

  ghost predicate Bounds(c: Call, s: State) {
    s.writer.lo <= s.writer.hi <= s.ledger.taken <= s.producer.sent <= |c.input|
  }

  /** The items before `lo` are settled, those from `lo` to `hi` belong to one segment. */
  ghost predicate Placed(c: Call, w: Writer, truncated: bool) {
    && w.lo <= w.hi <= |c.input|
    && NoErrors(c.input, w.hi)
    && AllData(c.input, w.lo, w.hi)
    && At(c, w.lo) <= At(c, w.hi)
    && (truncated <==> HasTruncate(c.input, w.lo))
  }

  ghost predicate Settled(c: Call, w: Writer) {
    w.hi <= |c.input| && w.table == At(c, w.hi)
  }

  /** Somewhere between the last boundary and everything handed over since. */
  ghost predicate Between(c: Call, w: Writer) {
    w.lo <= w.hi <= |c.input| && At(c, w.lo) <= w.table <= At(c, w.hi)
  }

  ghost predicate Writing(c: Call, w: Writer) {
    && w.lo <= w.hi <= |c.input|
    && (forall j :: j in w.buffered ==> w.lo <= j < w.hi)
    && At(c, w.lo) <= w.table
    && w.table + RowsOf(c.input, w.buffered, w.lo, w.hi) == At(c, w.hi)
  }

  /** The item after those handed over was taken, and it is a truncate marker. */
  ghost predicate TruncateNext(c: Call, s: State) {
    s.writer.hi + 1 == s.ledger.taken <= |c.input| && c.input[s.writer.hi].IsTruncate()
  }

  ghost predicate BoundaryOk(c: Call, s: State, b: Boundary) {
    match b
    case EndOfInput => s.writer.hi == s.ledger.taken && InputEnded(s)
    case AtTruncate => TruncateNext(c, s)
    case Failed(InputError(i)) =>
      i == s.writer.hi && i + 1 == s.ledger.taken <= |c.input| && c.input[i].IsError()
    case Failed(ContextCancelled) => s.ledger.taken <= s.writer.hi + 1 && Cancelled(s)
    case Failed(_) => false
  }

  ghost predicate ForwarderOk(c: Call, s: State) {
    && (s.link.segmentOpen <==> !s.link.pc.Exited?)
    && (s.link.boundary.Some? <==> s.link.pc.Closing? || s.link.pc.Exited?)
    && match s.link.pc
       case Idle => false
       case Sending(i) =>
         i == s.writer.hi && i + 1 == s.ledger.taken <= |c.input| && c.input[i].IsData()
       case Receiving => s.writer.hi == s.ledger.taken
       case Announcing(b) => BoundaryOk(c, s, b)
       case Closing => s.link.boundary.Some? && BoundaryOk(c, s, s.link.boundary.value)
       case Exited => s.link.boundary.Some? && BoundaryOk(c, s, s.link.boundary.value)
  }

  ghost predicate AtRest(s: State) { s.link.pc.Idle? || s.link.pc.Exited? }

  ghost predicate CauseOk(c: Call, s: State, cause: Cause) {
    && (AtRest(s) || s.link.pc.Closing?)
    && match cause
       case InputError(i) =>
         && i == s.writer.hi < s.ledger.taken <= |c.input|
         && c.input[i].IsError() && Settled(c, s.writer)
       case ContextCancelled => s.producer.cancelled && Settled(c, s.writer)
       case WriteFailed => Between(c, s.writer)
       case TruncateFailed =>
         && s.writer.hi < s.ledger.taken <= |c.input| && c.input[s.writer.hi].IsTruncate()
         && (Settled(c, s.writer) || s.writer.table == multiset{})
  }

  ghost predicate MainOk(c: Call, s: State) {
    match s.main.pc
    case Receive =>
      && AtRest(s) && s.writer.lo == s.writer.hi == s.ledger.taken
      && s.writer.buffered == {} && Settled(c, s.writer)
    case EmptyWrite(ThenReturn) =>
      AtRest(s) && s.writer.hi == s.ledger.taken && InputEnded(s) && Settled(c, s.writer)
    case EmptyWrite(ThenTruncate) => AtRest(s) && TruncateNext(c, s) && Settled(c, s.writer)
    case Truncating => AtRest(s) && TruncateNext(c, s) && Settled(c, s.writer)
    case Segment => ForwarderOk(c, s) && Writing(c, s.writer) && !s.link.cancelled
    case AwaitBoundary(false) =>
      ForwarderOk(c, s) && s.link.pc.Exited? && !s.link.cancelled && Settled(c, s.writer)
    case AwaitBoundary(true) => ForwarderOk(c, s) && s.link.cancelled && Between(c, s.writer)
    case CancelInput(cause) => CauseOk(c, s, cause)
    case Draining(cause) => CauseOk(c, s, cause) && (c.hasCancel ==> s.main.inputCancelled)
    case Returned(None) =>
      AtRest(s) && s.writer.hi == s.ledger.taken && InputEnded(s) && Settled(c, s.writer)
    case Returned(Some(cause)) =>
      && CauseOk(c, s, cause)
      && (c.hasCancel ==> s.main.inputCancelled)
      && (!s.main.timedOut ==> InputEnded(s))
  }

  ghost predicate Inv(c: Call, s: State) {
    && Bounds(c, s)
    && Placed(c, s.writer, s.main.truncated)
    && Owned(s.ledger, s.link.pc)
    && MainOk(c, s)
  }

  // How ownership moves: an item is taken into the forwarder's hand, and leaves it once.

  lemma {:induction false} OwnedIdle(ledger: Ledger, pc: ForwarderPc, next: ForwarderPc)
    requires Owned(ledger, pc) && !pc.Sending? && !next.Sending?
    ensures Owned(ledger, next)
  {
    forall j: nat ensures OneOwner(ledger, next, j) { assert OneOwner(ledger, pc, j); }
  }

  lemma {:induction false} OwnedTake(ledger: Ledger, pc: ForwarderPc)
    requires Owned(ledger, pc) && !pc.Sending?
    ensures Owned(Take(ledger), Sending(ledger.taken))
  {
    forall j: nat ensures OneOwner(Take(ledger), Sending(ledger.taken), j) {
      assert OneOwner(ledger, pc, j);
    }
  }

  lemma {:induction false} OwnedLeave(ledger: Ledger, i: nat, after: Ledger, next: ForwarderPc)
    requires Owned(ledger, Sending(i)) && !next.Sending?
    requires after == Release(ledger, i) || after == ledger.(handed := ledger.handed + multiset{i})
    ensures Owned(after, next)
  {
    forall j: nat ensures OneOwner(after, next, j) { assert OneOwner(ledger, Sending(i), j); }
  }

  lemma {:induction false} OwnedDrop(ledger: Ledger, pc: ForwarderPc, next: ForwarderPc)
    requires Owned(ledger, pc) && !pc.Sending? && !next.Sending?
    ensures Owned(Release(Take(ledger), ledger.taken), next)
  {
    OwnedTake(ledger, pc);
    OwnedLeave(Take(ledger), ledger.taken, Release(Take(ledger), ledger.taken), next);
  }

  lemma {:induction false} StartInv(c: Call)
    ensures Inv(c, Start(c))
  {
    forall j: nat ensures OneOwner(Start(c).ledger, Idle, j) { }
  }

  lemma {:induction false} WritingTake(c: Call, w: Writer)
    requires Writing(c, w) && w.hi < |c.input| && c.input[w.hi].IsData()
    ensures Writing(c, w.(hi := w.hi + 1, buffered := w.buffered + {w.hi}))
  {
    var i := w.hi;
    RowsOfBeyond(c.input, w.buffered, w.lo, i, i);
    assert RowsOf(c.input, w.buffered + {i}, w.lo, i + 1)
        == RowsOf(c.input, w.buffered, w.lo, i) + c.input[i].Rows();
  }

  lemma {:induction false} PlacedTake(c: Call, w: Writer, after: Writer, truncated: bool)
    requires Placed(c, w, truncated) && w.hi < |c.input| && c.input[w.hi].IsData()
    requires after.lo == w.lo && after.hi == w.hi + 1
    ensures Placed(c, after, truncated)
  {
    assert At(c, w.hi + 1) == At(c, w.hi) + c.input[w.hi].Rows();
  }

  lemma {:induction false} PlacedTruncate(c: Call, w: Writer, truncated: bool)
    requires Placed(c, w, truncated) && w.hi < |c.input| && c.input[w.hi].IsTruncate()
    ensures Placed(c, Writer(w.hi + 1, w.hi + 1, {}, multiset{}), true)
    ensures At(c, w.hi + 1) == multiset{}
  {
  }

  // Every step keeps the invariant.

  lemma {:induction false} ProducerKeeps(c: Call, s: State, p: Producer)
    requires Inv(c, s) && s.producer.sent <= p.sent <= |c.input|
    requires s.producer.closed ==> p.closed && p.sent == s.producer.sent
    requires s.producer.cancelled ==> p.cancelled
    ensures Inv(c, s.(producer := p))
  {
    assert ForwarderOk(c, s) ==> ForwarderOk(c, s.(producer := p));
  }

  lemma {:induction false} MainReceiveKeeps(c: Call, s: State)
    requires Inv(c, s) && Enabled(c, s, MainReceive)
    ensures Inv(c, DoMainReceive(c, s))
  {
    RowsOfNone(c.input, s.writer.lo, s.writer.hi);
    OwnedTake(s.ledger, s.link.pc);
    OwnedDrop(s.ledger, s.link.pc, s.link.pc);
  }

  lemma {:induction false} MainEmptyWriteKeeps(c: Call, s: State, ok: bool)
    requires Inv(c, s) && s.main.pc.EmptyWrite?
    ensures Inv(c, DoMainEmptyWrite(s, ok))
  {
  }

  lemma {:induction false} MainBoundaryKeeps(c: Call, s: State)
    requires Inv(c, s) && Enabled(c, s, MainBoundary)
    ensures Inv(c, DoMainBoundary(s))
  {
    OwnedIdle(s.ledger, s.link.pc, s.link.pc);
    if s.main.pc.writeFailed {
      assert CauseOk(c, DoMainBoundary(s), WriteFailed);
    } else {
      match s.link.boundary.value
      case Failed(cause) => assert CauseOk(c, DoMainBoundary(s), cause);
      case EndOfInput =>
      case AtTruncate => assert TruncateNext(c, DoMainBoundary(s));
    }
  }

  lemma {:induction false} MainTruncatedKeeps(c: Call, s: State, emptied: bool)
    requires Inv(c, s) && s.main.pc.Truncating?
    ensures Inv(c, DoMainTruncate(s, true, emptied))
  {
    PlacedTruncate(c, s.writer, s.main.truncated);
  }

  lemma {:induction false} MainTruncateFailedKeeps(c: Call, s: State, emptied: bool)
    requires Inv(c, s) && s.main.pc.Truncating?
    ensures Inv(c, DoMainTruncate(s, false, emptied))
  {
  }

  lemma {:induction false} MainStopKeeps(c: Call, s: State, step: Step)
    requires Inv(c, s) && Enabled(c, s, step)
    requires step.MainCancelInput? || step.MainDrain? || step.MainDrainTimeout?
    ensures Inv(c, Do(c, s, step))
  {
    if step.MainDrain? { OwnedDrop(s.ledger, s.link.pc, s.link.pc); }
  }

  lemma {:induction false} ForwarderSendsOn(c: Call, s: State)
    requires Inv(c, s) && Enabled(c, s, ForwarderReceive) && DoForwarderReceive(c, s).link.pc.Sending?
    ensures Inv(c, DoForwarderReceive(c, s))
  {
    OwnedTake(s.ledger, s.link.pc);
  }

  lemma {:induction false} ForwarderReceiveKeeps(c: Call, s: State)
    requires Inv(c, s) && Enabled(c, s, ForwarderReceive)
    ensures Inv(c, DoForwarderReceive(c, s))
  {
    var next := DoForwarderReceive(c, s).link.pc;
    if next.Sending? {
      ForwarderSendsOn(c, s);
    } else {
      OwnedTake(s.ledger, s.link.pc);
      OwnedIdle(s.ledger, s.link.pc, next);
      OwnedDrop(s.ledger, s.link.pc, next);
    }
  }

  lemma {:induction false} ForwarderCancelledKeeps(c: Call, s: State)
    requires Inv(c, s) && Enabled(c, s, ForwarderCancelled)
    ensures Inv(c, DoForwarderCancelled(s))
  {
    var next := Announcing(Failed(ContextCancelled));
    if s.link.pc.Sending? {
      OwnedLeave(s.ledger, s.link.pc.index, Release(s.ledger, s.link.pc.index), next);
    } else {
      OwnedIdle(s.ledger, s.link.pc, next);
    }
  }

  lemma {:induction false} ForwarderAnnounceKeeps(c: Call, s: State)
    requires Inv(c, s) && Enabled(c, s, ForwarderAnnounce)
    ensures Inv(c, DoForwarderAnnounce(s))
  {
    OwnedIdle(s.ledger, s.link.pc, Closing);
  }

  lemma {:induction false} ForwarderCloseKeeps(c: Call, s: State)
    requires Inv(c, s) && Enabled(c, s, ForwarderClose)
    ensures Inv(c, DoForwarderClose(s))
  {
    OwnedIdle(s.ledger, s.link.pc, Exited);
  }

  lemma {:induction false} WriterTakeKeeps(c: Call, s: State)
    requires Inv(c, s) && Enabled(c, s, WriterTake)
    ensures Inv(c, DoWriterTake(s))
  {
    var t := DoWriterTake(s);
    OwnedLeave(s.ledger, s.link.pc.index, t.ledger, Receiving);
    WritingTake(c, s.writer);
    PlacedTake(c, s.writer, t.writer, s.main.truncated);
    WriterTakeMain(c, s);
  }

  lemma {:induction false} WriterTakeMain(c: Call, s: State)
    requires Bounds(c, s) && MainOk(c, s) && Enabled(c, s, WriterTake) && Writing(c, DoWriterTake(s).writer)
    ensures Bounds(c, DoWriterTake(s)) && MainOk(c, DoWriterTake(s))
  {
  }

  lemma {:induction false} WriterFlushKeeps(c: Call, s: State, index: nat)
    requires Inv(c, s) && Enabled(c, s, WriterFlush(index))
    ensures Inv(c, DoWriterFlush(c, s, index))
  {
    RowsOfRemove(c.input, s.writer.buffered, s.writer.lo, s.writer.hi, index);
  }

  lemma {:induction false} WriterDoneKeeps(c: Call, s: State, failed: bool)
    requires Inv(c, s) && Enabled(c, s, if failed then WriterFail else WriterReturn)
    ensures Inv(c, DoWriterDone(s, failed))
  {
    RowsOfNone(c.input, s.writer.lo, s.writer.hi);
  }

  predicate IsMainStep(step: Step) {
    || step.MainReceive? || step.MainBoundary? || step.MainEmptyWrite? || step.MainTruncate?
    || step.MainCancelInput? || step.MainDrain? || step.MainDrainTimeout?
  }

  lemma {:induction false} MainKeeps(c: Call, s: State, step: Step)
    requires Inv(c, s) && Enabled(c, s, step) && IsMainStep(step)
    ensures Inv(c, Do(c, s, step))
  {
    if step.MainReceive? { MainReceiveKeeps(c, s); }
    else if step.MainBoundary? { MainBoundaryKeeps(c, s); }
    else if step.MainEmptyWrite? { MainEmptyWriteKeeps(c, s, step.ok); }
    else if step.MainTruncate? {
      if step.ok { MainTruncatedKeeps(c, s, step.emptied); } else { MainTruncateFailedKeeps(c, s, step.emptied); }
    }
    else { MainStopKeeps(c, s, step); }
  }

  predicate IsWriterStep(step: Step) {
    step.WriterTake? || step.WriterFlush? || step.WriterReturn? || step.WriterFail?
  }

  lemma {:induction false} WriterKeeps(c: Call, s: State, step: Step)
    requires Inv(c, s) && Enabled(c, s, step) && IsWriterStep(step)
    ensures Inv(c, Do(c, s, step))
  {
    match step
    case WriterTake => WriterTakeKeeps(c, s);
    case WriterFlush(index) => WriterFlushKeeps(c, s, index);
    case WriterReturn => WriterDoneKeeps(c, s, false);
    case WriterFail => WriterDoneKeeps(c, s, true);
  }

  predicate IsForwarderStep(step: Step) {
    || step.ForwarderReceive? || step.ForwarderCancelled?
    || step.ForwarderAnnounce? || step.ForwarderClose?
  }

  lemma {:induction false} ForwarderKeeps(c: Call, s: State, step: Step)
    requires Inv(c, s) && Enabled(c, s, step) && IsForwarderStep(step)
    ensures Inv(c, Do(c, s, step))
  {
    match step
    case ForwarderReceive => ForwarderReceiveKeeps(c, s);
    case ForwarderCancelled => ForwarderCancelledKeeps(c, s);
    case ForwarderAnnounce => ForwarderAnnounceKeeps(c, s);
    case ForwarderClose => ForwarderCloseKeeps(c, s);
  }

  lemma {:induction false} InvNext(c: Call, s: State, step: Step)
    requires Inv(c, s) && Enabled(c, s, step)
    ensures Inv(c, Do(c, s, step))
  {
    if IsMainStep(step) { MainKeeps(c, s, step); }
    else if IsWriterStep(step) { WriterKeeps(c, s, step); }
    else if IsForwarderStep(step) { ForwarderKeeps(c, s, step); }
    else { ProducerKeeps(c, s, Do(c, s, step).producer); }
  }

  lemma {:induction false} RunInv(c: Call, run: seq<State>, i: nat)
    requires IsRun(c, run) && i < |run|
    ensures Inv(c, run[i])
  {
    if i == 0 {
      StartInv(c);
    } else {
      RunInv(c, run, i - 1);
      assert Next(c, run[i - 1], run[i - 1 + 1]);
      var step :| Enabled(c, run[i - 1], step) && run[i] == Do(c, run[i - 1], step);
      InvNext(c, run[i - 1], step);
    }
  }

  // ---------------------------------------------------------------------------
  // Safety over every run
  // ---------------------------------------------------------------------------

  /** Success means the whole input was replayed, one item at a time. */
  lemma {:induction false} SuccessIsReplay(c: Call, run: seq<State>, i: nat)
    requires IsRun(c, run) && i < |run| && run[i].main.pc == Returned(None)
    ensures var s := run[i];
            && s.producer.closed && s.ledger.taken == s.producer.sent <= |c.input|
            && NoErrors(c.input, s.producer.sent)
            && s.writer.table == Replay(c.initial, c.input, s.producer.sent)
            && (s.main.truncated <==> HasTruncate(c.input, s.producer.sent))
  {
    RunInv(c, run, i);
  }

  /** An input error is returned with exactly the items before it applied. */
  lemma {:induction false} InputErrorIsReplayBefore(c: Call, run: seq<State>, i: nat, k: nat)
    requires IsRun(c, run) && i < |run| && run[i].main.pc == Returned(Some(InputError(k)))
    ensures var s := run[i];
            && k < |c.input| && c.input[k].IsError() && NoErrors(c.input, k)
            && s.writer.table == Replay(c.initial, c.input, k)
            && (s.main.truncated <==> HasTruncate(c.input, k))
  {
    RunInv(c, run, i);
  }

  /**
   At every moment, and whatever is returned, the table is the replay of a prefix of the input
   plus some of the data batches before the next boundary: rows from opposite sides of a
   truncate never meet. The one exception is a truncate call that failed after emptying the
   table, and then the next item is that truncate.
   */
  lemma {:induction false} NoRowCrossesATruncate(c: Call, run: seq<State>, i: nat)
    requires IsRun(c, run) && i < |run|
    ensures var s := run[i];
            exists lo: nat, hi: nat ::
              && lo <= hi <= s.ledger.taken <= |c.input|
              && NoErrors(c.input, hi) && AllData(c.input, lo, hi)
              && (s.main.truncated <==> HasTruncate(c.input, hi))
              && (|| Replay(c.initial, c.input, lo) <= s.writer.table <= Replay(c.initial, c.input, hi)
                  || (s.writer.table == multiset{} && hi < |c.input| && c.input[hi].IsTruncate()))
  {
    RunInv(c, run, i);
    var s := run[i];
    TableBetween(c, s);
  }

  lemma {:induction false} TableBetween(c: Call, s: State)
    requires Inv(c, s)
    ensures || Between(c, s.writer)
            || (s.writer.table == multiset{} && s.writer.hi < |c.input|
                && c.input[s.writer.hi].IsTruncate())
  {
  }

  /**
   Once the call has returned, every item it took was either handed to the writer or released,
   once, and none it did not take was touched. Unless the drain timed out, it took everything
   the producer offered; when it failed, the owner of the input was cancelled.
   */
  lemma {:induction false} ReturnedOwnsNothing(c: Call, run: seq<State>, i: nat, j: nat)
    requires IsRun(c, run) && i < |run| && run[i].main.pc.Returned?
    ensures var s := run[i];
            && s.ledger.handed[j] + s.ledger.released[j] == (if j < s.ledger.taken then 1 else 0)
            && (!s.main.timedOut ==> s.producer.closed && s.ledger.taken == s.producer.sent)
            && (s.main.pc.failure.Some? && c.hasCancel ==> s.main.inputCancelled)
  {
    RunInv(c, run, i);
    assert OneOwner(run[i].ledger, run[i].link.pc, j);
  }

  /** The main loop and the forwarder never both read the input. */
  lemma {:induction false} OneReader(c: Call, run: seq<State>, i: nat)
    requires IsRun(c, run) && i < |run|
    ensures var s := run[i];
            (s.main.pc.Receive? || s.main.pc.Draining?) ==> !s.link.pc.Sending? && !s.link.pc.Receiving?
  {
    RunInv(c, run, i);
  }
}
