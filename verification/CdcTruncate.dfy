/**
 The CDC truncate-boundary writer: a main loop, a forwarder goroutine and a destination
 writer that share an unbuffered segment channel, a one-slot boundary channel and a
 cancellable context.

 The three are modelled as one step relation. A step is one channel operation, one
 cancellation, one call into the destination or one release; every interleaving of steps
 that their guards allow is a run.
 */
module CdcTruncate {
  import opened Wrappers

  type Row = int

  /** One value received from the input channel. The batch may be absent in any of them. */
  datatype Item = Item(batch: Option<multiset<Row>>, err: Option<int>, truncate: bool)
  {
    /** The error is examined before the truncate flag, so it wins. */
    predicate IsError() { err.Some? }
    predicate IsTruncate() { err.None? && truncate }
    predicate IsData() { err.None? && !truncate }

    function Rows(): multiset<Row> {
      if batch.Some? then batch.value else multiset{}
    }
  }

  // ---------------------------------------------------------------------------
  // Reference meaning: the input replayed one item at a time.
  // ---------------------------------------------------------------------------

  /** Parallel writers give a table no row order, so a table is a bag of rows. */
  type Table = multiset<Row>

  function ApplyItem(table: Table, item: Item): Table {
    if item.IsError() then table
    else if item.IsTruncate() then multiset{}
    else table + item.Rows()
  }

  /** The table after the first n items. */
  function Replay(initial: Table, input: seq<Item>, n: nat): Table
    requires n <= |input|
  {
    if n == 0 then initial else ApplyItem(Replay(initial, input, n - 1), input[n - 1])
  }

  ghost predicate NoErrors(input: seq<Item>, n: nat)
    requires n <= |input|
  {
    forall j :: 0 <= j < n ==> !input[j].IsError()
  }

  ghost predicate HasTruncate(input: seq<Item>, n: nat)
    requires n <= |input|
  {
    exists j :: 0 <= j < n && input[j].IsTruncate()
  }

  ghost predicate AllData(input: seq<Item>, lo: nat, hi: nat)
    requires lo <= hi <= |input|
  {
    forall j :: lo <= j < hi ==> input[j].IsData()
  }

  // ---------------------------------------------------------------------------
  // State
  // ---------------------------------------------------------------------------

  /** Why a call returned an error. An input error carries the index of the failing item. */
  datatype Cause = InputError(index: nat) | ContextCancelled | WriteFailed | TruncateFailed

  /** What the forwarder reports on the boundary channel. */
  datatype Boundary = EndOfInput | AtTruncate | Failed(cause: Cause)

  datatype AfterEmptyWrite = ThenReturn | ThenTruncate

  datatype MainPc =
    | Receive                              // waiting for the first item of a segment
    | EmptyWrite(next: AfterEmptyWrite)    // writer called with an empty closed channel
    | Segment                              // writer running over the segment channel
    | AwaitBoundary(writeFailed: bool)     // writer returned; waiting for the boundary
    | Truncating                           // truncate call on the destination
    | CancelInput(cause: Cause)            // about to cancel the owner of the input
    | Draining(cause: Cause)               // draining the input under a timer
    | Returned(failure: Option<Cause>)

  datatype ForwarderPc =
    | Idle                                 // not started
    | Sending(index: nat)                  // holds an item, offers it to the writer
    | Receiving                            // waits for input or cancellation
    | Announcing(boundary: Boundary)       // about to fill the boundary slot
    | Closing                              // boundary sent, segment not yet closed
    | Exited

  /** What one call is given: the items its producer will offer, and the table it starts from. */
  datatype Call = Call(input: seq<Item>, initial: Table, hasCancel: bool)

  /** The producer has offered `sent` items; `cancelled` is the caller's own context. */
  datatype Producer = Producer(sent: nat, closed: bool, cancelled: bool)

  datatype MainLoop = MainLoop(
    pc: MainPc, truncated: bool, wroteSegment: bool, inputCancelled: bool, timedOut: bool)

  /** The forwarder with its segment channel, boundary slot and segment context. */
  datatype Link = Link(
    pc: ForwarderPc, boundary: Option<Boundary>, segmentOpen: bool, cancelled: bool)

  /** Items taken from the input so far, and who ended up owning each of them. */
  datatype Ledger = Ledger(taken: nat, handed: multiset<nat>, released: multiset<nat>)

  /**
   The destination. Items `lo` up to `hi` were handed over since the last boundary; those in
   `buffered` are not durable yet.
   */
  datatype Writer = Writer(lo: nat, hi: nat, buffered: set<nat>, table: Table)

  /**
   A finished call into the destination, and whether it returned without error. A segment write
   consumed the items `from` up to `to`.
   */
  datatype DestCall =
    | WriteSegment(from: nat, to: nat, ok: bool)
    | WriteNothing(ok: bool)
    | TruncateTable(ok: bool)

  datatype State = State(
    producer: Producer, main: MainLoop, link: Link, ledger: Ledger, writer: Writer, calls: seq<DestCall>)

  function Start(call: Call): State {
    State(Producer(0, false, false), MainLoop(Receive, false, false, false, false),
          Link(Idle, None, false, false), Ledger(0, multiset{}, multiset{}),
          Writer(0, 0, {}, call.initial), [])
  }

  // ---------------------------------------------------------------------------
  // Steps
  // ---------------------------------------------------------------------------

  datatype Step =
    | ProducerSend | ProducerClose | ContextCancel
    | MainReceive | MainEmptyWrite(ok: bool) | MainBoundary
    | MainTruncate(ok: bool, emptied: bool) | MainCancelInput | MainDrain | MainDrainTimeout
    | ForwarderReceive | ForwarderCancelled | ForwarderAnnounce | ForwarderClose
    | WriterTake | WriterFlush(index: nat) | WriterReturn | WriterFail

  predicate Available(c: Call, s: State) { s.ledger.taken < s.producer.sent <= |c.input| }

  predicate InputEnded(s: State) { s.producer.closed && s.ledger.taken == s.producer.sent }

  predicate Cancelled(s: State) { s.producer.cancelled || s.link.cancelled }

  predicate Enabled(c: Call, s: State, step: Step) {
    match step
    case ProducerSend => !s.producer.closed && s.producer.sent < |c.input|
    case ProducerClose => !s.producer.closed
    case ContextCancel => !s.producer.cancelled
    case MainReceive => s.main.pc.Receive? && (Available(c, s) || InputEnded(s))
    case MainEmptyWrite(_) => s.main.pc.EmptyWrite?
    case MainBoundary => s.main.pc.AwaitBoundary? && s.link.boundary.Some?
    case MainTruncate(_, _) => s.main.pc.Truncating?
    case MainCancelInput => s.main.pc.CancelInput?
    case MainDrain => s.main.pc.Draining? && (Available(c, s) || InputEnded(s))
    case MainDrainTimeout => s.main.pc.Draining?
    case ForwarderReceive => s.link.pc.Receiving? && (Available(c, s) || InputEnded(s))
    case ForwarderCancelled => Cancelled(s) && (s.link.pc.Sending? || s.link.pc.Receiving?)
    case ForwarderAnnounce => s.link.pc.Announcing? && s.link.boundary.None?
    case ForwarderClose => s.link.pc.Closing?
    case WriterTake => s.main.pc.Segment? && s.link.pc.Sending?
    case WriterFlush(index) =>
      s.main.pc.Segment? && index in s.writer.buffered && index < |c.input|
    // The writer contract: nil is returned only once the segment has been consumed to its
    // close and everything consumed is durable. An error may be returned at any time.
    case WriterReturn => s.main.pc.Segment? && !s.link.segmentOpen && s.writer.buffered == {}
    case WriterFail => s.main.pc.Segment?
  }

  function GoTo(s: State, pc: MainPc): State { s.(main := s.main.(pc := pc)) }

  function Forwarder(s: State, pc: ForwarderPc): State { s.(link := s.link.(pc := pc)) }

  function Called(s: State, call: DestCall): State { s.(calls := s.calls + [call]) }

  function Take(ledger: Ledger): Ledger { ledger.(taken := ledger.taken + 1) }

  function Release(ledger: Ledger, index: nat): Ledger {
    ledger.(released := ledger.released + multiset{index})
  }

  /** The main loop receives the first item of the next segment, or the end of the input. */
  function DoMainReceive(c: Call, s: State): State
    requires Enabled(c, s, MainReceive)
  {
    var i := s.ledger.taken;
    if InputEnded(s) then
      GoTo(s, if s.main.wroteSegment then Returned(None) else EmptyWrite(ThenReturn))
    else if c.input[i].IsError() then
      GoTo(s.(ledger := Release(Take(s.ledger), i)), CancelInput(InputError(i)))
    else if c.input[i].IsTruncate() then
      GoTo(s.(ledger := Release(Take(s.ledger), i)),
           if s.main.wroteSegment then Truncating else EmptyWrite(ThenTruncate))
    else
      GoTo(s.(ledger := Take(s.ledger), link := Link(Sending(i), None, true, false)), Segment)
  }

  function DoMainEmptyWrite(s: State, ok: bool): State
    requires s.main.pc.EmptyWrite?
  {
    var next := Called(s, WriteNothing(ok));
    if !ok then GoTo(next, CancelInput(WriteFailed))
    else if s.main.pc.next.ThenReturn? then GoTo(next, Returned(None))
    else next.(main := s.main.(pc := Truncating, wroteSegment := true))
  }

  function DoMainBoundary(s: State): State
    requires s.main.pc.AwaitBoundary? && s.link.boundary.Some?
  {
    var next := s.(link := s.link.(boundary := None, cancelled := true));
    if s.main.pc.writeFailed then GoTo(next, CancelInput(WriteFailed))
    else
      match s.link.boundary.value
      case Failed(cause) => GoTo(next, CancelInput(cause))
      case EndOfInput => GoTo(next, Returned(None))
      case AtTruncate => GoTo(next, Truncating)
  }

  /** A failed truncate may or may not have emptied the table. */
  function DoMainTruncate(s: State, ok: bool, emptied: bool): State {
    var next := Called(s, TruncateTable(ok));
    if ok then
      next.(main := s.main.(pc := Receive, truncated := true),
            writer := Writer(s.ledger.taken, s.ledger.taken, {}, multiset{}))
    else if emptied then GoTo(next.(writer := s.writer.(table := multiset{})), CancelInput(TruncateFailed))
    else GoTo(next, CancelInput(TruncateFailed))
  }

  function DoMainCancelInput(c: Call, s: State): State
    requires s.main.pc.CancelInput?
  {
    s.(main := s.main.(pc := Draining(s.main.pc.cause), inputCancelled := c.hasCancel))
  }

  function DoMainDrain(s: State): State
    requires s.main.pc.Draining?
  {
    if InputEnded(s) then GoTo(s, Returned(Some(s.main.pc.cause)))
    else s.(ledger := Release(Take(s.ledger), s.ledger.taken))
  }

  function DoMainDrainTimeout(s: State): State
    requires s.main.pc.Draining?
  {
    s.(main := s.main.(pc := Returned(Some(s.main.pc.cause)), timedOut := true))
  }

  /** The forwarder receives one item after the first, or the end of the input. */
  function DoForwarderReceive(c: Call, s: State): State
    requires Enabled(c, s, ForwarderReceive)
  {
    var i := s.ledger.taken;
    if InputEnded(s) then Forwarder(s, Announcing(EndOfInput))
    else if c.input[i].IsError() then
      Forwarder(s.(ledger := Release(Take(s.ledger), i)), Announcing(Failed(InputError(i))))
    else if c.input[i].IsTruncate() then
      Forwarder(s.(ledger := Release(Take(s.ledger), i)), Announcing(AtTruncate))
    else Forwarder(s.(ledger := Take(s.ledger)), Sending(i))
  }

  function DoForwarderCancelled(s: State): State {
    if s.link.pc.Sending? then
      Forwarder(s.(ledger := Release(s.ledger, s.link.pc.index)), Announcing(Failed(ContextCancelled)))
    else Forwarder(s, Announcing(Failed(ContextCancelled)))
  }

  function DoForwarderAnnounce(s: State): State
    requires s.link.pc.Announcing?
  {
    s.(link := s.link.(boundary := Some(s.link.pc.boundary), pc := Closing))
  }

  function DoForwarderClose(s: State): State {
    s.(link := s.link.(segmentOpen := false, pc := Exited))
  }

  function DoWriterTake(s: State): State
    requires s.link.pc.Sending?
  {
    var i := s.link.pc.index;
    Forwarder(s.(ledger := s.ledger.(handed := s.ledger.handed + multiset{i}),
                 writer := s.writer.(hi := i + 1, buffered := s.writer.buffered + {i})), Receiving)
  }

  function DoWriterFlush(c: Call, s: State, index: nat): State
    requires index < |c.input|
  {
    s.(writer := s.writer.(table := s.writer.table + c.input[index].Rows(),
                           buffered := s.writer.buffered - {index}))
  }

  /** After an error the segment context is cancelled before the boundary is awaited. */
  function DoWriterDone(s: State, failed: bool): State {
    Called(s, WriteSegment(s.writer.lo, s.writer.hi, !failed)).(
      main := s.main.(pc := AwaitBoundary(failed), wroteSegment := true),
      link := s.link.(cancelled := s.link.cancelled || failed))
  }

  function Do(c: Call, s: State, step: Step): State
    requires Enabled(c, s, step)
  {
    match step
    case ProducerSend => s.(producer := s.producer.(sent := s.producer.sent + 1))
    case ProducerClose => s.(producer := s.producer.(closed := true))
    case ContextCancel => s.(producer := s.producer.(cancelled := true))
    case MainReceive => DoMainReceive(c, s)
    case MainEmptyWrite(ok) => DoMainEmptyWrite(s, ok)
    case MainBoundary => DoMainBoundary(s)
    case MainTruncate(ok, emptied) => DoMainTruncate(s, ok, emptied)
    case MainCancelInput => DoMainCancelInput(c, s)
    case MainDrain => DoMainDrain(s)
    case MainDrainTimeout => DoMainDrainTimeout(s)
    case ForwarderReceive => DoForwarderReceive(c, s)
    case ForwarderCancelled => DoForwarderCancelled(s)
    case ForwarderAnnounce => DoForwarderAnnounce(s)
    case ForwarderClose => DoForwarderClose(s)
    case WriterTake => DoWriterTake(s)
    case WriterFlush(index) => DoWriterFlush(c, s, index)
    case WriterReturn => DoWriterDone(s, false)
    case WriterFail => DoWriterDone(s, true)
  }

  ghost predicate Next(c: Call, s: State, t: State) {
    exists step :: Enabled(c, s, step) && t == Do(c, s, step)
  }

  /** A run: any number of steps from the start, in any interleaving. */
  ghost predicate IsRun(c: Call, run: seq<State>) {
    && |run| > 0 && run[0] == Start(c)
    && forall i :: 0 <= i < |run| - 1 ==> Next(c, run[i], run[i + 1])
  }
}
