/**
 Whole-job conservation: what is persisted, with the gaps the warnings announce, is what was
 enqueued, whatever the interleaving of the enqueuing and the persisting side.
 */
module LogConservation {
  import opened LogSinks

  // ---------------------------------------------------------------------------
  // Runs of the queue
  // ---------------------------------------------------------------------------

  datatype Op = Enqueue(entry: LogEntry) | Next(now: int) | Close

  /** The queue, everything taken from it so far, and everything it accepted so far. */
  datatype Trace = Trace(queue: Queue, written: seq<Persisted>, accepted: seq<LogEntry>)

  function Step(t: Trace, op: Op): Trace {
    match op
    case Enqueue(entry) =>
      Trace(Enqueued(t.queue, entry), t.written, if t.queue.closed then t.accepted else t.accepted + [entry])
    case Next(now) =>
      var (outcome, next) := Taken(t.queue, now);
      Trace(next, t.written + (if outcome.Got? then [outcome.out] else []), t.accepted)
    case Close => t.(queue := t.queue.(closed := true))
  }

  function Run(ops: seq<Op>): Trace {
    if ops == [] then Trace(EMPTY, [], [])
    else Step(Run(ops[..|ops| - 1]), ops[|ops| - 1])
  }

  // ---------------------------------------------------------------------------
  // Reading a stream with gaps
  // ---------------------------------------------------------------------------

  /** A line stands for the next entry, a warning for as many entries as it says. */
  ghost predicate Explains(outs: seq<Persisted>, entries: seq<LogEntry>) {
    if outs == [] then entries == []
    else
      match outs[0]
      case Line(entry) => entries != [] && entries[0] == entry && Explains(outs[1..], entries[1..])
      case Skipped(_, n) => 0 < n <= |entries| && Explains(outs[1..], entries[n..])
  }

  lemma {:induction false} ExplainsOneMore(outs: seq<Persisted>, entries: seq<LogEntry>, entry: LogEntry)
    requires Explains(outs, entries)
    ensures Explains(outs + [Line(entry)], entries + [entry])
  {
    var more, all := outs + [Line(entry)], entries + [entry];
    if outs == [] {
      assert more[1..] == [] && all[1..] == [];
    } else {
      var n := if outs[0].Line? then 1 else outs[0].skipped;
      ExplainsOneMore(outs[1..], entries[n..], entry);
      assert more[1..] == outs[1..] + [Line(entry)] && all[n..] == entries[n..] + [entry];
    }
  }

  /** A dropped entry joins the gap before it. */
  lemma {:induction false} GapGrows(
    a: seq<Persisted>, n: nat, at: int, at': int, p: LogEntry, b: seq<Persisted>, entries: seq<LogEntry>)
    requires Explains(a + Gap(at, n) + [Line(p)] + b, entries)
    ensures Explains(a + Gap(at', n + 1) + b, entries)
  {
    var was, now := a + Gap(at, n) + [Line(p)] + b, a + Gap(at', n + 1) + b;
    if a == [] {
      assert now[1..] == b;
      if n == 0 {
        assert was[1..] == b;
      } else {
        assert was[1..][1..] == b;
        assert entries[n..][1..] == entries[n + 1..];
      }
    } else {
      var k := if a[0].Line? then 1 else a[0].skipped;
      assert was[1..] == a[1..] + Gap(at, n) + [Line(p)] + b;
      assert now[1..] == a[1..] + Gap(at', n + 1) + b;
      GapGrows(a[1..], n, at, at', p, b, entries[k..]);
    }
  }

  /** The time of a warning does not matter. */
  lemma {:induction false} ExplainsUnstamped(a: seq<Persisted>, b: seq<Persisted>, entries: seq<LogEntry>)
    requires Unstamped(a) == Unstamped(b) && Explains(a, entries)
    ensures Explains(b, entries)
  {
    assert |a| == |Unstamped(a)| == |b|;
    if a != [] {
      assert Unstamped(a)[0] == Unstamped(b)[0];
      var n := if a[0].Line? then 1 else a[0].skipped;
      assert Unstamped(a[1..]) == Unstamped(a)[1..] == Unstamped(b)[1..] == Unstamped(b[1..]);
      ExplainsUnstamped(a[1..], b[1..], entries[n..]);
    }
  }

  // ---------------------------------------------------------------------------
  // The invariant
  // ---------------------------------------------------------------------------

  ghost predicate Conserves(t: Trace) {
    && |t.queue.pending| <= MAX_PENDING
    && Explains(t.written + Remaining(t.queue), t.accepted)
  }

  lemma {:induction false} EnqueueConserves(t: Trace, entry: LogEntry)
    requires Conserves(t)
    ensures Conserves(Step(t, Enqueue(entry)))
  {
    var q, q' := t.queue, Enqueued(t.queue, entry);
    if !q.closed {
      ExplainsOneMore(t.written + Remaining(q), t.accepted, entry);
      var lines := Lines(q.pending + [entry]);
      assert lines == Lines(q.pending) + [Line(entry)];
      var gap := Gap(q.droppedAt, q.dropped);
      assert (t.written + Remaining(q)) + [Line(entry)] == t.written + (gap + lines);
      if |q.pending| >= MAX_PENDING {
        var rest := Lines(q'.pending);
        assert lines == [Line(q.pending[0])] + rest;
        assert t.written + (gap + lines) == t.written + gap + [Line(q.pending[0])] + rest;
        GapGrows(t.written, q.dropped, q.droppedAt, entry.at, q.pending[0], rest, t.accepted + [entry]);
        assert t.written + Gap(entry.at, q.dropped + 1) + rest == t.written + Remaining(q');
      }
    }
  }

  lemma {:induction false} NextConserves(t: Trace, now: int)
    requires Conserves(t)
    ensures Conserves(Step(t, Next(now)))
  {
    var (outcome, next) := Taken(t.queue, now);
    var out := if outcome.Got? then [outcome.out] else [];
    RemainingStep(t.queue, now);
    UnstampedAppend(t.written, out + Remaining(next));
    UnstampedAppend(t.written, Remaining(t.queue));
    assert t.written + (out + Remaining(next)) == (t.written + out) + Remaining(next);
    ExplainsUnstamped(t.written + Remaining(t.queue), (t.written + out) + Remaining(next), t.accepted);
  }

  /** In every reachable state the written stream and what remains explain what was accepted. */
  lemma {:induction false} RunConserves(ops: seq<Op>)
    ensures Conserves(Run(ops))
  {
    if ops == [] {
      assert Remaining(EMPTY) == [];
    } else {
      var t, op := Run(ops[..|ops| - 1]), ops[|ops| - 1];
      RunConserves(ops[..|ops| - 1]);
      if op.Enqueue? {
        EnqueueConserves(t, op.entry);
      } else if op.Next? {
        NextConserves(t, op.now);
      }
    }
  }

  // ---------------------------------------------------------------------------
  // Conservation and order
  // ---------------------------------------------------------------------------

  function LineCount(outs: seq<Persisted>): nat {
    if outs == [] then 0 else (if outs[0].Line? then 1 else 0) + LineCount(outs[1..])
  }

  function SkippedCount(outs: seq<Persisted>): nat {
    if outs == [] then 0 else (if outs[0].Skipped? then outs[0].skipped else 0) + SkippedCount(outs[1..])
  }

  /** Position in the enqueued entries at which item k of the stream belongs. */
  function Position(outs: seq<Persisted>, k: nat): nat
    requires k <= |outs|
  {
    LineCount(outs[..k]) + SkippedCount(outs[..k])
  }

  lemma {:induction false} ExplainsCount(outs: seq<Persisted>, entries: seq<LogEntry>)
    requires Explains(outs, entries)
    ensures LineCount(outs) + SkippedCount(outs) == |entries|
  {
    if outs != [] {
      ExplainsCount(outs[1..], entries[if outs[0].Line? then 1 else outs[0].skipped..]);
    }
  }

  lemma {:induction false} CountAppend(a: seq<Persisted>, b: seq<Persisted>)
    ensures LineCount(a + b) == LineCount(a) + LineCount(b)
    ensures SkippedCount(a + b) == SkippedCount(a) + SkippedCount(b)
  {
    if a == [] {
      assert a + b == b;
    } else {
      assert (a + b)[1..] == a[1..] + b;
      CountAppend(a[1..], b);
    }
  }

  lemma {:induction false} ExplainsAt(outs: seq<Persisted>, entries: seq<LogEntry>, k: nat)
    requires Explains(outs, entries) && k < |outs| && outs[k].Line?
    ensures Position(outs, k) < |entries| && outs[k].entry == entries[Position(outs, k)]
  {
    if k > 0 {
      var n := if outs[0].Line? then 1 else outs[0].skipped;
      assert outs[..k][1..] == outs[1..][..k - 1];
      ExplainsAt(outs[1..], entries[n..], k - 1);
    }
  }

  /** Later lines come from strictly later positions: what is persisted is a subsequence. */
  lemma {:induction false} PositionsIncrease(outs: seq<Persisted>, j: nat, k: nat)
    requires j < k <= |outs|
    ensures Position(outs, j) + (if outs[j].Line? then 1 else outs[j].skipped) <= Position(outs, k)
  {
    assert outs[..k] == outs[..j] + outs[j..k];
    CountAppend(outs[..j], outs[j..k]);
    assert outs[j..k][0] == outs[j];
  }

  lemma {:induction false} LinesCount(entries: seq<LogEntry>)
    ensures LineCount(Lines(entries)) == |entries| && SkippedCount(Lines(entries)) == 0
  {
    if entries != [] {
      assert Lines(entries)[1..] == Lines(entries[1..]);
      LinesCount(entries[1..]);
    }
  }

  lemma {:induction false} TraceCount(t: Trace)
    requires Conserves(t)
    ensures LineCount(t.written) + SkippedCount(t.written) + t.queue.dropped + |t.queue.pending|
         == |t.accepted|
  {
    ExplainsCount(t.written + Remaining(t.queue), t.accepted);
    CountAppend(t.written, Remaining(t.queue));
    CountAppend(Gap(t.queue.droppedAt, t.queue.dropped), Lines(t.queue.pending));
    LinesCount(t.queue.pending);
    if t.queue.dropped > 0 {
      var gap := Gap(t.queue.droppedAt, t.queue.dropped);
      assert gap[1..] == [];
    }
  }

  /** Nothing is lost silently: lines written, lines reported missing and lines still held add up. */
  lemma {:induction false} LogsAreConserved(ops: seq<Op>)
    ensures var t := Run(ops);
            LineCount(t.written) + SkippedCount(t.written) + t.queue.dropped + |t.queue.pending|
            == |t.accepted|
  {
    RunConserves(ops);
    TraceCount(Run(ops));
  }

  /** Entries are dropped only beyond the 10,000 that may be pending: a shorter log is written whole. */
  lemma {:induction false} LossIsBounded(ops: seq<Op>)
    ensures var t := Run(ops);
            var lost := SkippedCount(t.written) + t.queue.dropped;
            lost > 0 ==> lost + 10_000 <= |t.accepted|
  {
    if ops != [] {
      var t, op := Run(ops[..|ops| - 1]), ops[|ops| - 1];
      LossIsBounded(ops[..|ops| - 1]);
      RunConserves(ops[..|ops| - 1]);
      TraceCount(t);
      if op.Next? {
        var (outcome, next) := Taken(t.queue, op.now);
        CountAppend(t.written, if outcome.Got? then [outcome.out] else []);
      }
    }
  }

  /** Each persisted line is the accepted entry at its own position, whatever was skipped before. */
  lemma {:induction false} PersistedInOrder(ops: seq<Op>, k: nat)
    requires k < |Run(ops).written| && Run(ops).written[k].Line?
    ensures var t := Run(ops);
            Position(t.written, k) < |t.accepted| && t.written[k].entry == t.accepted[Position(t.written, k)]
  {
    RunConserves(ops);
    var t := Run(ops);
    ExplainsAt(t.written + Remaining(t.queue), t.accepted, k);
    assert (t.written + Remaining(t.queue))[..k] == t.written[..k];
  }

  /** Once the reader is told the sink is done, the file explains everything that was accepted. */
  lemma {:induction false} DrainedIsComplete(ops: seq<Op>, now: int)
    requires Taken(Run(ops).queue, now).0.Done?
    ensures Explains(Run(ops).written, Run(ops).accepted)
  {
    RunConserves(ops);
    var t := Run(ops);
    assert t.written + Remaining(t.queue) == t.written;
  }

  /** What is accepted is what was enqueued before the first close. */
  ghost function EnqueuedBeforeClose(ops: seq<Op>): seq<LogEntry> {
    if ops == [] then []
    else
      var before, op := EnqueuedBeforeClose(ops[..|ops| - 1]), ops[|ops| - 1];
      if op.Enqueue? && Close !in ops[..|ops| - 1] then before + [op.entry] else before
  }

  lemma {:induction false} AcceptedUntilClose(ops: seq<Op>)
    ensures Run(ops).queue.closed <==> Close in ops
    ensures Run(ops).accepted == EnqueuedBeforeClose(ops)
  {
    if ops != [] {
      AcceptedUntilClose(ops[..|ops| - 1]);
      assert ops == ops[..|ops| - 1] + [ops[|ops| - 1]];
    }
  }
}
