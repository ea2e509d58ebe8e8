/**
 The persistence queue of one job: a slice with a moving head that drops its oldest entry when
 the writer falls behind and later says how many it dropped.
 */
module LogSinks {

  datatype LogEntry = LogEntry(at: int, level: string, message: string)

  const BLANK := LogEntry(0, "", "")

  const MAX_PENDING := 10_000
  const COMPACT_AFTER := 1024

  /** What reaches the file: an entry, or a warning that `skipped` entries are missing here. */
  datatype Persisted = Line(entry: LogEntry) | Skipped(at: int, skipped: nat)

  // ---------------------------------------------------------------------------
  // Specification
  // ---------------------------------------------------------------------------

  /** `dropped` entries are missing before the first pending one. */
  datatype Queue = Queue(pending: seq<LogEntry>, dropped: nat, droppedAt: int, closed: bool)

  const EMPTY := Queue([], 0, 0, false)

  datatype Outcome = Blocked | Got(out: Persisted) | Done

  function Enqueued(q: Queue, entry: LogEntry): Queue {
    if q.closed then q
    else if |q.pending| < MAX_PENDING then q.(pending := q.pending + [entry])
    else q.(pending := q.pending[1..] + [entry], dropped := q.dropped + 1, droppedAt := entry.at)
  }

  /** The zero time stands for no time. */
  function WarningTime(droppedAt: int, now: int): int { if droppedAt == 0 then now else droppedAt }

  function Taken(q: Queue, now: int): (Outcome, Queue) {
    if q.dropped > 0 then
      (Got(Skipped(WarningTime(q.droppedAt, now), q.dropped)), q.(dropped := 0, droppedAt := 0))
    else if q.pending != [] then (Got(Line(q.pending[0])), q.(pending := q.pending[1..]))
    else if q.closed then (Done, q)
    else (Blocked, q)
  }

  // ---------------------------------------------------------------------------
  // Implementation
  // ---------------------------------------------------------------------------

  class LogSink {
    var entries: seq<LogEntry>
    var head: nat
    var dropped: nat
    var droppedAt: int
    var closed: bool

    /** The consumed part of the slice is small, or less than half of it. */
    ghost predicate Valid()
      reads this
    {
      && head <= |entries|
      && (head <= COMPACT_AFTER || 2 * head < |entries|)
      && |entries| - head <= MAX_PENDING
    }

    ghost function Contents(): Queue
      reads this
      requires Valid()
    {
      Queue(entries[head..], dropped, droppedAt, closed)
    }

    constructor ()
      ensures Valid() && Contents() == EMPTY
    {
      entries, head, dropped, droppedAt, closed := [], 0, 0, 0, false;
    }

    function Pending(): (n: nat)
      reads this
      requires Valid()
      ensures n == |Contents().pending|
    {
      |entries| - head
    }

    /** The slice never grows to twice the number of entries it may hold. */
    lemma {:induction false} StaysSmall()
      requires Valid()
      ensures |entries| < 2 * MAX_PENDING
    {
    }

    method Compact()
      requires head <= |entries| && |entries| - head <= MAX_PENDING
      modifies this`entries, this`head
      ensures Valid() && entries[head..] == old(entries[head..])
    {
      if head > COMPACT_AFTER && head * 2 >= |entries| {
        entries := entries[head..];
        head := 0;
      }
    }

    method DropOldest()
      requires Valid()
      modifies this`entries, this`head
      ensures Valid()
      ensures Contents() == old(Contents()).(
                pending := if old(Contents()).pending == [] then [] else old(Contents()).pending[1..])
    {
      if Pending() == 0 {
        return;
      }
      ghost var was := entries;
      entries := entries[head := BLANK];
      head := head + 1;
      assert entries[head..] == was[old(head)..][1..];
      Compact();
    }

    method Enqueue(entry: LogEntry)
      requires Valid()
      modifies this
      ensures Valid() && Contents() == Enqueued(old(Contents()), entry)
    {
      if closed {
        return;
      }
      if Pending() >= MAX_PENDING {
        DropOldest();
        dropped := dropped + 1;
        droppedAt := entry.at;
      }
      ghost var before := entries[head..];
      entries := entries + [entry];
      assert entries[head..] == before + [entry];
    }

    /** One attempt to take an entry; a blocked caller waits for a signal and tries again. */
    method Next(now: int) returns (outcome: Outcome)
      requires Valid()
      modifies this
      ensures Valid() && (outcome, Contents()) == Taken(old(Contents()), now)
    {
      if Pending() == 0 && dropped == 0 && !closed {
        return Blocked;
      }
      if dropped > 0 {
        outcome := Got(Skipped(WarningTime(droppedAt, now), dropped));
        dropped, droppedAt := 0, 0;
        return;
      }
      if Pending() == 0 {
        return Done;
      }
      ghost var was := entries;
      outcome := Got(Line(entries[head]));
      entries := entries[head := BLANK];
      head := head + 1;
      assert entries[head..] == was[old(head)..][1..];
      Compact();
    }

    method Close()
      requires Valid()
      modifies this`closed
      ensures Valid() && Contents() == old(Contents()).(closed := true)
    {
      closed := true;
    }

    /** The persisting goroutine after the close: it writes what is left and stops. */
    method Drain(now: int) returns (written: seq<Persisted>)
      requires Valid() && closed
      modifies this
      ensures Valid() && Contents() == Queue([], 0, Contents().droppedAt, true)
      ensures Unstamped(written) == Unstamped(Remaining(old(Contents())))
    {
      written := [];
      while true
        invariant Valid() && closed
        invariant Unstamped(written + Remaining(Contents())) == Unstamped(Remaining(old(Contents())))
        decreases |entries| - head + dropped
      {
        ghost var before := Contents();
        var outcome := Next(now);
        RemainingStep(before, now);
        if outcome.Done? {
          assert written + Remaining(Contents()) == written;
          return;
        }
        ghost var out := if outcome.Got? then [outcome.out] else [];
        UnstampedAppend(written, out + Remaining(Contents()));
        UnstampedAppend(written, Remaining(before));
        assert written + (out + Remaining(Contents())) == (written + out) + Remaining(Contents());
        if outcome.Got? { written := written + [outcome.out]; }
      }
    }
  }

  // ---------------------------------------------------------------------------
  // What is still to be written
  // ---------------------------------------------------------------------------

  ghost function Lines(entries: seq<LogEntry>): seq<Persisted> {
    seq(|entries|, i requires 0 <= i < |entries| => Line(entries[i]))
  }

  /** A gap of no entries is not reported. */
  ghost function Gap(at: int, n: nat): seq<Persisted> { if n == 0 then [] else [Skipped(at, n)] }

  ghost function Remaining(q: Queue): seq<Persisted> { Gap(q.droppedAt, q.dropped) + Lines(q.pending) }

  /** Warnings compared without their time. */
  ghost function Unstamped(outs: seq<Persisted>): seq<Persisted> {
    seq(|outs|, i requires 0 <= i < |outs| =>
      if outs[i].Skipped? then outs[i].(at := 0) else outs[i])
  }

  lemma {:induction false} UnstampedAppend(a: seq<Persisted>, b: seq<Persisted>)
    ensures Unstamped(a + b) == Unstamped(a) + Unstamped(b)
  {
  }

  /** Taking moves the next item from what remains to what is written. */
  lemma {:induction false} RemainingStep(q: Queue, now: int)
    ensures var (outcome, next) := Taken(q, now);
            && Unstamped((if outcome.Got? then [outcome.out] else []) + Remaining(next))
               == Unstamped(Remaining(q))
            && (outcome.Done? ==> Remaining(next) == [])
  {
    if q.dropped == 0 && q.pending != [] {
      assert Lines(q.pending) == [Line(q.pending[0])] + Lines(q.pending[1..]);
    }
  }
}
