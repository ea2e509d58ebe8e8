/**
 The job manager with its persistence sinks. A broadcast hands its entry to the sink of the job
 at its end, a close takes the sink out of the table and closes it, and the persisting goroutine
 takes entries from it at any time, whoever holds the mutex.
 */
module JobSinks {
  import opened LogSinks
  import C = LogConservation
  import opened JobLogs
  import opened JobLogsProofs

  /**
   `from` is the number of entries broadcast for the job before the sink was attached, `until`
   their number when it was detached; both serve the proofs only.
   */
  datatype Sink = Sink(attached: bool, from: nat, until: nat, trace: C.Trace)

  datatype System = System(manager: Manager, sinks: map<JobId, Sink>)

  datatype SystemStep =
    | OfManager(step: Step)
    | Attach(job: JobId)                 // before the first broadcast of a job, or any later time
    | Persist(job: JobId, now: int)

  const INITIAL := System(START, map[])

  predicate EnabledS(s: System, step: SystemStep) {
    match step
    case OfManager(m) => Enabled(s.manager, m)
    case Attach(job) => job !in s.sinks && job !in s.manager.history.ended
    case Persist(job, _) => job in s.sinks
  }

  /** An entry reaches the sink when the broadcast of it has reached every subscriber. */
  predicate InFlight(m: Manager, job: JobId) {
    (m.holder.Fanning? || m.holder.Dropping? || m.holder.Warning?) && m.holder.job == job
  }

  function Attached(m: Manager, job: JobId): Sink {
    var n := |Past(m, job)|;
    Sink(true, if InFlight(m, job) && n > 0 then n - 1 else n, 0, C.Trace(EMPTY, [], []))
  }

  function SinkAfter(m: Manager, step: Step, job: JobId, sink: Sink): Sink {
    if step.EndBroadcast? && m.holder.Fanning? && m.holder.job == job && sink.attached then
      sink.(trace := C.Step(sink.trace, C.Enqueue(m.holder.entry)))
    else if step.EndClose? && m.holder.Closing? && m.holder.job == job && sink.attached then
      sink.(attached := false, until := |Past(m, job)|, trace := C.Step(sink.trace, C.Close))
    else sink
  }

  function DoS(s: System, step: SystemStep): System
    requires EnabledS(s, step)
  {
    match step
    case OfManager(m) =>
      System(Do(s.manager, m), map job | job in s.sinks :: SinkAfter(s.manager, m, job, s.sinks[job]))
    case Attach(job) => s.(sinks := s.sinks[job := Attached(s.manager, job)])
    case Persist(job, now) =>
      s.(sinks := s.sinks[job := s.sinks[job].(trace := C.Step(s.sinks[job].trace, C.Next(now)))])
  }

  ghost predicate NextS(s: System, t: System) {
    exists step :: EnabledS(s, step) && t == DoS(s, step)
  }

  ghost predicate IsSystemRun(run: seq<System>) {
    && |run| > 0 && run[0] == INITIAL
    && forall i :: 0 <= i < |run| - 1 ==> NextS(run[i], run[i + 1])
  }

  // ---------------------------------------------------------------------------
  // The invariant
  // ---------------------------------------------------------------------------

  /**
   A sink has accepted consecutive entries of its job: up to the present while it is attached, and
   up to the last one before it was detached from then on.
   */
  ghost predicate Holds(past: seq<LogEntry>, inFlight: bool, sink: Sink) {
    var accepted := sink.trace.accepted;
    && C.Conserves(sink.trace)
    && sink.from + |accepted| <= |past| && accepted == past[sink.from..sink.from + |accepted|]
    && (sink.attached ==>
          !sink.trace.queue.closed && sink.from + |accepted| + (if inFlight then 1 else 0) == |past|)
    && (!sink.attached ==> sink.from + |accepted| == sink.until)
  }

  ghost predicate GoodSink(m: Manager, job: JobId, sink: Sink) {
    Holds(Past(m, job), InFlight(m, job), sink)
  }

  ghost predicate GoodSystem(s: System) {
    && Inv(s.manager)
    && forall job :: job in s.sinks ==> GoodSink(s.manager, job, s.sinks[job])
  }

  /** What one step of the manager does to the entries of a job. */
  lemma {:induction false} PastAfter(m: Manager, step: Step, job: JobId)
    requires GoodHolder(m) && Enabled(m, step)
    ensures var t := Do(m, step);
            if step.BeginBroadcast? && step.job == job then
              Past(t, job) == Past(m, job) + [step.entry] && InFlight(t, job) && !InFlight(m, job)
            else
              Past(t, job) == Past(m, job)
              && (InFlight(t, job) <==> InFlight(m, job) && !step.EndBroadcast?)
  {
  }

  /** A broadcast that begins adds one entry the sink has yet to see. */
  lemma {:induction false} EntryBegins(past: seq<LogEntry>, entry: LogEntry, sink: Sink)
    requires Holds(past, false, sink)
    ensures Holds(past + [entry], true, sink)
  {
    var n := sink.from + |sink.trace.accepted|;
    assert (past + [entry])[sink.from..n] == past[sink.from..n];
  }

  /** A broadcast that ends hands that entry to an attached sink. */
  lemma {:induction false} EntryAccepted(past: seq<LogEntry>, entry: LogEntry, sink: Sink)
    requires past != [] && past[|past| - 1] == entry && sink.attached && Holds(past, true, sink)
    ensures Holds(past, false, sink.(trace := C.Step(sink.trace, C.Enqueue(entry))))
  {
    C.EnqueueConserves(sink.trace, entry);
    assert past[sink.from..|past|] == past[sink.from..|past| - 1] + [entry];
  }

  lemma {:induction false} SinkFollows(
    m: Manager, step: Step, job: JobId, sink: Sink, past: seq<LogEntry>, inFlight: bool)
    requires GoodHolder(m) && Enabled(m, step) && GoodSink(m, job, sink)
    requires if step.BeginBroadcast? && step.job == job then
               past == Past(m, job) + [step.entry] && inFlight && !InFlight(m, job)
             else
               past == Past(m, job) && (inFlight <==> InFlight(m, job) && !step.EndBroadcast?)
    ensures Holds(past, inFlight, SinkAfter(m, step, job, sink))
  {
    if step.BeginBroadcast? && step.job == job {
      EntryBegins(Past(m, job), step.entry, sink);
    } else if step.EndBroadcast? && m.holder.job == job && sink.attached {
      EntryAccepted(Past(m, job), m.holder.entry, sink);
    }
  }

  lemma {:induction false} SinkKeeps(m: Manager, step: Step, job: JobId, sink: Sink)
    requires GoodHolder(m) && Enabled(m, step) && GoodSink(m, job, sink)
    ensures GoodSink(Do(m, step), job, SinkAfter(m, step, job, sink))
  {
    PastAfter(m, step, job);
    SinkFollows(m, step, job, sink, Past(Do(m, step), job), InFlight(Do(m, step), job));
  }

  lemma {:induction false} SystemKeeps(s: System, step: SystemStep)
    requires GoodSystem(s) && EnabledS(s, step)
    ensures GoodSystem(DoS(s, step))
  {
    var t := DoS(s, step);
    if step.OfManager? { InvNext(s.manager, step.step); }
    forall job | job in t.sinks ensures GoodSink(t.manager, job, t.sinks[job]) {
      if step.OfManager? {
        SinkKeeps(s.manager, step.step, job, s.sinks[job]);
      } else if step.Attach? && job == step.job {
        NewSinkGood(s.manager, job);
      } else if step.Persist? && job == step.job {
        C.NextConserves(s.sinks[job].trace, step.now);
      }
    }
  }

  lemma {:induction false} NewSinkGood(m: Manager, job: JobId)
    requires GoodHolder(m)
    ensures GoodSink(m, job, Attached(m, job))
  {
    var sink := Attached(m, job);
    assert Remaining(EMPTY) == [];
    assert Past(m, job)[sink.from..sink.from] == [];
  }

  lemma {:induction false} SystemNext(s: System, t: System)
    requires GoodSystem(s) && NextS(s, t)
    ensures GoodSystem(t)
  {
    var step :| EnabledS(s, step) && t == DoS(s, step);
    SystemKeeps(s, step);
  }

  lemma {:induction false} SystemRunGood(run: seq<System>, i: nat)
    requires IsSystemRun(run) && i < |run|
    ensures GoodSystem(run[i])
  {
    if i > 0 {
      SystemRunGood(run, i - 1);
      assert NextS(run[i - 1], run[i - 1 + 1]);
      SystemNext(run[i - 1], run[i]);
    }
  }

  lemma {:induction false} SinkRunGood(run: seq<System>, i: nat, job: JobId)
    requires IsSystemRun(run) && i < |run| && job in run[i].sinks
    ensures GoodSink(run[i].manager, job, run[i].sinks[job])
  {
    SystemRunGood(run, i);
  }

  lemma {:induction false} HolderRunGood(run: seq<System>, i: nat)
    requires IsSystemRun(run) && i < |run|
    ensures GoodHolder(run[i].manager)
  {
    SystemRunGood(run, i);
  }

  // ---------------------------------------------------------------------------
  // Whole-job conservation
  // ---------------------------------------------------------------------------

  /** What a sink still has to persist, or to report. */
  ghost function Outstanding(sink: Sink): nat {
    sink.trace.queue.dropped + |sink.trace.queue.pending|
  }

  /**
   Every entry broadcast while the sink is attached is persisted, counted in a warning, or still
   to be persisted or reported, whatever the readers, subscribers and the persisting goroutine do.
   */
  lemma {:induction false} BroadcastsAreConserved(run: seq<System>, i: nat, job: JobId)
    requires IsSystemRun(run) && i < |run| && job in run[i].sinks
    ensures var sink, past := run[i].sinks[job], Past(run[i].manager, job);
            var n := C.LineCount(sink.trace.written) + C.SkippedCount(sink.trace.written) + Outstanding(sink);
            && sink.from + n <= |past|
            && sink.trace.accepted == past[sink.from..sink.from + n]
            && C.Explains(sink.trace.written + Remaining(sink.trace.queue), past[sink.from..sink.from + n])
            && (sink.attached && !InFlight(run[i].manager, job) ==> sink.from + n == |past|)
  {
    SinkRunGood(run, i, job);
    C.TraceCount(run[i].sinks[job].trace);
  }

  /**
   The persisting goroutine is told that the sink is done only once it is detached, and then the
   file explains every entry broadcast from the attaching to the detaching, to the last one.
   */
  lemma {:induction false} DrainedJobIsComplete(run: seq<System>, i: nat, job: JobId, now: int)
    requires IsSystemRun(run) && i < |run| && job in run[i].sinks
    requires Taken(run[i].sinks[job].trace.queue, now).0.Done?
    ensures var sink, past := run[i].sinks[job], Past(run[i].manager, job);
            && !sink.attached && sink.from <= sink.until <= |past|
            && sink.from + C.LineCount(sink.trace.written) + C.SkippedCount(sink.trace.written) == sink.until
            && C.Explains(sink.trace.written, past[sink.from..sink.until])
  {
    SinkRunGood(run, i, job);
    BroadcastsAreConserved(run, i, job);
    var sink := run[i].sinks[job];
    assert Remaining(sink.trace.queue) == [];
    assert sink.trace.written + Remaining(sink.trace.queue) == sink.trace.written;
  }

  // ---------------------------------------------------------------------------
  // In the program's own order of calls
  // ---------------------------------------------------------------------------

  /** Nothing is broadcast for a job once its logs have been closed. */
  ghost predicate InOrderS(s: System, step: SystemStep) {
    step.OfManager? && step.step.BeginBroadcast? ==> step.step.job !in s.manager.history.ended
  }

  ghost predicate NextInOrderS(s: System, t: System) {
    exists step :: EnabledS(s, step) && t == DoS(s, step) && InOrderS(s, step)
  }

  ghost predicate IsOrderlyRun(run: seq<System>) {
    && |run| > 0 && run[0] == INITIAL
    && forall i :: 0 <= i < |run| - 1 ==> NextInOrderS(run[i], run[i + 1])
  }

  lemma {:induction false} OrderlyIsRun(run: seq<System>)
    requires IsOrderlyRun(run)
    ensures IsSystemRun(run)
  {
    forall i | 0 <= i < |run| - 1 ensures NextS(run[i], run[i + 1]) {
      assert NextInOrderS(run[i], run[i + 1]);
    }
  }

  /** A detached sink belongs to a closed job and was handed the last of its entries. */
  ghost predicate SawTheLast(m: Manager, job: JobId, sink: Sink) {
    !sink.attached ==> job in m.history.ended && sink.until == |Past(m, job)|
  }

  lemma {:induction false} SinkSeesTheLast(m: Manager, step: Step, job: JobId, sink: Sink)
    requires GoodHolder(m) && Enabled(m, step) && SawTheLast(m, job, sink)
    requires step.BeginBroadcast? ==> step.job !in m.history.ended
    ensures SawTheLast(Do(m, step), job, SinkAfter(m, step, job, sink))
  {
    PastAfter(m, step, job);
  }

  ghost predicate AllSawTheLast(s: System) {
    forall job :: job in s.sinks ==> SawTheLast(s.manager, job, s.sinks[job])
  }

  lemma {:induction false} StepSeesTheLast(s: System, step: SystemStep)
    requires GoodHolder(s.manager) && AllSawTheLast(s) && EnabledS(s, step) && InOrderS(s, step)
    ensures AllSawTheLast(DoS(s, step))
  {
    var t := DoS(s, step);
    forall job | job in t.sinks ensures SawTheLast(t.manager, job, t.sinks[job]) {
      if step.OfManager? { SinkSeesTheLast(s.manager, step.step, job, s.sinks[job]); }
    }
  }

  lemma {:induction false} NextSeesTheLast(s: System, t: System)
    requires GoodHolder(s.manager) && AllSawTheLast(s) && NextInOrderS(s, t)
    ensures AllSawTheLast(t)
  {
    var step :| EnabledS(s, step) && t == DoS(s, step) && InOrderS(s, step);
    StepSeesTheLast(s, step);
  }

  lemma {:induction false} OrderlyStep(run: seq<System>, i: nat)
    requires IsOrderlyRun(run) && 0 < i < |run|
    ensures GoodHolder(run[i - 1].manager) && NextInOrderS(run[i - 1], run[i])
  {
    OrderlyIsRun(run);
    HolderRunGood(run, i - 1);
    assert NextInOrderS(run[i - 1], run[i - 1 + 1]);
  }

  lemma {:induction false} DetachedSawTheLast(run: seq<System>, i: nat)
    requires IsOrderlyRun(run) && i < |run|
    ensures AllSawTheLast(run[i])
  {
    if i > 0 {
      DetachedSawTheLast(run, i - 1);
      OrderlyStep(run, i);
      NextSeesTheLast(run[i - 1], run[i]);
    }
  }

  /**
   With nothing broadcast after the close a drained file explains everything ever broadcast for
   the job from the attaching on: the whole job if the sink was attached before the first entry.
   */
  lemma {:induction false} DrainedJobIsWhole(run: seq<System>, i: nat, job: JobId, now: int)
    requires IsOrderlyRun(run) && i < |run| && job in run[i].sinks
    requires Taken(run[i].sinks[job].trace.queue, now).0.Done?
    ensures var sink, past := run[i].sinks[job], Past(run[i].manager, job);
            && sink.from <= |past| && C.Explains(sink.trace.written, past[sink.from..])
            && (sink.from == 0 ==>
                  && C.Explains(sink.trace.written, past)
                  && C.LineCount(sink.trace.written) + C.SkippedCount(sink.trace.written) == |past|)
  {
    var past := Past(run[i].manager, job);
    OrderlyIsRun(run);
    DrainedJobIsComplete(run, i, job, now);
    DetachedSawTheLast(run, i);
    assert past[0..] == past && past[run[i].sinks[job].from..|past|] == past[run[i].sinks[job].from..];
  }
}
