/** What one runner does with its entities: which windows it asks for, and which watermarks it moves. */
module RunnerProgress {
  import opened Wrappers
  import opened Runner
  import opened RunnerProofs

  // ---------------------------------------------------------------------------
  // Reference
  // ---------------------------------------------------------------------------

  /** The entity is in the chosen group, and its budget allows it. */
  predicate IsDue(p: Process, e: Entity) {
    (p.schedule.None? || e.group == p.schedule.value) && (e.critical || !p.overBudget)
  }

  /** One of the first k entities fetched this table with success. */
  ghost predicate Advanced(p: Process, table: Table, k: nat) {
    exists j: nat :: j < k && j < |p.config| && p.config[j].table == table && IsDue(p, p.config[j]) && j !in p.failed
  }

  ghost predicate MarkedUpTo(p: Process, k: nat) {
    forall table ::
      && (table in p.marks <==> table in p.loaded || Advanced(p, table, k))
      && (table in p.marks ==> p.marks[table] == if Advanced(p, table, k) then p.now else p.loaded[table])
  }

  /** From `start` less the overlap on, in whole seconds; the zero time would be no bound. */
  predicate StartsAt(from: Option<Time>, start: Time, overlap: Time) {
    if start == overlap then from.None?
    else from.Some? && start - overlap - 1_000_000_000 < from.value <= start - overlap
  }

  /** From the watermark, else from the seed that was found, else from the beginning. */
  predicate RightWindow(settings: Settings, marks: Watermarks, e: Entity, seed: Option<Time>, window: Window) {
    if !e.incremental then window.from.None?
    else if e.table in marks then StartsAt(window.from, marks[e.table], settings.overlap)
    else if seed.Some? then StartsAt(window.from, seed.value, settings.overlap)
    else window.from.None?
  }

  // ---------------------------------------------------------------------------
  // The invariant, one process at a time
  // ---------------------------------------------------------------------------

  ghost predicate Positive(marks: Watermarks) { forall table :: table in marks ==> marks[table] > ZERO }

  ghost predicate ProcessOk(settings: Settings, clock: Time, p: Process) {
    match p.pc
    case Loaded => p.marks == p.loaded && p.failed == {}
    case Locked => p.marks == p.loaded && p.failed == {}
    case Entities(k) => k <= |p.config| && MarkedUpTo(p, k) && forall j :: j in p.failed ==> j < k
    case Fetching(k, window, seed) =>
      && k < |p.config| && IsDue(p, p.config[k]) && MarkedUpTo(p, k) && (forall j :: j in p.failed ==> j < k)
      && (seed.None? || seed == SeedOf(settings, p.config[k].table))
      && RightWindow(settings, p.marks, p.config[k], seed, window)
      && p.now - 1_000_000_000 < window.to <= clock
    case Saving(k) => k < |p.config| && MarkedUpTo(p, k + 1) && forall j :: j in p.failed ==> j <= k
    case LastSave => MarkedUpTo(p, |p.config|)
    case Releasing => MarkedUpTo(p, |p.config|)
    case Exited => true
    case Crashed => true
  }

  /** Before the first entity nothing has moved. */
  lemma {:induction false} NothingMoved(p: Process)
    requires p.marks == p.loaded
    ensures MarkedUpTo(p, 0)
  {
  }

  /** An entity that is not due, or whose command failed, moves nothing. */
  lemma {:induction false} NoneMoved(p: Process, q: Process, k: nat)
    requires MarkedUpTo(p, k) && k < |p.config| && (forall j :: j in p.failed ==> j < k)
    requires q == p.(pc := q.pc, failed := q.failed)
    requires (q.failed == p.failed && !IsDue(p, p.config[k])) || q.failed == p.failed + {k}
    ensures MarkedUpTo(q, k + 1)
  {
    forall table ensures Advanced(q, table, k + 1) <==> Advanced(p, table, k) {
      if j: nat :| j < k && j < |p.config| && p.config[j].table == table && IsDue(p, p.config[j]) && j !in p.failed {
        assert j !in q.failed && IsDue(q, q.config[j]);
      }
      if j: nat :| j < k + 1 && j < |q.config| && q.config[j].table == table && IsDue(q, q.config[j])
                   && j !in q.failed {
        assert j < k && IsDue(p, p.config[j]);
      }
    }
  }

  /** One that succeeds moves the watermark of its table. */
  lemma {:induction false} OneMoved(p: Process, q: Process, k: nat)
    requires MarkedUpTo(p, k) && k < |p.config| && (forall j :: j in p.failed ==> j < k) && IsDue(p, p.config[k])
    requires q == p.(pc := q.pc, marks := p.marks[p.config[k].table := p.now])
    ensures MarkedUpTo(q, k + 1)
  {
    var t := p.config[k].table;
    assert IsDue(q, q.config[k]) && k !in q.failed;
    assert Advanced(q, t, k + 1);
    forall table | table != t ensures Advanced(q, table, k + 1) <==> Advanced(p, table, k) {
      if j: nat :| j < k && j < |p.config| && p.config[j].table == table && IsDue(p, p.config[j]) && j !in p.failed {
        assert IsDue(q, q.config[j]);
      }
      if j: nat :| j < k + 1 && j < |q.config| && q.config[j].table == table && IsDue(q, q.config[j])
                   && j !in q.failed {
        assert j < k && IsDue(p, p.config[j]);
      }
    }
  }

  lemma {:induction false} SamePlace(p: Process, q: Process, k: nat)
    requires MarkedUpTo(p, k) && q == p.(pc := q.pc)
    ensures MarkedUpTo(q, k)
  {
    forall table ensures Advanced(q, table, k) <==> Advanced(p, table, k) {
      if j: nat :| j < k && j < |p.config| && p.config[j].table == table && IsDue(p, p.config[j]) && j !in p.failed {
        assert IsDue(q, q.config[j]);
      }
      if j: nat :| j < k && j < |q.config| && q.config[j].table == table && IsDue(q, q.config[j]) && j !in q.failed {
        assert IsDue(p, p.config[j]);
      }
    }
  }

  lemma {:induction false} FloorWithin(t: Time)
    ensures t - 1_000_000_000 < FloorSecond(t) <= t
  {
  }

  lemma {:induction false} WindowIsRight(
    settings: Settings, marks: Watermarks, e: Entity, seed: Option<Time>, clock: Time)
    requires Positive(marks)
    ensures var start := ComputeIntervalStart(WatermarkOf(marks, e.table), seed, settings.overlap);
            var window := WindowOf(e, start, clock);
            RightWindow(settings, marks, e, seed, window) && clock - 1_000_000_000 < window.to <= clock
  {
    FloorWithin(clock);
    FloorWithin(ComputeIntervalStart(WatermarkOf(marks, e.table), seed, settings.overlap));
  }

  lemma {:induction false} BeginOk(settings: Settings, w: World, r: RunnerId, seedRead: bool)
    requires Enabled(w, Begin(r, seedRead)) && ProcessOk(settings, w.clock, w.runners[r])
    requires Positive(w.runners[r].marks) && w.runners[r].now <= w.clock
    ensures ProcessOk(settings, w.clock, DoBegin(settings, w, r, seedRead).runners[r])
  {
    var p := w.runners[r];
    var e := p.config[p.pc.next];
    var seed := if seedRead then SeedOf(settings, e.table) else None;
    WindowIsRight(settings, p.marks, e, seed, w.clock);
    SamePlace(p, DoBegin(settings, w, r, seedRead).runners[r], p.pc.next);
  }

  lemma {:induction false} SucceedOk(settings: Settings, w: World, r: RunnerId)
    requires Enabled(w, Succeed(r)) && ProcessOk(settings, w.clock, w.runners[r])
    ensures ProcessOk(settings, w.clock, DoSucceed(w, r).runners[r])
  {
    OneMoved(w.runners[r], DoSucceed(w, r).runners[r], w.runners[r].pc.at);
  }

  lemma {:induction false} FailOk(settings: Settings, w: World, r: RunnerId)
    requires Enabled(w, Fail(r)) && ProcessOk(settings, w.clock, w.runners[r])
    ensures ProcessOk(settings, w.clock, DoFail(w, r).runners[r])
  {
    NoneMoved(w.runners[r], DoFail(w, r).runners[r], w.runners[r].pc.at);
  }

  lemma {:induction false} SkipOk(settings: Settings, w: World, r: RunnerId)
    requires Enabled(w, Skip(r)) && ProcessOk(settings, w.clock, w.runners[r])
    ensures ProcessOk(settings, w.clock, GoTo(w, r, Entities(w.runners[r].pc.next + 1)).runners[r])
  {
    var k := w.runners[r].pc.next;
    NoneMoved(w.runners[r], GoTo(w, r, Entities(k + 1)).runners[r], k);
  }

  lemma {:induction false} SaveOk(settings: Settings, w: World, r: RunnerId, ok: bool)
    requires Enabled(w, Save(r, ok)) && ProcessOk(settings, w.clock, w.runners[r])
    ensures ProcessOk(settings, w.clock, DoSave(w, r, ok, Entities(w.runners[r].pc.at + 1)).runners[r])
  {
    var k := w.runners[r].pc.at;
    SamePlace(w.runners[r], DoSave(w, r, ok, Entities(k + 1)).runners[r], k + 1);
  }

  lemma {:induction false} LastOk(settings: Settings, w: World, r: RunnerId, ok: bool)
    requires r in w.runners && ProcessOk(settings, w.clock, w.runners[r])
    ensures Enabled(w, EndOfEntities(r)) ==> ProcessOk(settings, w.clock, GoTo(w, r, LastSave).runners[r])
    ensures Enabled(w, FinalSave(r, ok)) ==> ProcessOk(settings, w.clock, DoSave(w, r, ok, Releasing).runners[r])
  {
    var p := w.runners[r];
    if p.pc.Entities? && p.pc.next == |p.config| { SamePlace(p, GoTo(w, r, LastSave).runners[r], |p.config|); }
    if p.pc.LastSave? { SamePlace(p, DoSave(w, r, ok, Releasing).runners[r], |p.config|); }
  }

  lemma {:induction false} ReadClockOk(settings: Settings, w: World, r: RunnerId, overBudget: bool)
    requires Enabled(w, ReadClock(r, overBudget)) && ProcessOk(settings, w.clock, w.runners[r])
    ensures ProcessOk(settings, w.clock, DoReadClock(w, r, overBudget).runners[r])
  {
    NothingMoved(DoReadClock(w, r, overBudget).runners[r]);
  }

  predicate Concerns(step: Step, r: RunnerId) { !step.Tick? && !step.RemoveStaleLock? && step.r == r }

  lemma {:induction false} OthersStay(settings: Settings, w: World, step: Step, r: RunnerId)
    requires Enabled(w, step) && !Concerns(step, r)
    ensures var v := Do(settings, w, step);
            v.clock >= w.clock && (r in v.runners <==> r in w.runners)
            && (r in w.runners ==> v.runners[r] == w.runners[r])
  {
  }

  lemma {:induction false} LaterIsOk(settings: Settings, clock: Time, later: Time, p: Process)
    requires ProcessOk(settings, clock, p) && clock <= later
    ensures ProcessOk(settings, later, p)
  {
  }

  lemma {:induction false} MoverOk(settings: Settings, w: World, step: Step, r: RunnerId)
    requires Enabled(w, step) && Concerns(step, r)
    requires r in w.runners ==> ProcessOk(settings, w.clock, w.runners[r])
    requires r in w.runners && step.Begin? ==> Positive(w.runners[r].marks) && w.runners[r].now <= w.clock
    ensures var v := Do(settings, w, step);
            v.clock == w.clock && r in v.runners && ProcessOk(settings, v.clock, v.runners[r])
  {
    if step.Begin? { BeginOk(settings, w, r, step.seedRead); }
    if step.Succeed? { SucceedOk(settings, w, r); }
    if step.Fail? { FailOk(settings, w, r); }
    if step.Skip? { SkipOk(settings, w, r); }
    if step.Save? { SaveOk(settings, w, r, step.ok); }
    if step.EndOfEntities? { LastOk(settings, w, r, true); }
    if step.FinalSave? { LastOk(settings, w, r, step.ok); }
    if step.ReadClock? { ReadClockOk(settings, w, r, step.overBudget); }
  }

  ghost predicate AllOk(settings: Settings, w: World) {
    forall r :: r in w.runners ==> ProcessOk(settings, w.clock, w.runners[r])
  }

  /** Where a fetch can begin, watermarks are later than the zero time and the clock has not gone back. */
  lemma {:induction false} BeginsWell(settings: Settings, w: World, r: RunnerId)
    requires Inv(settings, w) && AtEntity(w, r)
    ensures Positive(w.runners[r].marks) && w.runners[r].now <= w.clock
  {
    assert GoodRunner(settings, w, r);
  }

  lemma {:induction false} StepOk(settings: Settings, w: World, step: Step)
    requires Inv(settings, w) && AllOk(settings, w) && Enabled(w, step)
    ensures AllOk(settings, Do(settings, w, step))
  {
    var v := Do(settings, w, step);
    forall r | r in v.runners ensures ProcessOk(settings, v.clock, v.runners[r]) {
      if Concerns(step, r) {
        if step.Begin? { BeginsWell(settings, w, r); }
        MoverOk(settings, w, step, r);
      } else {
        OthersStay(settings, w, step, r);
        LaterIsOk(settings, w.clock, v.clock, v.runners[r]);
      }
    }
  }

  lemma {:induction false} NextOk(settings: Settings, w: World, v: World)
    requires Inv(settings, w) && AllOk(settings, w) && Next(settings, w, v)
    ensures AllOk(settings, v)
  {
    var step :| Enabled(w, step) && v == Do(settings, w, step);
    StepOk(settings, w, step);
  }

  lemma {:induction false} RunStep(settings: Settings, run: seq<World>, i: nat)
    requires settings.overlap >= 0 && IsRun(settings, run) && 0 < i < |run|
    ensures Inv(settings, run[i - 1]) && Next(settings, run[i - 1], run[i])
  {
    RunInv(settings, run, i - 1);
    assert Next(settings, run[i - 1], run[i - 1 + 1]);
  }

  lemma {:induction false} RunOk(settings: Settings, run: seq<World>, i: nat)
    requires settings.overlap >= 0 && IsRun(settings, run) && i < |run|
    ensures AllOk(settings, run[i])
  {
    if i > 0 {
      RunOk(settings, run, i - 1);
      RunStep(settings, run, i);
      NextOk(settings, run[i - 1], run[i]);
    }
  }

  // ---------------------------------------------------------------------------
  // Main results
  // ---------------------------------------------------------------------------

  /**
   A command asks for what is new, and no more: from the watermark less the overlap, else from the
   seed less the overlap, in whole seconds. Only without either, or for an entity that is
   not incremental, it asks for everything. It never asks past the clock.
   */
  lemma {:induction false} WindowIsExact(settings: Settings, run: seq<World>, i: nat, r: RunnerId)
    requires settings.overlap >= 0 && IsRun(settings, run) && i < |run|
    requires r in run[i].runners && run[i].runners[r].pc.Fetching?
    ensures var p := run[i].runners[r];
            && p.pc.at < |p.config| && IsDue(p, p.config[p.pc.at])
            && (p.pc.seed.None? || p.pc.seed == SeedOf(settings, p.config[p.pc.at].table))
            && RightWindow(settings, p.marks, p.config[p.pc.at], p.pc.seed, p.pc.window)
            && p.now - 1_000_000_000 < p.pc.window.to <= run[i].clock
  {
    RunOk(settings, run, i);
  }

  /**
   When a runner has been through its entities, it has moved the watermarks of exactly those tables
   that were due and did not fail, all to the start of the run, and left all others as it
   had loaded them.
   */
  lemma {:induction false} MarksExactly(settings: Settings, run: seq<World>, i: nat, r: RunnerId)
    requires settings.overlap >= 0 && IsRun(settings, run) && i < |run|
    requires r in run[i].runners && (run[i].runners[r].pc.LastSave? || run[i].runners[r].pc.Releasing?)
    ensures var p := run[i].runners[r];
            forall table ::
              && (table in p.marks <==> table in p.loaded || Advanced(p, table, |p.config|))
              && (table in p.marks ==>
                    p.marks[table] == if Advanced(p, table, |p.config|) then p.now else p.loaded[table])
  {
    RunOk(settings, run, i);
  }
}
