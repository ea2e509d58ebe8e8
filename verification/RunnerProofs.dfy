/** Mutual exclusion and coverage over every run of the incremental runner. */
module RunnerProofs {
  import opened Wrappers
  import opened Runner

  // ---------------------------------------------------------------------------
  // Coverage
  // ---------------------------------------------------------------------------

  /** From where on a table is to be fetched: from its seed, or from the beginning. */
  function Base(settings: Settings, table: Table): Option<Time> {
    if table in settings.seeds then Some(FloorSecond(settings.seeds[table] - settings.overlap)) else None
  }

  ghost predicate AfterBase(settings: Settings, table: Table, t: Time) {
    Base(settings, table).Some? ==> Base(settings, table).value <= t
  }

  ghost predicate FetchedAt(fetched: set<Fetched>, table: Table, t: Time) {
    exists f :: f in fetched && f.table == table && f.window.Contains(t)
  }

  /** Every moment from the base up to the watermark lies in a window fetched successfully. */
  ghost predicate Covered(settings: Settings, fetched: set<Fetched>, table: Table, mark: Time) {
    forall t :: AfterBase(settings, table, t) && t < FloorSecond(mark) ==> FetchedAt(fetched, table, t)
  }

  ghost predicate AllCovered(settings: Settings, w: World, marks: Watermarks) {
    forall table :: table in marks ==>
      ZERO < marks[table] <= w.clock && Covered(settings, w.fetched, table, marks[table])
  }

  /** A window that may be fetched next leaves no gap behind it. */
  ghost predicate Continues(settings: Settings, fetched: set<Fetched>, table: Table, window: Window, now: Time) {
    && FloorSecond(now) <= window.to
    && (window.from.Some? ==> forall t ::
          AfterBase(settings, table, t) && t < window.from.value ==> FetchedAt(fetched, table, t))
  }

  // ---------------------------------------------------------------------------
  // The invariant
  // ---------------------------------------------------------------------------

  ghost predicate GoodRunner(settings: Settings, w: World, r: RunnerId)
    requires r in w.runners
  {
    var p := w.runners[r];
    && p.seen <= w.version
    && AllCovered(settings, w, p.marks)
    && (InLock(p.pc) ==> w.lock == Some(r))
    && (InLock(p.pc) && !p.pc.Locked? ==> ZERO < p.now <= w.clock)
    && (p.pc.Loaded? && p.seen == w.version ==> p.marks == w.file)
    && (InLock(p.pc) && p.upToDate ==> NotBehind(w.file, p.marks))
    && (p.pc.Locked? && !p.upToDate ==> !NotBehind(w.file, p.marks))
    && (InLock(p.pc) && p.upToDate && !p.pc.Locked? ==> forall t :: t in p.marks ==> p.marks[t] <= p.now)
    && (p.pc.Fetching? ==>
          && p.pc.at < |p.config|
          && Continues(settings, w.fetched, p.config[p.pc.at].table, p.pc.window, p.now))
  }

  ghost predicate Inv(settings: Settings, w: World) {
    && w.clock > ZERO
    && (w.lock.Some? ==> w.lock.value in w.runners)
    && AllCovered(settings, w, w.file)
    && forall r :: r in w.runners ==> GoodRunner(settings, w, r)
  }

  // ---------------------------------------------------------------------------
  // Coverage only grows
  // ---------------------------------------------------------------------------

  lemma {:induction false} FetchedGrows(fetched: set<Fetched>, more: set<Fetched>, table: Table, t: Time)
    requires fetched <= more && FetchedAt(fetched, table, t)
    ensures FetchedAt(more, table, t)
  {
  }

  lemma {:induction false} CoveredGrows(settings: Settings, w: World, v: World, marks: Watermarks)
    requires AllCovered(settings, w, marks) && w.fetched <= v.fetched && w.clock <= v.clock
    ensures AllCovered(settings, v, marks)
  {
    forall table | table in marks
      ensures ZERO < marks[table] <= v.clock && Covered(settings, v.fetched, table, marks[table])
    {
      assert Covered(settings, w.fetched, table, marks[table]);
      forall t | FetchedAt(w.fetched, table, t) ensures FetchedAt(v.fetched, table, t) {
        FetchedGrows(w.fetched, v.fetched, table, t);
      }
    }
  }

  /** The next window starts inside what is covered, because both of its bounds are floored. */
  lemma {:induction false} NextWindowContinues(
    settings: Settings, fetched: set<Fetched>, marks: Watermarks, e: Entity, seedRead: bool, clock: Time, now: Time)
    requires settings.overlap >= 0 && now <= clock
    requires forall table :: table in marks ==>
               ZERO < marks[table] && Covered(settings, fetched, table, marks[table])
    ensures var seed := if seedRead then SeedOf(settings, e.table) else None;
            var start := ComputeIntervalStart(WatermarkOf(marks, e.table), seed, settings.overlap);
            Continues(settings, fetched, e.table, WindowOf(e, start, clock), now)
  {
    var seed := if seedRead then SeedOf(settings, e.table) else None;
    var mark := WatermarkOf(marks, e.table);
    var start := ComputeIntervalStart(mark, seed, settings.overlap);
    FloorMonotone(now, clock);
    if mark != ZERO {
      FloorMonotone(mark - settings.overlap, mark);
      assert Covered(settings, fetched, e.table, mark);
    }
  }

  lemma {:induction false} FloorMonotone(a: Time, b: Time)
    requires a <= b
    ensures FloorSecond(a) <= FloorSecond(b)
  {
  }

  lemma {:induction false} ContinuesCovers(
    settings: Settings, fetched: set<Fetched>, table: Table, window: Window, now: Time)
    requires Continues(settings, fetched, table, window, now)
    ensures Covered(settings, fetched + {Fetched(table, window)}, table, now)
  {
    var more := fetched + {Fetched(table, window)};
    forall t | AfterBase(settings, table, t) && t < FloorSecond(now)
      ensures FetchedAt(more, table, t)
    {
      if window.Contains(t) {
        assert Fetched(table, window) in more;
      } else {
        FetchedGrows(fetched, more, table, t);
      }
    }
  }

  // ---------------------------------------------------------------------------
  // Steps
  // ---------------------------------------------------------------------------

  /** A runner that does not move keeps its part of the invariant. */
  lemma {:induction false} OthersKeep(settings: Settings, w: World, v: World, r: RunnerId)
    requires r in w.runners && GoodRunner(settings, w, r)
    requires r in v.runners && v.runners[r] == w.runners[r]
    requires w.fetched <= v.fetched && w.clock <= v.clock && w.version <= v.version
    requires v.version == w.version ==> v.file == w.file
    requires InLock(w.runners[r].pc) ==> v.lock == w.lock && v.file == w.file
    ensures GoodRunner(settings, v, r)
  {
    var p := w.runners[r];
    CoveredGrows(settings, w, v, p.marks);
    if p.pc.Fetching? {
      var table := p.config[p.pc.at].table;
      forall t | FetchedAt(w.fetched, table, t) ensures FetchedAt(v.fetched, table, t) {
        FetchedGrows(w.fetched, v.fetched, table, t);
      }
    }
  }

  /** One runner moves; at most one runner is inside the lock, so no other is disturbed. */
  ghost predicate Moves(w: World, v: World, r: RunnerId) {
    && r in v.runners && v.runners == w.runners[r := v.runners[r]]
    && w.fetched <= v.fetched && w.clock <= v.clock && w.version <= v.version
    && (v.version == w.version ==> v.file == w.file)
    && (v.lock != w.lock || v.file != w.file ==> w.lock.None? || w.lock == Some(r))
    && (v.lock.Some? ==> v.lock.value == r || v.lock == w.lock)
  }

  lemma {:induction false} MoveKeeps(settings: Settings, w: World, v: World, r: RunnerId)
    requires Inv(settings, w) && Moves(w, v, r) && GoodRunner(settings, v, r)
    requires AllCovered(settings, v, v.file)
    ensures Inv(settings, v)
  {
    forall q | q in v.runners ensures GoodRunner(settings, v, q) {
      if q != r {
        assert GoodRunner(settings, w, q);
        OthersKeep(settings, w, v, q);
      }
    }
  }

  lemma {:induction false} TickKeeps(settings: Settings, w: World, elapsed: nat)
    requires Inv(settings, w)
    ensures Inv(settings, w.(clock := w.clock + elapsed))
  {
    var v := w.(clock := w.clock + elapsed);
    CoveredGrows(settings, w, v, w.file);
    forall r | r in v.runners ensures GoodRunner(settings, v, r) { OthersKeep(settings, w, v, r); }
  }

  lemma {:induction false} LoadKeeps(
    settings: Settings, w: World, r: RunnerId, config: seq<Entity>, schedule: Option<int>)
    requires Inv(settings, w) && r !in w.runners
    ensures Inv(settings, DoLoad(w, r, config, schedule))
  {
    var v := DoLoad(w, r, config, schedule);
    CoveredGrows(settings, w, v, w.file);
    MoveKeeps(settings, w, v, r);
  }

  lemma {:induction false} AcquireKeeps(settings: Settings, w: World, r: RunnerId, written: bool)
    requires Inv(settings, w) && Enabled(w, Acquire(r, written))
    ensures Inv(settings, DoAcquire(w, r, written))
  {
    var v := DoAcquire(w, r, written);
    assert GoodRunner(settings, w, r);
    CoveredGrows(settings, w, v, w.file);
    CoveredGrows(settings, w, v, w.runners[r].marks);
    MoveKeeps(settings, w, v, r);
  }

  lemma {:induction false} ReadClockKeeps(settings: Settings, w: World, r: RunnerId, overBudget: bool)
    requires Inv(settings, w) && Enabled(w, ReadClock(r, overBudget))
    ensures Inv(settings, DoReadClock(w, r, overBudget))
  {
    var v := DoReadClock(w, r, overBudget);
    assert GoodRunner(settings, w, r);
    CoveredGrows(settings, w, v, w.file);
    CoveredGrows(settings, w, v, w.runners[r].marks);
    MoveKeeps(settings, w, v, r);
  }

  lemma {:induction false} BeginKeeps(settings: Settings, w: World, r: RunnerId, seedRead: bool)
    requires settings.overlap >= 0
    requires Inv(settings, w) && Enabled(w, Begin(r, seedRead))
    ensures Inv(settings, DoBegin(settings, w, r, seedRead))
  {
    var v, p := DoBegin(settings, w, r, seedRead), w.runners[r];
    assert GoodRunner(settings, w, r);
    NextWindowContinues(settings, w.fetched, p.marks, p.config[p.pc.next], seedRead, w.clock, p.now);
    CoveredGrows(settings, w, v, w.file);
    CoveredGrows(settings, w, v, p.marks);
    MoveKeeps(settings, w, v, r);
  }

  lemma {:induction false} SucceedKeeps(settings: Settings, w: World, r: RunnerId)
    requires Inv(settings, w) && Enabled(w, Succeed(r))
    ensures Inv(settings, DoSucceed(w, r))
  {
    var v, p := DoSucceed(w, r), w.runners[r];
    var table := p.config[p.pc.at].table;
    assert GoodRunner(settings, w, r);
    ContinuesCovers(settings, w.fetched, table, p.pc.window, p.now);
    CoveredGrows(settings, w, v, w.file);
    CoveredGrows(settings, w, v, p.marks);
    MoveKeeps(settings, w, v, r);
  }

  lemma {:induction false} SaveKeeps(settings: Settings, w: World, r: RunnerId, ok: bool, next: Pc)
    requires Inv(settings, w) && r in w.runners
    requires w.runners[r].pc.Saving? || w.runners[r].pc.LastSave?
    requires next.Entities? || next.Releasing?
    ensures Inv(settings, DoSave(w, r, ok, next))
  {
    var v := DoSave(w, r, ok, next);
    assert GoodRunner(settings, w, r);
    CoveredGrows(settings, w, v, w.file);
    CoveredGrows(settings, w, v, w.runners[r].marks);
    MoveKeeps(settings, w, v, r);
  }

  lemma {:induction false} MoveOnKeeps(settings: Settings, w: World, r: RunnerId, pc: Pc)
    requires Inv(settings, w) && r in w.runners
    requires w.runners[r].pc.Entities? || w.runners[r].pc.Fetching?
    requires pc.Entities? || pc.LastSave?
    ensures Inv(settings, GoTo(w, r, pc))
  {
    var v := GoTo(w, r, pc);
    assert GoodRunner(settings, w, r);
    CoveredGrows(settings, w, v, w.file);
    CoveredGrows(settings, w, v, w.runners[r].marks);
    MoveKeeps(settings, w, v, r);
  }

  lemma {:induction false} FailKeeps(settings: Settings, w: World, r: RunnerId)
    requires Inv(settings, w) && Enabled(w, Fail(r))
    ensures Inv(settings, DoFail(w, r))
  {
    var v := DoFail(w, r);
    assert GoodRunner(settings, w, r);
    CoveredGrows(settings, w, v, w.file);
    CoveredGrows(settings, w, v, w.runners[r].marks);
    MoveKeeps(settings, w, v, r);
  }

  lemma {:induction false} ReleaseKeeps(settings: Settings, w: World, r: RunnerId, ok: bool)
    requires Inv(settings, w) && Enabled(w, Release(r, ok))
    ensures Inv(settings, Do(settings, w, Release(r, ok)))
  {
    var v := Do(settings, w, Release(r, ok));
    assert GoodRunner(settings, w, r);
    CoveredGrows(settings, w, v, w.file);
    CoveredGrows(settings, w, v, w.runners[r].marks);
    MoveKeeps(settings, w, v, r);
  }

  lemma {:induction false} CrashKeeps(settings: Settings, w: World, r: RunnerId)
    requires Inv(settings, w) && Enabled(w, Crash(r))
    ensures Inv(settings, GoTo(w, r, Crashed))
  {
    var v := GoTo(w, r, Crashed);
    assert GoodRunner(settings, w, r);
    CoveredGrows(settings, w, v, w.file);
    CoveredGrows(settings, w, v, w.runners[r].marks);
    MoveKeeps(settings, w, v, r);
  }

  lemma {:induction false} RemoveStaleLockKeeps(settings: Settings, w: World)
    requires Inv(settings, w) && Enabled(w, RemoveStaleLock)
    ensures Inv(settings, w.(lock := None))
  {
    var v := w.(lock := None);
    CoveredGrows(settings, w, v, w.file);
    forall r | r in v.runners ensures GoodRunner(settings, v, r) {
      assert GoodRunner(settings, w, r);
      OthersKeep(settings, w, v, r);
    }
  }

  predicate IsEntityStep(step: Step) {
    step.Skip? || step.Begin? || step.Succeed? || step.Fail? || step.Save? || step.EndOfEntities?
  }

  lemma {:induction false} EntityStepKeeps(settings: Settings, w: World, step: Step)
    requires settings.overlap >= 0 && IsEntityStep(step)
    requires Inv(settings, w) && Enabled(w, step)
    ensures Inv(settings, Do(settings, w, step))
  {
    if step.Begin? || step.Succeed? || step.Fail? {
      FetchStepKeeps(settings, w, step);
    } else if step.Save? {
      SaveStepKeeps(settings, w, step.r, step.ok);
    } else {
      MoveStepKeeps(settings, w, step);
    }
  }

  lemma {:induction false} SaveStepKeeps(settings: Settings, w: World, r: RunnerId, ok: bool)
    requires Inv(settings, w) && Enabled(w, Save(r, ok))
    ensures Inv(settings, Do(settings, w, Save(r, ok)))
  {
    SaveKeeps(settings, w, r, ok, Entities(w.runners[r].pc.at + 1));
  }

  lemma {:induction false} MoveStepKeeps(settings: Settings, w: World, step: Step)
    requires Inv(settings, w) && Enabled(w, step) && (step.Skip? || step.EndOfEntities?)
    ensures Inv(settings, Do(settings, w, step))
  {
    if step.Skip? {
      MoveOnKeeps(settings, w, step.r, Entities(w.runners[step.r].pc.next + 1));
    } else {
      MoveOnKeeps(settings, w, step.r, LastSave);
    }
  }

  lemma {:induction false} FetchStepKeeps(settings: Settings, w: World, step: Step)
    requires settings.overlap >= 0 && (step.Begin? || step.Succeed? || step.Fail?)
    requires Inv(settings, w) && Enabled(w, step)
    ensures Inv(settings, Do(settings, w, step))
  {
    if step.Begin? {
      BeginKeeps(settings, w, step.r, step.seedRead);
    } else if step.Succeed? {
      SucceedKeeps(settings, w, step.r);
    } else {
      FailKeeps(settings, w, step.r);
    }
  }

  lemma {:induction false} LockStepKeeps(settings: Settings, w: World, step: Step)
    requires settings.overlap >= 0 && !IsEntityStep(step)
    requires Inv(settings, w) && Enabled(w, step)
    ensures Inv(settings, Do(settings, w, step))
  {
    if step.Tick? { TickKeeps(settings, w, step.elapsed); }
    if step.Load? { LoadKeeps(settings, w, step.r, step.config, step.schedule); }
    if step.Acquire? { AcquireKeeps(settings, w, step.r, step.written); }
    if step.ReadClock? { ReadClockKeeps(settings, w, step.r, step.overBudget); }
    if step.FinalSave? { SaveKeeps(settings, w, step.r, step.ok, Releasing); }
    if step.Release? { ReleaseKeeps(settings, w, step.r, step.ok); }
    if step.Crash? { CrashKeeps(settings, w, step.r); }
    if step.RemoveStaleLock? { RemoveStaleLockKeeps(settings, w); }
  }

  lemma {:induction false} InvNext(settings: Settings, w: World, step: Step)
    requires settings.overlap >= 0
    requires Inv(settings, w) && Enabled(w, step)
    ensures Inv(settings, Do(settings, w, step))
  {
    if IsEntityStep(step) { EntityStepKeeps(settings, w, step); } else { LockStepKeeps(settings, w, step); }
  }

  lemma {:induction false} RunInv(settings: Settings, run: seq<World>, i: nat)
    requires settings.overlap >= 0 && IsRun(settings, run) && i < |run|
    ensures Inv(settings, run[i])
  {
    if i > 0 {
      RunInv(settings, run, i - 1);
      assert Next(settings, run[i - 1], run[i]);
      var step :| Enabled(run[i - 1], step) && run[i] == Do(settings, run[i - 1], step);
      InvNext(settings, run[i - 1], step);
    }
  }

  // ---------------------------------------------------------------------------
  // Main results
  // ---------------------------------------------------------------------------

  /** At most one runner is ever inside the lock. */
  lemma {:induction false} MutualExclusion(settings: Settings, run: seq<World>, i: nat, q: RunnerId, r: RunnerId)
    requires settings.overlap >= 0 && IsRun(settings, run) && i < |run|
    requires q in run[i].runners && r in run[i].runners
    requires InLock(run[i].runners[q].pc) && InLock(run[i].runners[r].pc)
    ensures q == r && run[i].lock == Some(r)
  {
    RunInv(settings, run, i);
    assert GoodRunner(settings, run[i], q) && GoodRunner(settings, run[i], r);
  }

  /**
   Every watermark, in the file or in the memory of any runner, has a gap-free union of fetched
   windows behind it, down to the seed or the beginning.
   */
  lemma {:induction false} WatermarksAreCovered(settings: Settings, run: seq<World>, i: nat)
    requires settings.overlap >= 0 && IsRun(settings, run) && i < |run|
    ensures var w := run[i];
            && (forall table :: table in w.file ==> Covered(settings, w.fetched, table, w.file[table]))
            && (forall r, table :: r in w.runners && table in w.runners[r].marks ==>
                  Covered(settings, w.fetched, table, w.runners[r].marks[table]))
  {
    RunInv(settings, run, i);
    var w := run[i];
    forall r, table | r in w.runners && table in w.runners[r].marks
      ensures Covered(settings, w.fetched, table, w.runners[r].marks[table])
    {
      assert GoodRunner(settings, w, r);
    }
  }

  /**
   A runner that was behind the file for no table when it locked holds, as long as it is in the
   lock, no watermark earlier than the persisted one, so its saves move none back.
   */
  lemma {:induction false} UpToDateNeverRegresses(settings: Settings, run: seq<World>, i: nat, r: RunnerId)
    requires settings.overlap >= 0 && IsRun(settings, run) && i < |run|
    requires r in run[i].runners && InLock(run[i].runners[r].pc) && run[i].runners[r].upToDate
    ensures NotBehind(run[i].file, run[i].runners[r].marks)
  {
    RunInv(settings, run, i);
    assert GoodRunner(settings, run[i], r);
  }

  /** A runner that read the state after the last save is up to date when it locks. */
  lemma {:induction false} LatestIsUpToDate(settings: Settings, run: seq<World>, i: nat, r: RunnerId)
    requires settings.overlap >= 0 && IsRun(settings, run) && i < |run|
    requires r in run[i].runners && run[i].runners[r].pc.Loaded? && run[i].runners[r].seen == run[i].version
    ensures NotBehind(run[i].file, run[i].runners[r].marks)
  {
    RunInv(settings, run, i);
    assert GoodRunner(settings, run[i], r);
  }

  /** Every fetch left may fail: then nothing changes but the runner's position. */
  lemma {:induction false} FailTheRest(settings: Settings, run: seq<World>, r: RunnerId) returns (longer: seq<World>)
    requires IsRun(settings, run)
    requires var w := run[|run| - 1];
             r in w.runners && w.runners[r].pc.Entities? && w.runners[r].pc.next <= |w.runners[r].config|
    ensures IsRun(settings, longer) && |longer| >= |run| && longer[..|run|] == run
    ensures var w, v := run[|run| - 1], longer[|longer| - 1];
            && r in v.runners && v.file == w.file && v.lock == w.lock
            && v.runners[r]
               == w.runners[r].(pc := Entities(|w.runners[r].config|), failed := v.runners[r].failed)
    decreases |run[|run| - 1].runners[r].config| - run[|run| - 1].runners[r].pc.next
  {
    var w := run[|run| - 1];
    var p := w.runners[r];
    if p.pc.next == |p.config| {
      longer := run;
    } else if IsSkipped(p, p.config[p.pc.next]) {
      longer := Extend(settings, run, Skip(r));
      longer := FailTheRest(settings, longer, r);
    } else {
      longer := Extend(settings, run, Begin(r, false));
      longer := Extend(settings, longer, Fail(r));
      longer := FailTheRest(settings, longer, r);
    }
  }

  /**
   Any other runner can move a watermark back: if all its fetches fail, its last save writes what
   it held on locking.
   */
  lemma {:induction false} BehindCanRegress(settings: Settings, run: seq<World>, r: RunnerId)
    returns (longer: seq<World>)
    requires settings.overlap >= 0 && IsRun(settings, run)
    requires var w := run[|run| - 1];
             r in w.runners && w.runners[r].pc.Locked? && !w.runners[r].upToDate
    ensures IsRun(settings, longer) && |longer| > |run| && longer[..|run|] == run
    ensures !NotBehind(run[|run| - 1].file, longer[|longer| - 1].file)
  {
    var w := run[|run| - 1];
    LockedIsBehind(settings, run, |run| - 1, r);
    longer := Extend(settings, run, ReadClock(r, false));
    longer := FailTheRest(settings, longer, r);
    longer := Extend(settings, longer, EndOfEntities(r));
    longer := Extend(settings, longer, FinalSave(r, true));
    assert longer[|longer| - 1].file == w.runners[r].marks;
  }

  /** Until it reads the clock, a locked runner and the file are as they were on locking. */
  lemma {:induction false} LockedIsBehind(settings: Settings, run: seq<World>, i: nat, r: RunnerId)
    requires settings.overlap >= 0 && IsRun(settings, run) && i < |run|
    requires r in run[i].runners && run[i].runners[r].pc.Locked? && !run[i].runners[r].upToDate
    ensures !NotBehind(run[i].file, run[i].runners[r].marks)
  {
    RunInv(settings, run, i);
    assert GoodRunner(settings, run[i], r);
  }

  lemma {:induction false} Extend(settings: Settings, run: seq<World>, step: Step) returns (longer: seq<World>)
    requires IsRun(settings, run) && Enabled(run[|run| - 1], step)
    ensures IsRun(settings, longer) && longer == run + [Do(settings, run[|run| - 1], step)]
  {
    longer := run + [Do(settings, run[|run| - 1], step)];
    forall i | 0 <= i < |longer| - 1 ensures Next(settings, longer[i], longer[i + 1]) {
      if i < |run| - 1 {
        assert Next(settings, run[i], run[i + 1]);
      } else {
        assert Enabled(longer[i], step) && longer[i + 1] == Do(settings, longer[i], step);
      }
    }
  }

  const ONE_TABLE := [Entity(7, true, 0, true)]

  /** Two runners read an empty state, and the first of them locks. */
  lemma {:induction false} TwoRunnersLoad(settings: Settings, clock: Time) returns (run: seq<World>)
    requires settings.overlap >= 0 && clock > ZERO
    ensures IsRun(settings, run)
    ensures run[|run| - 1] == World(clock, map[], 0, Some(0),
              map[0 := Process(Locked, ONE_TABLE, None, map[], ZERO, false, 0, true, map[], {}),
                  1 := Process(Loaded, [], None, map[], ZERO, false, 0, false, map[], {})], {})
  {
    run := [Start(clock)];
    run := Extend(settings, run, Load(0, ONE_TABLE, None));
    run := Extend(settings, run, Load(1, [], None));
    run := Extend(settings, run, Acquire(0, true));
  }

  /** The first one fetches a table and persists its watermark. */
  lemma {:induction false} FirstRunnerSaves(settings: Settings, clock: Time) returns (run: seq<World>)
    requires settings.overlap >= 0 && clock > ZERO
    ensures IsRun(settings, run)
    ensures var last := run[|run| - 1];
            && last.file == map[7 := clock] && last.version == 1 && 0 in last.runners
            && last.runners[0].pc == Entities(1) && |last.runners[0].config| == 1 && last.lock == Some(0)
            && last.runners[0].marks == last.file
            && 1 in last.runners
            && last.runners[1] == Process(Loaded, [], None, map[], ZERO, false, 0, false, map[], {})
  {
    run := TwoRunnersLoad(settings, clock);
    run := Extend(settings, run, ReadClock(0, false));
    run := Extend(settings, run, Begin(0, true));
    run := Extend(settings, run, Succeed(0));
    run := Extend(settings, run, Save(0, true));
  }

  /**
   A runner that read the state before another one saved it, and locks after that one has left,
   takes the persisted watermark back: the table will be fetched again, but nothing is skipped.
   */
  lemma {:induction false} StaleRunnerRegresses(settings: Settings, clock: Time) returns (run: seq<World>, i: nat)
    requires settings.overlap >= 0 && clock > ZERO
    ensures IsRun(settings, run) && i < |run|
    ensures !NotBehind(run[i].file, run[|run| - 1].file)
  {
    run := FirstRunnerSaves(settings, clock);
    i := |run| - 1;
    ghost var saved := run[i];
    run := Extend(settings, run, EndOfEntities(0));
    run := Extend(settings, run, FinalSave(0, true));
    run := Extend(settings, run, Release(0, true));
    run := Extend(settings, run, Acquire(1, true));
    run := Extend(settings, run, ReadClock(1, false));
    run := Extend(settings, run, EndOfEntities(1));
    run := Extend(settings, run, FinalSave(1, true));
    assert run[i] == saved && 7 in saved.file;
  }
}
