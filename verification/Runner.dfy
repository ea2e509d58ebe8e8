/**
 The incremental runner: any number of runner processes, one state file, one lock file, and a
 clock. Runners may crash at any step, saves may fail, and a runner reads the state file before
 it takes the lock, so what it holds in memory may be older than the file.
 */
module Runner {
  import opened Wrappers

  type Table = int
  type RunnerId = nat

  /** Nanoseconds since the zero time; the zero time itself stands for no time. */
  type Time = int

  const ZERO: Time := 0
  const SECOND := 1_000_000_000

  datatype Entity = Entity(table: Table, critical: bool, group: int, incremental: bool)

  /** The settings all runs share. A table's seed file holds one time, or does not exist. */
  datatype Settings = Settings(overlap: Time, seeds: map<Table, Time>)

  type Watermarks = map<Table, Time>

  // ---------------------------------------------------------------------------
  // One entity
  // ---------------------------------------------------------------------------

  /** Times are passed on in whole seconds. */
  function FloorSecond(t: Time): Time { t - t % SECOND }

  function ComputeIntervalStart(watermark: Time, seed: Option<Time>, overlap: Time): Time {
    if watermark != ZERO then watermark - overlap
    else if seed.Some? then seed.value - overlap
    else ZERO
  }

  predicate ShouldRun(e: Entity, overBudget: bool) { e.critical || !overBudget }

  /** What a command that succeeds has fetched for certain; a missing start is no bound. */
  datatype Window = Window(from: Option<Time>, to: Time)
  {
    predicate Contains(t: Time) { (from.Some? ==> from.value <= t) && t < to }
  }

  /** A full fetch takes everything there is when it starts, and an unbounded one all up to its end. */
  function WindowOf(e: Entity, start: Time, end: Time): Window {
    Window(if !e.incremental || start == ZERO then None else Some(FloorSecond(start)), FloorSecond(end))
  }

  function WatermarkOf(marks: Watermarks, table: Table): Time {
    if table in marks then marks[table] else ZERO
  }

  function SeedOf(settings: Settings, table: Table): Option<Time> {
    if table in settings.seeds then Some(settings.seeds[table]) else None
  }

  /** Every table of `earlier` is in `later`, not earlier. */
  predicate NotBehind(earlier: Watermarks, later: Watermarks) {
    forall table :: table in earlier ==> table in later && earlier[table] <= later[table]
  }

  // ---------------------------------------------------------------------------
  // State
  // ---------------------------------------------------------------------------

  datatype Pc =
    | Loaded                       // has read the state file, not the lock
    | Locked                       // holds the lock, has not read the clock
    | Entities(next: nat)
    | Fetching(at: nat, window: Window, seed: Option<Time>)    // `seed` as it was found
    | Saving(at: nat)
    | LastSave
    | Releasing
    | Exited
    | Crashed

  /**
   For the proofs: `seen` is the version of the state file the process read and `loaded` what it
   held, `upToDate` tells whether that was behind the file for no table on locking, and `failed`
   are the positions of the entities whose command failed.
   */
  datatype Process = Process(
    pc: Pc, config: seq<Entity>, schedule: Option<int>, marks: Watermarks,
    now: Time, overBudget: bool, seen: nat, upToDate: bool,
    loaded: Watermarks, failed: set<nat>)

  datatype Fetched = Fetched(table: Table, window: Window)

  /** The files, and the windows fetched successfully so far. `version` counts the saves. */
  datatype World = World(
    clock: Time, file: Watermarks, version: nat, lock: Option<RunnerId>,
    runners: map<RunnerId, Process>, fetched: set<Fetched>)

  /** A missing state file reads as an empty one. */
  function Start(clock: Time): World { World(clock, map[], 0, None, map[], {}) }

  predicate InLock(pc: Pc) { !pc.Loaded? && !pc.Exited? && !pc.Crashed? }

  predicate IsSkipped(p: Process, e: Entity) {
    (p.schedule.Some? && e.group != p.schedule.value) || !ShouldRun(e, p.overBudget)
  }

  datatype Step =
    | Tick(elapsed: nat)
    | Load(r: RunnerId, config: seq<Entity>, schedule: Option<int>)
    | Acquire(r: RunnerId, written: bool)
    | ReadClock(r: RunnerId, overBudget: bool)
    | Skip(r: RunnerId)
    | Begin(r: RunnerId, seedRead: bool)
    | Succeed(r: RunnerId)
    | Fail(r: RunnerId)
    | Save(r: RunnerId, ok: bool)
    | EndOfEntities(r: RunnerId)
    | FinalSave(r: RunnerId, ok: bool)
    | Release(r: RunnerId, ok: bool)
    | Crash(r: RunnerId)
    | RemoveStaleLock

  predicate AtEntity(w: World, r: RunnerId) {
    && r in w.runners && w.runners[r].pc.Entities?
    && w.runners[r].pc.next < |w.runners[r].config|
  }

  predicate Enabled(w: World, step: Step) {
    match step
    case Tick(_) => true
    case Load(r, _, _) => r !in w.runners
    case Acquire(r, _) => r in w.runners && w.runners[r].pc.Loaded?
    case ReadClock(r, _) => r in w.runners && w.runners[r].pc.Locked?
    case Skip(r) => AtEntity(w, r) && IsSkipped(w.runners[r], w.runners[r].config[w.runners[r].pc.next])
    case Begin(r, _) => AtEntity(w, r) && !IsSkipped(w.runners[r], w.runners[r].config[w.runners[r].pc.next])
    case Succeed(r) =>
      r in w.runners && w.runners[r].pc.Fetching? && w.runners[r].pc.at < |w.runners[r].config|
    case Fail(r) => r in w.runners && w.runners[r].pc.Fetching?
    case Save(r, _) => r in w.runners && w.runners[r].pc.Saving?
    case EndOfEntities(r) =>
      r in w.runners && w.runners[r].pc.Entities? && w.runners[r].pc.next == |w.runners[r].config|
    case FinalSave(r, _) => r in w.runners && w.runners[r].pc.LastSave?
    case Release(r, _) => r in w.runners && w.runners[r].pc.Releasing?
    case Crash(r) => r in w.runners && !w.runners[r].pc.Exited?
    // An operator removes a lock file once the run that left it is known to be over.
    case RemoveStaleLock =>
      w.lock.Some? && w.lock.value in w.runners && !InLock(w.runners[w.lock.value].pc)
  }

  function SetRunner(w: World, r: RunnerId, p: Process): World { w.(runners := w.runners[r := p]) }

  function GoTo(w: World, r: RunnerId, pc: Pc): World
    requires r in w.runners
  {
    SetRunner(w, r, w.runners[r].(pc := pc))
  }

  function DoLoad(w: World, r: RunnerId, config: seq<Entity>, schedule: Option<int>): World {
    SetRunner(w, r, Process(Loaded, config, schedule, w.file, ZERO, false, w.version, false, w.file, {}))
  }

  /** The lock file is created exclusively; when writing to it fails it is left behind. */
  function DoAcquire(w: World, r: RunnerId, written: bool): World
    requires r in w.runners
  {
    if w.lock.Some? then GoTo(w, r, Exited)
    else if !written then GoTo(w.(lock := Some(r)), r, Exited)
    else
      SetRunner(w.(lock := Some(r)), r,
        w.runners[r].(pc := Locked, upToDate := NotBehind(w.file, w.runners[r].marks)))
  }

  function DoReadClock(w: World, r: RunnerId, overBudget: bool): World
    requires r in w.runners
  {
    SetRunner(w, r, w.runners[r].(pc := Entities(0), now := w.clock, overBudget := overBudget))
  }

  /** The window is fixed when the command is started. A seed that cannot be read is no seed. */
  function DoBegin(settings: Settings, w: World, r: RunnerId, seedRead: bool): World
    requires AtEntity(w, r)
  {
    var p := w.runners[r];
    var e := p.config[p.pc.next];
    var seed := if seedRead then SeedOf(settings, e.table) else None;
    var start := ComputeIntervalStart(WatermarkOf(p.marks, e.table), seed, settings.overlap);
    GoTo(w, r, Fetching(p.pc.next, WindowOf(e, start, w.clock), seed))
  }

  /** A success moves the watermark to the start of the run, in memory. */
  function DoSucceed(w: World, r: RunnerId): World
    requires Enabled(w, Succeed(r))
  {
    var p := w.runners[r];
    var table := p.config[p.pc.at].table;
    SetRunner(w.(fetched := w.fetched + {Fetched(table, p.pc.window)}), r,
      p.(pc := Saving(p.pc.at), marks := p.marks[table := p.now]))
  }

  /** A failure changes no watermark. */
  function DoFail(w: World, r: RunnerId): World
    requires Enabled(w, Fail(r))
  {
    var p := w.runners[r];
    SetRunner(w, r, p.(pc := Entities(p.pc.at + 1), failed := p.failed + {p.pc.at}))
  }

  /** The file is replaced as a whole or not at all. */
  function DoSave(w: World, r: RunnerId, ok: bool, next: Pc): World
    requires r in w.runners
  {
    GoTo(if ok then w.(file := w.runners[r].marks, version := w.version + 1) else w, r, next)
  }

  function Do(settings: Settings, w: World, step: Step): World
    requires Enabled(w, step)
  {
    match step
    case Tick(elapsed) => w.(clock := w.clock + elapsed)
    case Load(r, config, schedule) => DoLoad(w, r, config, schedule)
    case Acquire(r, written) => DoAcquire(w, r, written)
    case ReadClock(r, overBudget) => DoReadClock(w, r, overBudget)
    case Skip(r) => GoTo(w, r, Entities(w.runners[r].pc.next + 1))
    case Begin(r, seedRead) => DoBegin(settings, w, r, seedRead)
    case Succeed(r) => DoSucceed(w, r)
    case Fail(r) => DoFail(w, r)
    case Save(r, ok) => DoSave(w, r, ok, Entities(w.runners[r].pc.at + 1))
    case EndOfEntities(r) => GoTo(w, r, LastSave)
    case FinalSave(r, ok) => DoSave(w, r, ok, Releasing)
    case Release(r, ok) => GoTo(if ok then w.(lock := None) else w, r, Exited)
    case Crash(r) => GoTo(w, r, Crashed)
    case RemoveStaleLock => w.(lock := None)
  }

  ghost predicate Next(settings: Settings, w: World, v: World) {
    exists step :: Enabled(w, step) && v == Do(settings, w, step)
  }

  ghost predicate IsRun(settings: Settings, run: seq<World>) {
    && |run| > 0 && run[0] == Start(run[0].clock) && run[0].clock > ZERO
    && forall i :: 0 <= i < |run| - 1 ==> Next(settings, run[i], run[i + 1])
  }
}
