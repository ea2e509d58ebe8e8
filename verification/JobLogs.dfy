/**
 Log fan-out of the job manager: subscribing, broadcasting, closing and cleaning up.

 One mutex guards the buffers, the subscriber lists and the finished marks. Its holder works in
 single steps, one channel operation at a time, and between any two of them readers receive
 and the job table, which the mutex does not guard, changes.
 */
module JobLogs {
  import opened LogSinks
  import opened LogStream

  const MAX_BUFFERED := 10_000
  const HEADROOM := 100

  type JobId = int
  type ChannelId = int

  /** Who holds the mutex, and how far the holder got. `at` indexes the job's subscriber list. */
  datatype Holder =
    | Free
    | Replaying(job: JobId, channel: ChannelId, sent: nat, register: bool)
    | Fanning(job: JobId, entry: LogEntry, at: nat)
    | Dropping(job: JobId, entry: LogEntry, at: nat)
    | Warning(job: JobId, entry: LogEntry, at: nat)
    | Closing(job: JobId, at: nat)

  datatype Registry = Registry(
    jobs: set<JobId>, finished: set<JobId>,
    buffers: map<JobId, seq<LogEntry>>, subscribers: map<JobId, seq<ChannelId>>)

  /**
   For the proofs: every entry broadcast for a job; from which of them on a channel is offered
   entries, and how many there were when it was closed; whether its job was known when it
   subscribed; how many entries a job's last clean-up took away; the jobs whose logs were ever
   closed; those broadcast to since their clean-up.
   */
  datatype History = History(
    past: map<JobId, seq<LogEntry>>, since: map<ChannelId, nat>, until: map<ChannelId, nat>,
    known: map<ChannelId, bool>, cleaned: map<JobId, nat>, ended: set<JobId>, late: set<JobId>)

  datatype Manager = Manager(
    registry: Registry, channels: map<ChannelId, Channel>, holder: Holder, history: History)

  const START := Manager(
    Registry({}, {}, map[], map[]), map[], Free, History(map[], map[], map[], map[], map[], {}, {}))

  function Buffer(s: Manager, job: JobId): seq<LogEntry> {
    if job in s.registry.buffers then s.registry.buffers[job] else []
  }

  function Subscribers(s: Manager, job: JobId): seq<ChannelId> {
    if job in s.registry.subscribers then s.registry.subscribers[job] else []
  }

  function Past(s: Manager, job: JobId): seq<LogEntry> {
    if job in s.history.past then s.history.past[job] else []
  }

  /** The entries of a job that were gone after its last clean-up. */
  function CleanedAway(s: Manager, job: JobId): nat {
    if job in s.history.cleaned then s.history.cleaned[job] else 0
  }

  datatype Step =
    | StoreJob(job: JobId) | DeleteJob(job: JobId) | CleanUp(job: JobId)
    | BeginSubscribe(job: JobId, channel: ChannelId) | ReplaySend | EndSubscribe
    | Unsubscribe(job: JobId, channel: ChannelId)
    | BeginBroadcast(job: JobId, entry: LogEntry) | TrySend | DropOne | SendWarning | EndBroadcast
    | BeginClose(job: JobId) | CloseOne | EndClose
    | Read(channel: ChannelId)

  /** The channel the holder is about to use. */
  function Target(s: Manager): ChannelId
    requires s.holder.Fanning? || s.holder.Dropping? || s.holder.Warning? || s.holder.Closing?
    requires s.holder.at < |Subscribers(s, s.holder.job)|
  {
    Subscribers(s, s.holder.job)[s.holder.at]
  }

  predicate AtChannel(s: Manager)
    requires s.holder.Fanning? || s.holder.Dropping? || s.holder.Warning? || s.holder.Closing?
  {
    s.holder.at < |Subscribers(s, s.holder.job)| && Target(s) in s.channels
  }

  predicate Enabled(s: Manager, step: Step) {
    match step
    // A job is stored once, under an id of its own, before its logs can be closed.
    case StoreJob(job) => job !in s.history.ended
    // The clean-up goroutine, some time after the close: first the job, then the logs.
    case DeleteJob(job) => job in s.history.ended
    case CleanUp(job) => s.holder.Free? && job in s.registry.finished && job !in s.registry.jobs
    case BeginSubscribe(_, channel) => s.holder.Free? && channel !in s.channels
    case ReplaySend =>
      && s.holder.Replaying? && s.holder.sent < |Buffer(s, s.holder.job)|
      && s.holder.channel in s.channels && HasRoom(s.channels[s.holder.channel])
    case EndSubscribe =>
      && s.holder.Replaying? && s.holder.sent == |Buffer(s, s.holder.job)|
      && s.holder.channel in s.channels
    case Unsubscribe(_, _) => s.holder.Free?
    case BeginBroadcast(_, _) => s.holder.Free?
    case TrySend => s.holder.Fanning? && AtChannel(s)
    case DropOne => s.holder.Dropping? && AtChannel(s)
    case SendWarning => s.holder.Warning? && AtChannel(s)
    case EndBroadcast => s.holder.Fanning? && s.holder.at == |Subscribers(s, s.holder.job)|
    case BeginClose(_) => s.holder.Free?
    case CloseOne => s.holder.Closing? && AtChannel(s)
    case EndClose => s.holder.Closing? && s.holder.at == |Subscribers(s, s.holder.job)|
    case Read(channel) => channel in s.channels && s.channels[channel].queue != []
  }

  function SetChannel(s: Manager, c: ChannelId, ch: Channel): Manager {
    s.(channels := s.channels[c := ch])
  }

  function DoCleanUp(s: Manager, job: JobId): Manager {
    s.(registry := s.registry.(buffers := s.registry.buffers - {job}, finished := s.registry.finished - {job}),
       history := s.history.(
         cleaned := s.history.cleaned[job := |Past(s, job)|], late := s.history.late - {job}))
  }

  function CloseChannel(s: Manager, c: ChannelId): Manager
    requires c in s.channels
  {
    var ch := s.channels[c];
    SetChannel(s, c, ch.(open := false)).(
      history := s.history.(until := s.history.until[c := |Past(s, ch.job)|]))
  }

  function AddChannel(s: Manager, job: JobId, c: ChannelId, cap: nat, known: bool): Manager {
    var behind := |Past(s, job)| - |Buffer(s, job)|;
    SetChannel(s, c, NewChannel(job, cap)).(
      history := s.history.(
        since := s.history.since[c := if behind > 0 then behind else 0],
        known := s.history.known[c := known]))
  }

  /** A finished job is replayed and closed; an unknown job without a buffer is just closed. */
  function DoBeginSubscribe(s: Manager, job: JobId, c: ChannelId): Manager {
    var n := |Buffer(s, job)|;
    if job in s.registry.finished then
      AddChannel(s, job, c, n, true).(holder := Replaying(job, c, 0, false))
    else if job !in s.registry.jobs && n == 0 then
      CloseChannel(AddChannel(s, job, c, 0, false), c)
    else
      AddChannel(s, job, c, n + HEADROOM, true).(holder := Replaying(job, c, 0, true))
  }

  function DoReplaySend(s: Manager): Manager
    requires Enabled(s, ReplaySend)
  {
    var h := s.holder;
    SetChannel(s, h.channel, Accept(s.channels[h.channel], Buffer(s, h.job)[h.sent]))
      .(holder := h.(sent := h.sent + 1))
  }

  function DoEndSubscribe(s: Manager): Manager
    requires Enabled(s, EndSubscribe)
  {
    var h := s.holder;
    if h.register then
      s.(registry := s.registry.(
           subscribers := s.registry.subscribers[h.job := Subscribers(s, h.job) + [h.channel]]),
         holder := Free)
    else
      CloseChannel(s, h.channel).(holder := Free)
  }

  function Without(list: seq<ChannelId>, c: ChannelId): seq<ChannelId> {
    if list == [] then []
    else Without(list[..|list| - 1], c) + (if list[|list| - 1] != c then [list[|list| - 1]] else [])
  }

  function DoUnsubscribe(s: Manager, job: JobId, c: ChannelId): Manager {
    if job in s.registry.subscribers then
      s.(registry := s.registry.(
        subscribers := s.registry.subscribers[job := Without(Subscribers(s, job), c)]))
    else s
  }

  function Trim(buffer: seq<LogEntry>): seq<LogEntry> {
    if |buffer| > MAX_BUFFERED then buffer[|buffer| - MAX_BUFFERED..] else buffer
  }

  function DoBeginBroadcast(s: Manager, job: JobId, entry: LogEntry): Manager {
    s.(registry := s.registry.(buffers := s.registry.buffers[job := Trim(Buffer(s, job) + [entry])]),
       holder := Fanning(job, entry, 0),
       history := s.history.(
         past := s.history.past[job := Past(s, job) + [entry]],
         late := s.history.late
           + if job in s.history.ended && job !in s.registry.finished then {job} else {}))
  }

  function DoTrySend(s: Manager): Manager
    requires Enabled(s, TrySend)
  {
    var h, c := s.holder, Target(s);
    if HasRoom(s.channels[c]) then
      SetChannel(s, c, Accept(s.channels[c], h.entry)).(holder := Fanning(h.job, h.entry, h.at + 1))
    else
      SetChannel(s, c, Refuse(s.channels[c], h.entry)).(holder := Dropping(h.job, h.entry, h.at))
  }

  function DoDropOne(s: Manager): Manager
    requires Enabled(s, DropOne)
  {
    var h, c := s.holder, Target(s);
    SetChannel(s, c, DropOldest(s.channels[c])).(holder := Warning(h.job, h.entry, h.at))
  }

  function DoSendWarning(s: Manager): Manager
    requires Enabled(s, SendWarning)
  {
    var h, c := s.holder, Target(s);
    SetChannel(s, c, Warn(s.channels[c], h.entry.at)).(holder := Fanning(h.job, h.entry, h.at + 1))
  }

  function DoBeginClose(s: Manager, job: JobId): Manager {
    s.(registry := s.registry.(finished := s.registry.finished + {job}),
       holder := Closing(job, 0),
       history := s.history.(ended := s.history.ended + {job}))
  }

  function DoCloseOne(s: Manager): Manager
    requires Enabled(s, CloseOne)
  {
    var h, c := s.holder, Target(s);
    CloseChannel(s, c).(holder := Closing(h.job, h.at + 1))
  }

  function DoEndClose(s: Manager): Manager
    requires s.holder.Closing?
  {
    s.(registry := s.registry.(subscribers := s.registry.subscribers - {s.holder.job}), holder := Free)
  }

  function Do(s: Manager, step: Step): Manager
    requires Enabled(s, step)
  {
    match step
    case StoreJob(job) => s.(registry := s.registry.(jobs := s.registry.jobs + {job}))
    case DeleteJob(job) => s.(registry := s.registry.(jobs := s.registry.jobs - {job}))
    case CleanUp(job) => DoCleanUp(s, job)
    case BeginSubscribe(job, c) => DoBeginSubscribe(s, job, c)
    case ReplaySend => DoReplaySend(s)
    case EndSubscribe => DoEndSubscribe(s)
    case Unsubscribe(job, c) => DoUnsubscribe(s, job, c)
    case BeginBroadcast(job, entry) => DoBeginBroadcast(s, job, entry)
    case TrySend => DoTrySend(s)
    case DropOne => DoDropOne(s)
    case SendWarning => DoSendWarning(s)
    case EndBroadcast => s.(holder := Free)
    case BeginClose(job) => DoBeginClose(s, job)
    case CloseOne => DoCloseOne(s)
    case EndClose => DoEndClose(s)
    case Read(c) => SetChannel(s, c, Receive(s.channels[c]))
  }

  ghost predicate Next(s: Manager, t: Manager) {
    exists step :: Enabled(s, step) && t == Do(s, step)
  }

  ghost predicate IsRun(run: seq<Manager>) {
    && |run| > 0 && run[0] == START
    && forall i :: 0 <= i < |run| - 1 ==> Next(run[i], run[i + 1])
  }
}
