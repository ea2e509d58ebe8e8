/** Safety of the log fan-out in every reachable state, and what each subscriber is told. */
module JobLogsProofs {
  import opened LogSinks
  import opened LogStream
  import opened JobLogs

  // ---------------------------------------------------------------------------
  // The invariant
  // ---------------------------------------------------------------------------

  /** The k-th subscriber has not been offered the entry being broadcast yet. */
  ghost predicate PendingAt(h: Holder, job: JobId, k: nat) {
    || (h.Fanning? && h.job == job && k >= h.at)
    || ((h.Dropping? || h.Warning?) && h.job == job && k > h.at)
  }

  ghost predicate ClosedAt(h: Holder, job: JobId, k: nat) { h.Closing? && h.job == job && k < h.at }

  /** The broadcaster owes this channel a warning. */
  ghost predicate OwesWarning(s: Manager, c: ChannelId) {
    && (s.holder.Dropping? || s.holder.Warning?)
    && s.holder.at < |Subscribers(s, s.holder.job)| && Target(s) == c
  }

  /** A channel is offered consecutive entries of its job. */
  ghost predicate OfferedSlice(s: Manager, c: ChannelId)
    requires c in s.channels
  {
    var ch := s.channels[c];
    && c in s.history.since
    && s.history.since[c] + |ch.offered| <= |Past(s, ch.job)|
    && ch.offered == Past(s, ch.job)[s.history.since[c]..s.history.since[c] + |ch.offered|]
  }

  /**
   A closed channel has been offered every entry up to its close. Either its job's logs had been
   closed too, or nobody knew the job when it subscribed.
   */
  ghost predicate GoodEnd(s: Manager, c: ChannelId)
    requires c in s.channels
  {
    var ch := s.channels[c];
    && c in s.history.known && (!s.history.known[c] ==> !ch.open && ch.offered == [])
    && (!ch.open ==>
          && c in s.history.since && c in s.history.until
          && s.history.since[c] + |ch.offered| == s.history.until[c]
          && (s.history.known[c] ==> ch.job in s.history.ended))
  }

  /** As long as nothing of a job was cleaned away, only what the buffer cannot hold is not replayed. */
  ghost predicate GoodSince(s: Manager, c: ChannelId)
    requires c in s.channels
  {
    var job := s.channels[c].job;
    c in s.history.since && job !in s.history.cleaned ==>
      s.history.since[c] == 0 || s.history.since[c] + MAX_BUFFERED <= |Past(s, job)|
  }

  ghost predicate GoodChannel(s: Manager, c: ChannelId)
    requires c in s.channels
  {
    && ChannelOk(s.channels[c]) && OfferedSlice(s, c) && GoodEnd(s, c) && GoodSince(s, c)
    && (OwesWarning(s, c) || (Accounted(s.channels[c]) && Kept(s.channels[c])))
  }

  ghost predicate GoodChannels(s: Manager) {
    forall c :: c in s.channels ==> GoodChannel(s, c)
  }

  ghost predicate GoodSubscriber(s: Manager, job: JobId, k: nat)
    requires k < |Subscribers(s, job)|
  {
    var c := Subscribers(s, job)[k];
    && c in s.channels && c in s.history.since
    && s.channels[c].job == job && s.channels[c].cap >= HEADROOM
    && (s.channels[c].open <==> !ClosedAt(s.holder, job, k))
    && s.history.since[c] + |s.channels[c].offered| + (if PendingAt(s.holder, job, k) then 1 else 0)
       == |Past(s, job)|
  }

  ghost predicate NoRepeats(list: seq<ChannelId>) {
    forall j, k :: 0 <= j < k < |list| ==> list[j] != list[k]
  }

  ghost predicate GoodSubscribers(s: Manager) {
    && (forall job :: job in s.registry.subscribers ==> NoRepeats(Subscribers(s, job)))
    && (forall job, k :: job in s.registry.subscribers && 0 <= k < |Subscribers(s, job)| ==> GoodSubscriber(s, job, k))
  }

  /** A buffer holds the most recent entries since the clean-up, as many as are allowed. */
  ghost predicate GoodBuffer(s: Manager, job: JobId) {
    var left := |Past(s, job)| - CleanedAway(s, job);
    && left >= 0 && |Buffer(s, job)| == (if left > MAX_BUFFERED then MAX_BUFFERED else left)
    && Buffer(s, job) == Past(s, job)[|Past(s, job)| - |Buffer(s, job)|..]
  }

  ghost predicate GoodBuffers(s: Manager) {
    forall job: JobId :: GoodBuffer(s, job)
  }

  ghost predicate GoodHolder(s: Manager) {
    match s.holder
    case Free => true
    case Replaying(job, c, sent, register) =>
      && c in s.channels && c in s.history.since && c !in Subscribers(s, job)
      && s.channels[c].open && s.channels[c].job == job
      && |s.channels[c].queue| <= |s.channels[c].offered| == sent <= |Buffer(s, job)|
      && s.channels[c].cap == |Buffer(s, job)| + (if register then HEADROOM else 0)
      && s.history.since[c] + |Buffer(s, job)| == |Past(s, job)|
      && (register <==> job !in s.registry.finished)
      && (register ==> job !in s.history.ended - s.history.late)
    case Closing(job, at) =>
      at <= |Subscribers(s, job)| && job in s.registry.finished && job in s.history.ended
    case Fanning(job, entry, at) =>
      at <= |Subscribers(s, job)| && Past(s, job) != [] && entry == Past(s, job)[|Past(s, job)| - 1]
    case Dropping(job, entry, at) =>
      && at < |Subscribers(s, job)| && Past(s, job) != [] && entry == Past(s, job)[|Past(s, job)| - 1]
      && Target(s) in s.channels && AwaitsWarning(s.channels[Target(s)]) && Kept(s.channels[Target(s)])
    case Warning(job, entry, at) =>
      && at < |Subscribers(s, job)| && Past(s, job) != [] && entry == Past(s, job)[|Past(s, job)| - 1]
      && Target(s) in s.channels && AwaitsWarning(s.channels[Target(s)]) && HasRoom(s.channels[Target(s)])
  }

  /** A job marked finished has no subscribers left once its close has ended. */
  ghost predicate GoodFinished(s: Manager) {
    forall job :: job in s.registry.finished ==>
      job in s.history.ended
      && (job in s.registry.subscribers ==> s.holder.Closing? && s.holder.job == job)
  }

  /** The same after the clean-up, as long as nothing is broadcast for the job any more. */
  ghost predicate GoodEnded(s: Manager) {
    forall job :: job in s.history.ended && job !in s.history.late ==>
      && (job in s.registry.subscribers ==> s.holder.Closing? && s.holder.job == job)
      && (job in s.registry.finished || (job !in s.registry.jobs && Buffer(s, job) == []))
  }

  ghost predicate GoodLate(s: Manager) {
    forall job :: job in s.history.late ==>
      job in s.history.ended && (job in s.registry.finished || Buffer(s, job) != [])
  }

  ghost predicate Inv(s: Manager) {
    && GoodChannels(s) && GoodSubscribers(s) && GoodBuffers(s) && GoodHolder(s)
    && GoodFinished(s) && GoodEnded(s) && GoodLate(s)
  }

  ghost predicate GoodJobs(s: Manager) { GoodHolder(s) && GoodFinished(s) && GoodEnded(s) && GoodLate(s) }

  // ---------------------------------------------------------------------------
  // What a step leaves alone
  // ---------------------------------------------------------------------------

  ghost predicate SameChannels(s: Manager, t: Manager) {
    && t.channels == s.channels && t.history.past == s.history.past && t.history.since == s.history.since
    && t.history.until == s.history.until && t.history.known == s.history.known
    && s.history.ended <= t.history.ended && s.history.cleaned.Keys <= t.history.cleaned.Keys
  }

  lemma {:induction false} ChannelsFrame(s: Manager, t: Manager)
    requires GoodChannels(s) && SameChannels(s, t)
    requires !s.holder.Dropping? && !s.holder.Warning?
    ensures GoodChannels(t)
  {
    forall c | c in t.channels ensures GoodChannel(t, c) {
      assert GoodChannel(s, c);
    }
  }

  lemma {:induction false} SubscribersFrame(s: Manager, t: Manager)
    requires GoodSubscribers(s) && SameChannels(s, t)
    requires t.registry.subscribers == s.registry.subscribers
    requires forall job, k :: 0 <= k < |Subscribers(s, job)| ==>
               && PendingAt(t.holder, job, k) == PendingAt(s.holder, job, k)
               && ClosedAt(t.holder, job, k) == ClosedAt(s.holder, job, k)
    ensures GoodSubscribers(t)
  {
    forall job | job in t.registry.subscribers ensures NoRepeats(Subscribers(t, job)) {
      assert NoRepeats(Subscribers(s, job));
    }
    forall job, k | job in t.registry.subscribers && 0 <= k < |Subscribers(t, job)|
      ensures GoodSubscriber(t, job, k)
    {
      assert GoodSubscriber(s, job, k);
    }
  }

  lemma {:induction false} BufferStays(s: Manager, t: Manager, job: JobId)
    requires GoodBuffer(s, job) && t.registry.buffers == s.registry.buffers
    requires t.history.past == s.history.past && t.history.cleaned == s.history.cleaned
    ensures GoodBuffer(t, job)
  {
  }

  lemma {:induction false} BuffersFrame(s: Manager, t: Manager)
    requires GoodBuffers(s) && t.registry.buffers == s.registry.buffers
    requires t.history.past == s.history.past && t.history.cleaned == s.history.cleaned
    ensures GoodBuffers(t)
  {
    forall job: JobId ensures GoodBuffer(t, job) { BufferStays(s, t, job); }
  }

  lemma {:induction false} CleanUpBuffers(s: Manager, job: JobId)
    requires GoodBuffers(s)
    ensures GoodBuffers(DoCleanUp(s, job))
  {
    var t := DoCleanUp(s, job);
    forall j: JobId ensures GoodBuffer(t, j) { assert GoodBuffer(s, j); }
  }

  // ---------------------------------------------------------------------------
  // Steps that use no channel
  // ---------------------------------------------------------------------------

  /** The job table is changed without the mutex, so also while another step has it. */
  lemma {:induction false} JobTableKeeps(s: Manager, t: Manager)
    requires Inv(s) && t == s.(registry := s.registry.(jobs := t.registry.jobs))
    requires forall job :: job in t.registry.jobs && job in s.history.ended ==> job in s.registry.jobs
    ensures Inv(t)
  {
    assert GoodChannels(t) by {
      forall c | c in t.channels ensures GoodChannel(t, c) {
        assert GoodChannel(s, c) && OwesWarning(t, c) == OwesWarning(s, c);
      }
    }
    SubscribersFrame(s, t);
    BuffersFrame(s, t);
    JobTableJobs(s, t);
  }

  lemma {:induction false} JobTableJobs(s: Manager, t: Manager)
    requires GoodJobs(s) && t == s.(registry := s.registry.(jobs := t.registry.jobs))
    requires forall job :: job in t.registry.jobs && job in s.history.ended ==> job in s.registry.jobs
    ensures GoodJobs(t)
  {
    forall job ensures Buffer(t, job) == Buffer(s, job) {}
  }

  lemma {:induction false} CleanUpJobs(s: Manager, job: JobId)
    requires GoodJobs(s) && Enabled(s, CleanUp(job))
    ensures GoodJobs(DoCleanUp(s, job))
  {
    assert job in s.registry.finished && job !in s.registry.subscribers;
    var t := DoCleanUp(s, job);
    assert forall j :: j != job ==> Buffer(t, j) == Buffer(s, j);
  }

  lemma {:induction false} CleanUpKeeps(s: Manager, job: JobId)
    requires Inv(s) && Enabled(s, CleanUp(job))
    ensures Inv(DoCleanUp(s, job))
  {
    var t := DoCleanUp(s, job);
    ChannelsFrame(s, t);
    SubscribersFrame(s, t);
    CleanUpBuffers(s, job);
    CleanUpJobs(s, job);
  }

  lemma {:induction false} BeginCloseJobs(s: Manager, job: JobId)
    requires GoodJobs(s) && Enabled(s, BeginClose(job))
    ensures GoodJobs(DoBeginClose(s, job))
  {
  }

  lemma {:induction false} BeginCloseKeeps(s: Manager, job: JobId)
    requires Inv(s) && Enabled(s, BeginClose(job))
    ensures Inv(DoBeginClose(s, job))
  {
    var t := DoBeginClose(s, job);
    ChannelsFrame(s, t);
    SubscribersFrame(s, t);
    BuffersFrame(s, t);
    BeginCloseJobs(s, job);
  }

  lemma {:induction false} EndCloseSubscribers(s: Manager)
    requires GoodSubscribers(s) && s.holder.Closing?
    ensures GoodSubscribers(DoEndClose(s))
  {
    var t := DoEndClose(s);
    forall j | j in t.registry.subscribers ensures NoRepeats(Subscribers(t, j)) {
      assert NoRepeats(Subscribers(s, j));
    }
    forall j, k | j in t.registry.subscribers && 0 <= k < |Subscribers(t, j)| ensures GoodSubscriber(t, j, k) {
      assert GoodSubscriber(s, j, k);
    }
  }

  lemma {:induction false} EndCloseJobs(s: Manager)
    requires GoodJobs(s) && s.holder.Closing?
    ensures GoodJobs(DoEndClose(s))
  {
  }

  lemma {:induction false} EndCloseKeeps(s: Manager)
    requires Inv(s) && Enabled(s, EndClose)
    ensures Inv(DoEndClose(s))
  {
    var t := DoEndClose(s);
    ChannelsFrame(s, t);
    EndCloseSubscribers(s);
    BuffersFrame(s, t);
    EndCloseJobs(s);
  }

  lemma {:induction false} EndBroadcastKeeps(s: Manager)
    requires Inv(s) && Enabled(s, EndBroadcast)
    ensures Inv(s.(holder := Free))
  {
    var t := s.(holder := Free);
    ChannelsFrame(s, t);
    SubscribersFrame(s, t);
    BuffersFrame(s, t);
  }

  // ---------------------------------------------------------------------------
  // Steps that use one channel
  // ---------------------------------------------------------------------------

  /** Only channel c changes, by being closed for one, and perhaps the holder. */
  ghost predicate Touches(s: Manager, t: Manager, c: ChannelId) {
    && c in s.channels && c in t.channels && t.channels == s.channels[c := t.channels[c]]
    && t.registry == s.registry
    && (t.history == s.history || t.history == CloseChannel(s, c).history)
  }

  lemma {:induction false} TouchChannels(s: Manager, t: Manager, c: ChannelId)
    requires GoodChannels(s) && Touches(s, t, c) && GoodChannel(t, c)
    requires forall d :: d != c && OwesWarning(s, d) ==> OwesWarning(t, d)
    ensures GoodChannels(t)
  {
    forall d | d in t.channels ensures GoodChannel(t, d) {
      if d != c { assert GoodChannel(s, d); }
    }
  }

  lemma {:induction false} TouchSubscribers(s: Manager, t: Manager, c: ChannelId)
    requires GoodSubscribers(s) && Touches(s, t, c)
    requires forall job, k :: 0 <= k < |Subscribers(s, job)| && Subscribers(s, job)[k] != c ==>
               && PendingAt(t.holder, job, k) == PendingAt(s.holder, job, k)
               && ClosedAt(t.holder, job, k) == ClosedAt(s.holder, job, k)
    requires forall job, k :: 0 <= k < |Subscribers(s, job)| && Subscribers(s, job)[k] == c ==>
               GoodSubscriber(t, job, k)
    ensures GoodSubscribers(t)
  {
    forall job | job in t.registry.subscribers ensures NoRepeats(Subscribers(t, job)) {
      assert NoRepeats(Subscribers(s, job));
    }
    forall job, k | job in t.registry.subscribers && 0 <= k < |Subscribers(t, job)|
      ensures GoodSubscriber(t, job, k)
    {
      assert GoodSubscriber(s, job, k);
    }
  }

  /** A channel is in one place of one list. */
  lemma {:induction false} OnePlace(s: Manager, j: JobId, i: nat, job: JobId, k: nat)
    requires GoodSubscribers(s) && i < |Subscribers(s, j)| && k < |Subscribers(s, job)|
    requires Subscribers(s, j)[i] == Subscribers(s, job)[k]
    ensures j == job && i == k
  {
    assert GoodSubscriber(s, j, i) && GoodSubscriber(s, job, k);
    assert NoRepeats(Subscribers(s, j));
  }

  /** The holder is working on place `at` of a list; every other place stays as it was. */
  lemma {:induction false} TargetSubscribers(s: Manager, t: Manager)
    requires GoodSubscribers(s)
    requires s.holder.Fanning? || s.holder.Dropping? || s.holder.Warning? || s.holder.Closing?
    requires AtChannel(s) && Touches(s, t, Target(s))
    requires GoodSubscriber(t, s.holder.job, s.holder.at)
    requires forall job, k :: 0 <= k < |Subscribers(s, job)| && (job != s.holder.job || k != s.holder.at) ==>
               && PendingAt(t.holder, job, k) == PendingAt(s.holder, job, k)
               && ClosedAt(t.holder, job, k) == ClosedAt(s.holder, job, k)
    ensures GoodSubscribers(t)
  {
    var c := Target(s);
    forall job, k | 0 <= k < |Subscribers(s, job)| && Subscribers(s, job)[k] == c
      ensures GoodSubscriber(t, job, k)
    {
      OnePlace(s, job, k, s.holder.job, s.holder.at);
    }
    TouchSubscribers(s, t, c);
  }

  lemma {:induction false} SliceGrows(past: seq<LogEntry>, offered: seq<LogEntry>, from: nat, entry: LogEntry)
    requires from + |offered| < |past| && offered == past[from..from + |offered|]
    requires entry == past[from + |offered|]
    ensures offered + [entry] == past[from..from + |offered| + 1]
  {
  }

  lemma {:induction false} AcceptedGood(s: Manager)
    requires Inv(s) && Enabled(s, TrySend) && HasRoom(s.channels[Target(s)])
    ensures GoodChannel(DoTrySend(s), Target(s))
  {
    var c, h := Target(s), s.holder;
    assert GoodSubscriber(s, h.job, h.at) && GoodChannel(s, c);
    SliceGrows(Past(s, h.job), s.channels[c].offered, s.history.since[c], h.entry);
    AcceptKeeps(s.channels[c], h.entry);
  }

  lemma {:induction false} RefusedGood(s: Manager)
    requires Inv(s) && Enabled(s, TrySend) && !HasRoom(s.channels[Target(s)])
    ensures GoodChannel(DoTrySend(s), Target(s))
    ensures AwaitsWarning(DoTrySend(s).channels[Target(s)]) && Kept(DoTrySend(s).channels[Target(s)])
  {
    var c, h := Target(s), s.holder;
    assert GoodSubscriber(s, h.job, h.at) && GoodChannel(s, c);
    SliceGrows(Past(s, h.job), s.channels[c].offered, s.history.since[c], h.entry);
    RefuseKeeps(s.channels[c], h.entry);
  }

  lemma {:induction false} TrySendKeeps(s: Manager)
    requires Inv(s) && Enabled(s, TrySend)
    ensures Inv(DoTrySend(s))
  {
    var t, c, h := DoTrySend(s), Target(s), s.holder;
    assert GoodSubscriber(s, h.job, h.at);
    if HasRoom(s.channels[c]) { AcceptedGood(s); } else { RefusedGood(s); }
    TouchChannels(s, t, c);
    TargetSubscribers(s, t);
    BuffersFrame(s, t);
  }

  lemma {:induction false} DropOneKeeps(s: Manager)
    requires Inv(s) && Enabled(s, DropOne)
    ensures Inv(DoDropOne(s))
  {
    var t, c, h := DoDropOne(s), Target(s), s.holder;
    assert GoodSubscriber(s, h.job, h.at) && GoodChannel(s, c);
    DropKeeps(s.channels[c]);
    TouchChannels(s, t, c);
    TargetSubscribers(s, t);
    BuffersFrame(s, t);
  }

  lemma {:induction false} SendWarningKeeps(s: Manager)
    requires Inv(s) && Enabled(s, SendWarning)
    ensures Inv(DoSendWarning(s))
  {
    var t, c, h := DoSendWarning(s), Target(s), s.holder;
    assert GoodSubscriber(s, h.job, h.at) && GoodChannel(s, c);
    WarnKeeps(s.channels[c], h.entry.at);
    TouchChannels(s, t, c);
    TargetSubscribers(s, t);
    BuffersFrame(s, t);
  }

  lemma {:induction false} CloseOneKeeps(s: Manager)
    requires Inv(s) && Enabled(s, CloseOne)
    ensures Inv(DoCloseOne(s))
  {
    var t, c, h := DoCloseOne(s), Target(s), s.holder;
    assert GoodSubscriber(s, h.job, h.at) && GoodChannel(s, c);
    assert Stream(t.channels[c]) == Stream(s.channels[c]);
    TouchChannels(s, t, c);
    TargetSubscribers(s, t);
    BuffersFrame(s, t);
  }

  lemma {:induction false} ReadKeeps(s: Manager, c: ChannelId)
    requires Inv(s) && Enabled(s, Read(c))
    ensures Inv(Do(s, Read(c)))
  {
    var t := Do(s, Read(c));
    assert GoodChannel(s, c);
    ReceiveKeeps(s.channels[c]);
    TouchChannels(s, t, c);
    forall job, k | 0 <= k < |Subscribers(s, job)| && Subscribers(s, job)[k] == c
      ensures GoodSubscriber(t, job, k)
    {
      assert GoodSubscriber(s, job, k);
    }
    TouchSubscribers(s, t, c);
    BuffersFrame(s, t);
    ReadJobs(s, c);
  }

  lemma {:induction false} ReadJobs(s: Manager, c: ChannelId)
    requires GoodJobs(s) && Enabled(s, Read(c)) && ChannelOk(s.channels[c])
    ensures GoodJobs(Do(s, Read(c)))
  {
    ReceiveKeeps(s.channels[c]);
  }

  lemma {:induction false} ReplayedOneGood(s: Manager)
    requires Inv(s) && Enabled(s, ReplaySend)
    ensures GoodChannel(DoReplaySend(s), s.holder.channel)
  {
    var h := s.holder;
    var ch := s.channels[h.channel];
    assert GoodChannel(s, h.channel);
    BufferGood(s, h.job);
    SliceGrows(Past(s, h.job), ch.offered, s.history.since[h.channel], Buffer(s, h.job)[h.sent]);
    AcceptKeeps(ch, Buffer(s, h.job)[h.sent]);
  }

  lemma {:induction false} ReplaySendKeeps(s: Manager)
    requires Inv(s) && Enabled(s, ReplaySend)
    ensures Inv(DoReplaySend(s))
  {
    var t, c := DoReplaySend(s), s.holder.channel;
    ReplayedOneGood(s);
    TouchChannels(s, t, c);
    forall job, k | 0 <= k < |Subscribers(s, job)| ensures Subscribers(s, job)[k] != c {
      assert GoodSubscriber(s, job, k);
    }
    TouchSubscribers(s, t, c);
    BuffersFrame(s, t);
    BufferGood(s, s.holder.job);
  }

  lemma {:induction false} BufferGood(s: Manager, job: JobId)
    requires GoodBuffers(s)
    ensures GoodBuffer(s, job)
  {
  }

  // ---------------------------------------------------------------------------
  // Subscribing, unsubscribing and starting a broadcast
  // ---------------------------------------------------------------------------

  /** Everything the proofs know of a channel is as it was. */
  ghost predicate SameEntry(s: Manager, t: Manager, d: ChannelId) {
    && d in s.channels && d in t.channels && t.channels[d] == s.channels[d]
    && (d in s.history.since ==> d in t.history.since && t.history.since[d] == s.history.since[d])
    && (d in s.history.until ==> d in t.history.until && t.history.until[d] == s.history.until[d])
    && (d in s.history.known ==> d in t.history.known && t.history.known[d] == s.history.known[d])
    && (d !in s.history.since ==> d !in t.history.since)
  }

  lemma {:induction false} OtherChannelStays(s: Manager, t: Manager, d: ChannelId)
    requires SameEntry(s, t, d) && GoodChannel(s, d) && s.holder.Free?
    requires t.history.past == s.history.past && t.history.ended == s.history.ended
    requires t.history.cleaned == s.history.cleaned
    ensures GoodChannel(t, d)
  {
  }

  lemma {:induction false} AddedChannels(s: Manager, t: Manager, c: ChannelId)
    requires GoodChannels(s) && s.holder.Free? && c !in s.channels && c in t.channels
    requires t.channels == s.channels[c := t.channels[c]] && t.history.past == s.history.past
    requires t.history.ended == s.history.ended && t.history.cleaned == s.history.cleaned
    requires forall d :: d in s.channels ==> SameEntry(s, t, d)
    requires GoodChannel(t, c)
    ensures GoodChannels(t)
  {
    forall d | d in t.channels ensures GoodChannel(t, d) {
      if d != c { OtherChannelStays(s, t, d); }
    }
  }

  lemma {:induction false} AddedSubscribers(s: Manager, t: Manager, c: ChannelId)
    requires GoodSubscribers(s) && s.holder.Free? && c !in s.channels && c in t.channels
    requires t.holder.Free? || t.holder.Replaying?
    requires t.channels == s.channels[c := t.channels[c]] && t.history.past == s.history.past
    requires c in t.history.since && t.history.since == s.history.since[c := t.history.since[c]]
    requires t.registry == s.registry
    ensures GoodSubscribers(t)
    ensures forall job :: c !in Subscribers(t, job)
  {
    forall job | job in t.registry.subscribers ensures NoRepeats(Subscribers(t, job)) {
      assert NoRepeats(Subscribers(s, job));
    }
    forall job, k | 0 <= k < |Subscribers(t, job)|
      ensures Subscribers(t, job)[k] != c && GoodSubscriber(t, job, k)
    {
      assert GoodSubscriber(s, job, k);
    }
  }

  lemma {:induction false} NothingOffered(past: seq<LogEntry>, from: nat, offered: seq<LogEntry>)
    requires from <= |past| && offered == []
    ensures offered == past[from..from + |offered|]
  {
  }

  lemma {:induction false} NewChannelGood(s: Manager, job: JobId, c: ChannelId, cap: nat, h: Holder)
    requires GoodBuffer(s, job) && (h.Free? || h.Replaying?)
    ensures GoodChannel(AddChannel(s, job, c, cap, true).(holder := h), c)
  {
    var t := AddChannel(s, job, c, cap, true).(holder := h);
    EmptyChannelOk(t.channels[c]);
    NothingOffered(Past(s, job), t.history.since[c], t.channels[c].offered);
  }

  lemma {:induction false} TurnedAwayGood(s: Manager, job: JobId, c: ChannelId)
    requires s.holder.Free? && Buffer(s, job) == [] && GoodBuffer(s, job)
    ensures GoodChannel(CloseChannel(AddChannel(s, job, c, 0, false), c), c)
  {
    var t := CloseChannel(AddChannel(s, job, c, 0, false), c);
    EmptyChannelOk(t.channels[c]);
    assert t.history.since[c] == |Past(s, job)| == t.history.until[c];
    NothingOffered(Past(s, job), t.history.since[c], t.channels[c].offered);
  }

  lemma {:induction false} EmptyChannelGood(s: Manager, job: JobId, c: ChannelId)
    requires GoodBuffer(s, job) && Enabled(s, BeginSubscribe(job, c))
    ensures GoodChannel(DoBeginSubscribe(s, job, c), c)
  {
    var n := |Buffer(s, job)|;
    if job in s.registry.finished {
      NewChannelGood(s, job, c, n, Replaying(job, c, 0, false));
    } else if job !in s.registry.jobs && n == 0 {
      TurnedAwayGood(s, job, c);
    } else {
      NewChannelGood(s, job, c, n + HEADROOM, Replaying(job, c, 0, true));
    }
  }

  lemma {:induction false} BeginSubscribeKeeps(s: Manager, job: JobId, c: ChannelId)
    requires Inv(s) && Enabled(s, BeginSubscribe(job, c))
    ensures Inv(DoBeginSubscribe(s, job, c))
  {
    var t := DoBeginSubscribe(s, job, c);
    BufferGood(s, job);
    EmptyChannelGood(s, job, c);
    AddedChannels(s, t, c);
    AddedSubscribers(s, t, c);
    BuffersFrame(s, t);
    BeginSubscribeJobs(s, t, job, c);
  }

  lemma {:induction false} BeginSubscribeJobs(s: Manager, t: Manager, job: JobId, c: ChannelId)
    requires GoodJobs(s) && GoodBuffer(s, job) && Enabled(s, BeginSubscribe(job, c))
    requires t == DoBeginSubscribe(s, job, c) && c !in Subscribers(t, job)
    ensures GoodJobs(t)
  {
  }

  /** The channel of a finished job is closed once it has been offered the whole buffer. */
  lemma {:induction false} ReplayedGood(s: Manager)
    requires GoodChannels(s) && GoodHolder(s) && GoodFinished(s) && Enabled(s, EndSubscribe) && !s.holder.register
    ensures GoodChannel(DoEndSubscribe(s), s.holder.channel)
  {
    var t, c := DoEndSubscribe(s), s.holder.channel;
    assert GoodChannel(s, c);
    assert Stream(t.channels[c]) == Stream(s.channels[c]);
  }

  lemma {:induction false} EndSubscribeChannels(s: Manager)
    requires GoodChannels(s) && GoodHolder(s) && GoodFinished(s) && Enabled(s, EndSubscribe)
    ensures GoodChannels(DoEndSubscribe(s))
  {
    var t := DoEndSubscribe(s);
    if s.holder.register {
      ChannelsFrame(s, t);
    } else {
      ReplayedGood(s);
      TouchChannels(s, t, s.holder.channel);
    }
  }

  lemma {:induction false} EndSubscribeSubscribers(s: Manager)
    requires GoodSubscribers(s) && GoodHolder(s) && Enabled(s, EndSubscribe)
    ensures GoodSubscribers(DoEndSubscribe(s))
  {
    var t := DoEndSubscribe(s);
    forall job | job in t.registry.subscribers ensures NoRepeats(Subscribers(t, job)) {
      assert job in s.registry.subscribers ==> NoRepeats(Subscribers(s, job));
    }
    forall job, k | job in t.registry.subscribers && 0 <= k < |Subscribers(t, job)|
      ensures GoodSubscriber(t, job, k)
    {
      if k < |Subscribers(s, job)| { assert GoodSubscriber(s, job, k); }
    }
  }

  lemma {:induction false} EndSubscribeKeeps(s: Manager)
    requires Inv(s) && Enabled(s, EndSubscribe)
    ensures Inv(DoEndSubscribe(s))
  {
    EndSubscribeChannels(s);
    EndSubscribeSubscribers(s);
    BuffersFrame(s, DoEndSubscribe(s));
    EndSubscribeJobs(s);
  }

  lemma {:induction false} EndSubscribeJobs(s: Manager)
    requires GoodJobs(s) && Enabled(s, EndSubscribe)
    ensures GoodJobs(DoEndSubscribe(s))
  {
  }

  lemma {:induction false} WithoutSome(list: seq<ChannelId>, c: ChannelId)
    requires NoRepeats(list)
    ensures NoRepeats(Without(list, c))
    ensures forall d :: d in Without(list, c) <==> d in list && d != c
  {
    if list != [] {
      var init := list[..|list| - 1];
      WithoutSome(init, c);
      assert list == init + [list[|list| - 1]];
      assert list[|list| - 1] !in init;
    }
  }

  lemma {:induction false} UnsubscribedList(s: Manager, job: JobId, c: ChannelId, j: JobId)
    requires j in s.registry.subscribers && NoRepeats(Subscribers(s, j))
    ensures var t := DoUnsubscribe(s, job, c);
            && NoRepeats(Subscribers(t, j))
            && forall d :: d in Subscribers(t, j) ==> d in Subscribers(s, j)
  {
    WithoutSome(Subscribers(s, j), c);
  }

  /** While the mutex is free it does not matter where in the list a subscriber is. */
  lemma {:induction false} FreeSubscriber(s: Manager, t: Manager, job: JobId, i: nat, k: nat)
    requires s.holder.Free? && t.holder.Free? && SameChannels(s, t)
    requires i < |Subscribers(s, job)| && k < |Subscribers(t, job)| && GoodSubscriber(s, job, i)
    requires Subscribers(t, job)[k] == Subscribers(s, job)[i]
    ensures GoodSubscriber(t, job, k)
  {
  }

  lemma {:induction false} UnsubscribeSubscribers(s: Manager, job: JobId, c: ChannelId)
    requires GoodSubscribers(s) && s.holder.Free?
    ensures GoodSubscribers(DoUnsubscribe(s, job, c))
  {
    var t := DoUnsubscribe(s, job, c);
    forall j | j in t.registry.subscribers ensures NoRepeats(Subscribers(t, j)) {
      assert NoRepeats(Subscribers(s, j));
      UnsubscribedList(s, job, c, j);
    }
    forall j, k | j in t.registry.subscribers && 0 <= k < |Subscribers(t, j)| ensures GoodSubscriber(t, j, k) {
      assert NoRepeats(Subscribers(s, j));
      UnsubscribedList(s, job, c, j);
      assert Subscribers(t, j)[k] in Subscribers(t, j);
      var i :| 0 <= i < |Subscribers(s, j)| && Subscribers(s, j)[i] == Subscribers(t, j)[k];
      assert GoodSubscriber(s, j, i);
      FreeSubscriber(s, t, j, i, k);
    }
  }

  lemma {:induction false} UnsubscribeJobs(s: Manager, job: JobId, c: ChannelId)
    requires GoodJobs(s) && s.holder.Free?
    ensures GoodJobs(DoUnsubscribe(s, job, c))
  {
  }

  lemma {:induction false} UnsubscribeKeeps(s: Manager, job: JobId, c: ChannelId)
    requires Inv(s) && Enabled(s, Unsubscribe(job, c))
    ensures Inv(DoUnsubscribe(s, job, c))
  {
    var t := DoUnsubscribe(s, job, c);
    ChannelsFrame(s, t);
    UnsubscribeSubscribers(s, job, c);
    BuffersFrame(s, t);
    UnsubscribeJobs(s, job, c);
  }

  /** One entry more, and the oldest one less if the buffer was full. */
  lemma {:induction false} TrimIsRecent(past: seq<LogEntry>, buffer: seq<LogEntry>, entry: LogEntry, left: nat)
    requires left <= |past| && |buffer| == (if left > MAX_BUFFERED then MAX_BUFFERED else left)
    requires buffer == past[|past| - |buffer|..]
    ensures var trimmed := Trim(buffer + [entry]);
            && |trimmed| == (if left + 1 > MAX_BUFFERED then MAX_BUFFERED else left + 1)
            && trimmed == (past + [entry])[|past| + 1 - |trimmed|..]
  {
    assert buffer + [entry] == (past + [entry])[|past| - |buffer|..];
  }

  lemma {:induction false} BroadcastBuffer(s: Manager, job: JobId, entry: LogEntry)
    requires GoodBuffer(s, job)
    ensures GoodBuffer(DoBeginBroadcast(s, job, entry), job)
  {
    TrimIsRecent(Past(s, job), Buffer(s, job), entry, |Past(s, job)| - CleanedAway(s, job));
  }

  /** A slice of the entries so far is the same slice of one entry more. */
  lemma {:induction false} SliceStays(past: seq<LogEntry>, entry: LogEntry, from: nat, to: nat)
    requires from <= to <= |past|
    ensures (past + [entry])[from..to] == past[from..to]
  {
  }

  lemma {:induction false} BeginBroadcastChannels(s: Manager, job: JobId, entry: LogEntry)
    requires GoodChannels(s) && s.holder.Free?
    ensures GoodChannels(DoBeginBroadcast(s, job, entry))
  {
    var t := DoBeginBroadcast(s, job, entry);
    forall c | c in t.channels ensures GoodChannel(t, c) {
      assert GoodChannel(s, c);
      var ch, from := s.channels[c], s.history.since[c];
      SliceStays(Past(s, ch.job), entry, from, from + |ch.offered|);
    }
  }

  lemma {:induction false} BeginBroadcastSubscribers(s: Manager, job: JobId, entry: LogEntry)
    requires GoodSubscribers(s) && s.holder.Free?
    ensures GoodSubscribers(DoBeginBroadcast(s, job, entry))
  {
    var t := DoBeginBroadcast(s, job, entry);
    forall j | j in t.registry.subscribers ensures NoRepeats(Subscribers(t, j)) {
      assert NoRepeats(Subscribers(s, j));
    }
    forall j, k | j in t.registry.subscribers && 0 <= k < |Subscribers(t, j)| ensures GoodSubscriber(t, j, k) {
      assert GoodSubscriber(s, j, k);
    }
  }

  lemma {:induction false} BeginBroadcastBuffers(s: Manager, job: JobId, entry: LogEntry)
    requires GoodBuffers(s)
    ensures GoodBuffers(DoBeginBroadcast(s, job, entry))
  {
    var t := DoBeginBroadcast(s, job, entry);
    BufferGood(s, job);
    BroadcastBuffer(s, job, entry);
    forall j: JobId ensures GoodBuffer(t, j) {
      if j != job { assert GoodBuffer(s, j); }
    }
  }

  lemma {:induction false} BeginBroadcastKeeps(s: Manager, job: JobId, entry: LogEntry)
    requires Inv(s) && Enabled(s, BeginBroadcast(job, entry))
    ensures Inv(DoBeginBroadcast(s, job, entry))
  {
    BeginBroadcastChannels(s, job, entry);
    BeginBroadcastSubscribers(s, job, entry);
    BeginBroadcastBuffers(s, job, entry);
    BeginBroadcastJobs(s, job, entry);
  }

  lemma {:induction false} BeginBroadcastJobs(s: Manager, job: JobId, entry: LogEntry)
    requires GoodJobs(s) && Enabled(s, BeginBroadcast(job, entry))
    ensures GoodJobs(DoBeginBroadcast(s, job, entry))
  {
  }

  // ---------------------------------------------------------------------------
  // Every reachable state
  // ---------------------------------------------------------------------------

  lemma {:induction false} InvNext(s: Manager, step: Step)
    requires Inv(s) && Enabled(s, step)
    ensures Inv(Do(s, step))
  {
    match step
    case StoreJob(job) => JobTableKeeps(s, Do(s, step));
    case DeleteJob(job) => JobTableKeeps(s, Do(s, step));
    case CleanUp(job) => CleanUpKeeps(s, job);
    case BeginSubscribe(job, c) => BeginSubscribeKeeps(s, job, c);
    case ReplaySend => ReplaySendKeeps(s);
    case EndSubscribe => EndSubscribeKeeps(s);
    case Unsubscribe(job, c) => UnsubscribeKeeps(s, job, c);
    case BeginBroadcast(job, entry) => BeginBroadcastKeeps(s, job, entry);
    case TrySend => TrySendKeeps(s);
    case DropOne => DropOneKeeps(s);
    case SendWarning => SendWarningKeeps(s);
    case EndBroadcast => EndBroadcastKeeps(s);
    case BeginClose(job) => BeginCloseKeeps(s, job);
    case CloseOne => CloseOneKeeps(s);
    case EndClose => EndCloseKeeps(s);
    case Read(c) => ReadKeeps(s, c);
  }

  lemma {:induction false} NextKeeps(s: Manager, t: Manager)
    requires Inv(s) && Next(s, t)
    ensures Inv(t)
  {
    var step :| Enabled(s, step) && t == Do(s, step);
    InvNext(s, step);
  }

  lemma {:induction false} RunInv(run: seq<Manager>, i: nat)
    requires IsRun(run) && i < |run|
    ensures Inv(run[i])
  {
    if i > 0 {
      RunInv(run, i - 1);
      assert Next(run[i - 1], run[i - 1 + 1]);
      NextKeeps(run[i - 1], run[i]);
    }
  }

  // ---------------------------------------------------------------------------
  // Main results
  // ---------------------------------------------------------------------------

  /**
   Whatever the holder does next to a channel, the channel is open. A replayed entry finds room,
   so subscribing never blocks, and so does a warning, so a lag is never left unannounced.
   */
  lemma {:induction false} NoClosedChannelIsUsed(run: seq<Manager>, i: nat)
    requires IsRun(run) && i < |run|
    ensures var s := run[i];
            && (s.holder.Replaying? ==>
                  && s.holder.channel in s.channels && s.channels[s.holder.channel].open
                  && (s.holder.sent < |Buffer(s, s.holder.job)| ==> HasRoom(s.channels[s.holder.channel])))
            && ((s.holder.Fanning? || s.holder.Closing?) && s.holder.at < |Subscribers(s, s.holder.job)| ==>
                  Target(s) in s.channels && s.channels[Target(s)].open)
            && (s.holder.Dropping? || s.holder.Warning? ==>
                  && s.holder.at < |Subscribers(s, s.holder.job)|
                  && Target(s) in s.channels && s.channels[Target(s)].open)
            && (s.holder.Warning? ==> HasRoom(s.channels[Target(s)]))
  {
    RunInv(run, i);
    var s := run[i];
    if !s.holder.Free? && !s.holder.Replaying? && s.holder.at < |Subscribers(s, s.holder.job)| {
      assert GoodSubscriber(s, s.holder.job, s.holder.at);
    }
  }

  /** The holder can always go on: it never waits for a reader, so the mutex is always given back. */
  lemma {:induction false} HolderNeverBlocks(run: seq<Manager>, i: nat)
    requires IsRun(run) && i < |run| && !run[i].holder.Free?
    ensures var s := run[i];
            || Enabled(s, ReplaySend) || Enabled(s, EndSubscribe) || Enabled(s, TrySend)
            || Enabled(s, DropOne) || Enabled(s, SendWarning) || Enabled(s, EndBroadcast)
            || Enabled(s, CloseOne) || Enabled(s, EndClose)
  {
    NoClosedChannelIsUsed(run, i);
    RunInv(run, i);
    HolderEnabled(run[i]);
  }

  lemma {:induction false} HolderEnabled(s: Manager)
    requires GoodHolder(s) && !s.holder.Free?
    requires s.holder.Replaying? && s.holder.sent < |Buffer(s, s.holder.job)| ==>
               s.holder.channel in s.channels && HasRoom(s.channels[s.holder.channel])
    requires (s.holder.Fanning? || s.holder.Closing?) && s.holder.at < |Subscribers(s, s.holder.job)| ==>
               Target(s) in s.channels
    ensures || Enabled(s, ReplaySend) || Enabled(s, EndSubscribe) || Enabled(s, TrySend)
            || Enabled(s, DropOne) || Enabled(s, SendWarning) || Enabled(s, EndBroadcast)
            || Enabled(s, CloseOne) || Enabled(s, EndClose)
  {
  }

  /** Steps of the holder left until it gives the mutex back. */
  ghost function StepsLeft(s: Manager): int {
    match s.holder
    case Free => 0
    case Replaying(job, _, sent, _) => |Buffer(s, job)| - sent + 1
    case Fanning(job, _, at) => 3 * (|Subscribers(s, job)| - at) + 1
    case Dropping(job, _, at) => 3 * (|Subscribers(s, job)| - at)
    case Warning(job, _, at) => 3 * (|Subscribers(s, job)| - at) - 1
    case Closing(job, at) => |Subscribers(s, job)| - at + 1
  }

  /** Each step of the holder brings it closer to the end, and no other step sets it back. */
  lemma {:induction false} HolderFinishes(run: seq<Manager>, i: nat, step: Step)
    requires IsRun(run) && i < |run| && !run[i].holder.Free? && Enabled(run[i], step)
    ensures var s, t := run[i], Do(run[i], step);
            if step.StoreJob? || step.DeleteJob? || step.Read? then
              t.holder == s.holder && StepsLeft(t) == StepsLeft(s)
            else 0 <= StepsLeft(t) < StepsLeft(s)
  {
    RunInv(run, i);
    StepProgress(run[i], step);
  }

  lemma {:induction false} StepProgress(s: Manager, step: Step)
    requires GoodHolder(s) && !s.holder.Free? && Enabled(s, step)
    ensures var t := Do(s, step);
            if step.StoreJob? || step.DeleteJob? || step.Read? then
              t.holder == s.holder && StepsLeft(t) == StepsLeft(s)
            else 0 <= StepsLeft(t) < StepsLeft(s)
  {
  }

  /** A finished job has no subscribers, before, during and after its clean-up. */
  lemma {:induction false} FinishedHasNoSubscribers(run: seq<Manager>, i: nat, job: JobId)
    requires IsRun(run) && i < |run| && run[i].holder.Free?
    requires job in run[i].registry.finished || (job in run[i].history.ended && job !in run[i].history.late)
    ensures job !in run[i].registry.subscribers
  {
    RunInv(run, i);
  }

  /**
   A job whose logs were closed can be subscribed to exactly when something was broadcast for it
   since its clean-up.
   */
  lemma {:induction false} RegistrationOnceEnded(run: seq<Manager>, i: nat, job: JobId, c: ChannelId)
    requires IsRun(run) && i < |run| && Enabled(run[i], BeginSubscribe(job, c))
    requires job in run[i].history.ended
    ensures var t := DoBeginSubscribe(run[i], job, c);
            var registers := t.holder.Replaying? && t.holder.register;
            registers <==> job in run[i].history.late && job !in run[i].registry.finished
  {
    RunInv(run, i);
  }

  /** The replay and every later entry up to the close. */
  ghost predicate OfferedAll(s: Manager, c: ChannelId)
    requires c in s.channels
  {
    && c in s.history.since && c in s.history.until
    && s.history.since[c] <= s.history.until[c] <= |Past(s, s.channels[c].job)|
    && s.channels[c].offered == Past(s, s.channels[c].job)[s.history.since[c]..s.history.until[c]]
  }

  /** No channel is closed before it has been offered every entry broadcast until then. */
  lemma {:induction false} ClosedWasOfferedAll(run: seq<Manager>, i: nat, c: ChannelId)
    requires IsRun(run) && i < |run| && c in run[i].channels && !run[i].channels[c].open
    ensures OfferedAll(run[i], c)
  {
    RunInv(run, i);
    assert GoodChannel(run[i], c);
  }

  /** A reader that saw the end and no warning got its replay and every entry up to the close. */
  lemma {:induction false} ReaderOfTheEnd(run: seq<Manager>, i: nat, c: ChannelId)
    requires IsRun(run) && i < |run| && c in run[i].channels && !run[i].channels[c].open
    requires run[i].channels[c].queue == [] && NoWarnings(run[i].channels[c].received)
    ensures var s, got := run[i], run[i].channels[c].received;
            && OfferedAll(s, c) && |got| == s.history.until[c] - s.history.since[c]
            && forall k :: 0 <= k < |got| ==>
                 got[k].Line? && got[k].entry == Past(s, s.channels[c].job)[s.history.since[c] + k]
  {
    var ch := run[i].channels[c];
    RunInv(run, i);
    ClosedWasOfferedAll(run, i, c);
    assert GoodChannel(run[i], c);
    OwedWhileOpen(run[i], c);
    assert Stream(ch) == ch.received;
    NoWarningNoLoss(ch);
  }

  /** A warning is owed to an open channel only. */
  lemma {:induction false} OwedWhileOpen(s: Manager, c: ChannelId)
    requires GoodSubscribers(s) && c in s.channels
    ensures OwesWarning(s, c) ==> s.channels[c].open
  {
    if OwesWarning(s, c) { assert GoodSubscriber(s, s.holder.job, s.holder.at); }
  }

  /**
   A channel is offered consecutive entries of its job, all of them up to its close once it is
   closed, and what its reader gets from it, with no more reading to do, is exactly those entries
   or says that some are missing.
   */
  lemma {:induction false} ReaderIsToldTheTruth(run: seq<Manager>, i: nat, c: ChannelId)
    requires IsRun(run) && i < |run| && c in run[i].channels && run[i].holder.Free?
    ensures var s := run[i];
            var ch, stream := s.channels[c], Stream(s.channels[c]);
            && OfferedSlice(s, c)
            && (!ch.open ==> OfferedAll(s, c))
            && Ordered(stream, ch.offered)
            && (ch.refusals == 0 ==> NoWarnings(stream))
            && |ch.offered| - ch.refusals <= |stream| <= |ch.offered|
            && (ch.refusals > 0 ==> |ch.offered| > ch.cap)
            && (NoWarnings(stream) ==>
                  && |stream| == |ch.offered|
                  && forall k :: 0 <= k < |stream| ==> stream[k].Line? && stream[k].entry == ch.offered[k])
            && (forall j :: 0 <= j < |ch.offered| && !Seen(stream, j) ==> Admitted(stream, j))
  {
    RunInv(run, i);
    var s := run[i];
    assert GoodChannel(s, c);
    if !s.channels[c].open { ClosedWasOfferedAll(run, i, c); }
    if NoWarnings(Stream(s.channels[c])) { NoWarningNoLoss(s.channels[c]); }
    forall j | 0 <= j < |s.channels[c].offered| && !Seen(Stream(s.channels[c]), j)
      ensures Admitted(Stream(s.channels[c]), j)
    {
      assert Seen(Stream(s.channels[c]), j) || Admitted(Stream(s.channels[c]), j);
    }
  }

  /** While registered, a subscriber has been offered its replay and every entry since. */
  lemma {:induction false} SubscriberMissesNothing(run: seq<Manager>, i: nat, job: JobId, k: nat)
    requires IsRun(run) && i < |run| && run[i].holder.Free? && k < |Subscribers(run[i], job)|
    ensures var s := run[i];
            var c := Subscribers(s, job)[k];
            && c in s.channels && c in s.history.since && s.history.since[c] <= |Past(s, job)|
            && s.channels[c].offered == Past(s, job)[s.history.since[c]..]
            && (s.channels[c].refusals > 0 ==> |s.channels[c].offered| > 100)
  {
    RunInv(run, i);
    assert GoodSubscriber(run[i], job, k);
    assert GoodChannel(run[i], Subscribers(run[i], job)[k]);
  }

  /** The buffer is what was broadcast since the clean-up, or its last 10,000 entries. */
  lemma {:induction false} BufferIsRecent(run: seq<Manager>, i: nat, job: JobId)
    requires IsRun(run) && i < |run|
    ensures var s := run[i];
            var past, cleaned := Past(s, job), CleanedAway(s, job);
            && cleaned <= |past|
            && Buffer(s, job) == past[if |past| - cleaned > 10_000 then |past| - 10_000 else cleaned..]
  {
    RunInv(run, i);
    BufferGood(run[i], job);
  }

  /** A subscriber of a job that was not cleaned up is offered its last 10,000 entries: all, if there are no more. */
  lemma {:induction false} WholeJobIsOffered(run: seq<Manager>, i: nat, c: ChannelId)
    requires IsRun(run) && i < |run| && c in run[i].channels
    requires run[i].channels[c].job !in run[i].history.cleaned
    ensures var s := run[i];
            var past := Past(s, s.channels[c].job);
            && c in s.history.since
            && (s.history.since[c] > 0 ==> s.history.since[c] + 10_000 <= |past|)
            && (|past| <= 10_000 ==> s.channels[c].offered <= past)
  {
    RunInv(run, i);
    assert GoodChannel(run[i], c);
  }

  /** Unsubscribing takes out that channel and no other. */
  lemma {:induction false} UnsubscribeExactly(run: seq<Manager>, i: nat, job: JobId, c: ChannelId, j: JobId)
    requires IsRun(run) && i < |run| && Enabled(run[i], Unsubscribe(job, c))
    ensures var t := Do(run[i], Unsubscribe(job, c));
            && (forall d :: d in Subscribers(t, j) <==> d in Subscribers(run[i], j) && (j == job ==> d != c))
            && t.channels == run[i].channels
  {
    RunInv(run, i);
    if j == job && job in run[i].registry.subscribers { WithoutSome(Subscribers(run[i], job), c); }
  }

  /** A channel that is in no list, and not being replayed to, is offered nothing more. */
  lemma {:induction false} UnsubscribedGetsNothing(run: seq<Manager>, i: nat, step: Step, c: ChannelId)
    requires IsRun(run) && i < |run| && c in run[i].channels && Enabled(run[i], step)
    requires forall job :: c !in Subscribers(run[i], job)
    requires run[i].holder.Replaying? ==> run[i].holder.channel != c
    ensures c in Do(run[i], step).channels && Do(run[i], step).channels[c].offered == run[i].channels[c].offered
  {
    OthersUntouched(run[i], step, c);
  }

  lemma {:induction false} OthersUntouched(s: Manager, step: Step, c: ChannelId)
    requires c in s.channels && Enabled(s, step) && (forall job :: c !in Subscribers(s, job))
    requires s.holder.Replaying? ==> s.holder.channel != c
    ensures c in Do(s, step).channels && Do(s, step).channels[c].offered == s.channels[c].offered
  {
    if step.TrySend? || step.DropOne? || step.SendWarning? || step.CloseOne? {
      assert Target(s) in Subscribers(s, s.holder.job);
    }
  }

  // ---------------------------------------------------------------------------
  // What the program's own order of calls adds
  // ---------------------------------------------------------------------------

  /** A run in which nothing is broadcast for a job once its logs have been closed. */
  ghost predicate InOrder(run: seq<Manager>) {
    && |run| > 0 && run[0] == START
    && forall i :: 0 <= i < |run| - 1 ==> NextInOrder(run[i], run[i + 1])
  }

  ghost predicate NextInOrder(s: Manager, t: Manager) {
    exists step :: Enabled(s, step) && t == Do(s, step)
                && (step.BeginBroadcast? ==> step.job !in s.history.ended)
  }

  lemma {:induction false} InOrderIsRun(run: seq<Manager>)
    requires InOrder(run)
    ensures IsRun(run)
  {
    forall i | 0 <= i < |run| - 1 ensures Next(run[i], run[i + 1]) {
      assert NextInOrder(run[i], run[i + 1]);
    }
  }

  lemma {:induction false} StepIsNotLate(s: Manager, step: Step)
    requires s.history.late == {} && Enabled(s, step)
    requires step.BeginBroadcast? ==> step.job !in s.history.ended
    ensures Do(s, step).history.late == {}
  {
  }

  lemma {:induction false} NextIsNotLate(s: Manager, t: Manager)
    requires s.history.late == {} && NextInOrder(s, t)
    ensures t.history.late == {}
  {
    var step :| Enabled(s, step) && t == Do(s, step) && (step.BeginBroadcast? ==> step.job !in s.history.ended);
    StepIsNotLate(s, step);
  }

  lemma {:induction false} NothingIsLate(run: seq<Manager>, i: nat)
    requires InOrder(run) && i < |run|
    ensures run[i].history.late == {}
  {
    if i > 0 {
      NothingIsLate(run, i - 1);
      assert NextInOrder(run[i - 1], run[i - 1 + 1]);
      NextIsNotLate(run[i - 1], run[i]);
    }
  }

  /** In such a run a job whose logs were closed never has a subscriber again, and never gets one. */
  lemma {:induction false} EndedStaysClosed(run: seq<Manager>, i: nat, job: JobId, c: ChannelId)
    requires InOrder(run) && i < |run| && run[i].holder.Free? && job in run[i].history.ended
    ensures job !in run[i].registry.subscribers
    ensures c !in run[i].channels ==>
              var t := DoBeginSubscribe(run[i], job, c);
              !(t.holder.Replaying? && t.holder.register)
  {
    InOrderIsRun(run);
    NothingIsLate(run, i);
    FinishedHasNoSubscribers(run, i, job);
    if c !in run[i].channels { RegistrationOnceEnded(run, i, job, c); }
  }

  /** Closed, for a job that was known, and offered everything there ever was. */
  ghost predicate ToPresent(s: Manager, c: ChannelId)
    requires c in s.channels
  {
    GoodEnd(s, c) && !s.channels[c].open && s.history.known[c] ==>
      s.history.until[c] == |Past(s, s.channels[c].job)|
  }

  ghost predicate ClosedToPresent(s: Manager) {
    forall c :: c in s.channels ==> ToPresent(s, c)
  }

  lemma {:induction false} BroadcastToPresent(s: Manager, job: JobId, entry: LogEntry, c: ChannelId)
    requires c in s.channels && GoodChannel(s, c) && ToPresent(s, c) && job !in s.history.ended
    ensures ToPresent(DoBeginBroadcast(s, job, entry), c)
  {
  }

  lemma {:induction false} StepToPresent(s: Manager, step: Step, c: ChannelId)
    requires Enabled(s, step) && !step.BeginBroadcast? && c in Do(s, step).channels
    requires c in s.channels ==> GoodChannel(s, c) && ToPresent(s, c)
    ensures ToPresent(Do(s, step), c)
  {
  }

  lemma {:induction false} ClosedStaysToPresent(s: Manager, step: Step)
    requires Inv(s) && ClosedToPresent(s) && Enabled(s, step)
    requires step.BeginBroadcast? ==> step.job !in s.history.ended
    ensures ClosedToPresent(Do(s, step))
  {
    forall c | c in Do(s, step).channels ensures ToPresent(Do(s, step), c) {
      if step.BeginBroadcast? {
        BroadcastToPresent(s, step.job, step.entry, c);
      } else {
        StepToPresent(s, step, c);
      }
    }
  }

  /**
   In such a run a closed channel was offered every entry ever broadcast for its job from its
   replay on, unless nobody knew the job when it subscribed; then it was closed empty.
   */
  lemma {:induction false} ClosedInOrder(run: seq<Manager>, i: nat, c: ChannelId)
    requires InOrder(run) && i < |run| && c in run[i].channels && !run[i].channels[c].open
    ensures var s := run[i];
            && c in s.history.known && c in s.history.since
            && s.history.since[c] <= |Past(s, s.channels[c].job)|
            && s.channels[c].offered
               == if s.history.known[c] then Past(s, s.channels[c].job)[s.history.since[c]..] else []
  {
    InOrderIsRun(run);
    RunInv(run, i);
    ClosedWasOfferedAll(run, i, c);
    AllToPresent(run, i);
    assert GoodChannel(run[i], c);
  }

  lemma {:induction false} NextToPresent(s: Manager, t: Manager)
    requires Inv(s) && ClosedToPresent(s) && NextInOrder(s, t)
    ensures ClosedToPresent(t)
  {
    var step :| Enabled(s, step) && t == Do(s, step) && (step.BeginBroadcast? ==> step.job !in s.history.ended);
    ClosedStaysToPresent(s, step);
  }

  lemma {:induction false} InOrderStep(run: seq<Manager>, i: nat)
    requires InOrder(run) && 0 < i < |run|
    ensures Inv(run[i - 1]) && NextInOrder(run[i - 1], run[i])
  {
    InOrderIsRun(run);
    RunInv(run, i - 1);
    assert NextInOrder(run[i - 1], run[i - 1 + 1]);
  }

  lemma {:induction false} ToPresentAt(run: seq<Manager>, i: nat)
    requires InOrder(run) && 0 < i < |run| && ClosedToPresent(run[i - 1])
    ensures ClosedToPresent(run[i])
  {
    InOrderStep(run, i);
    NextToPresent(run[i - 1], run[i]);
  }

  lemma {:induction false} AllToPresent(run: seq<Manager>, i: nat)
    requires InOrder(run) && i < |run|
    ensures ClosedToPresent(run[i])
  {
    if i > 0 {
      AllToPresent(run, i - 1);
      ToPresentAt(run, i);
    }
  }

  lemma {:induction false} ExtendRun(run: seq<Manager>, step: Step) returns (longer: seq<Manager>)
    requires IsRun(run) && Enabled(run[|run| - 1], step)
    ensures IsRun(longer) && longer == run + [Do(run[|run| - 1], step)]
  {
    longer := run + [Do(run[|run| - 1], step)];
    forall i | 0 <= i < |longer| - 1 ensures Next(longer[i], longer[i + 1]) {
      if i < |run| - 1 {
        assert Next(run[i], run[i + 1]);
      } else {
        assert Enabled(longer[i], step) && longer[i + 1] == Do(longer[i], step);
      }
    }
  }

  lemma {:induction false} CleanedUpRun(job: JobId) returns (run: seq<Manager>)
    ensures IsRun(run)
    ensures run[|run| - 1] == START.(history := START.history.(cleaned := map[job := 0], ended := {job}))
  {
    run := [START];
    run := ExtendRun(run, BeginClose(job));
    run := ExtendRun(run, EndClose);
    run := ExtendRun(run, CleanUp(job));
  }

  /** Out of order: the cleaned-up job gets a buffer, and a subscriber nobody will close. */
  lemma {:induction false} LateBroadcastReopens(job: JobId, entry: LogEntry) returns (run: seq<Manager>)
    ensures IsRun(run)
    ensures var last := run[|run| - 1];
            last.holder.Free? && job in last.history.ended && Subscribers(last, job) != []
  {
    run := CleanedUpRun(job);
    run := ExtendRun(run, BeginBroadcast(job, entry));
    run := ExtendRun(run, EndBroadcast);
    var s := run[|run| - 1];
    assert Buffer(s, job) == [entry];
    run := ExtendRun(run, BeginSubscribe(job, 0));
    run := ExtendRun(run, ReplaySend);
    run := ExtendRun(run, EndSubscribe);
  }
}
