/**
 The channel of one log subscriber: what it was offered, what it was refused, and what its
 warnings admit to.
 */
module LogStream {
  import opened LogSinks
  import opened Sequences

  /** `index` is the position of the entry among those offered; it serves the proofs only. */
  datatype Msg = Line(entry: LogEntry, index: nat) | LagWarning(at: int, index: nat)

  /**
   A bounded channel. `offered` holds the entries presented to it so far, `received` what its
   reader has taken; `refusals` counts how often it was full when an entry was presented.
   */
  datatype Channel = Channel(
    job: int, cap: nat, queue: seq<Msg>, open: bool, offered: seq<LogEntry>, received: seq<Msg>, refusals: nat)

  function NewChannel(job: int, cap: nat): Channel { Channel(job, cap, [], true, [], [], 0) }

  predicate HasRoom(ch: Channel) { |ch.queue| < ch.cap }

  /** A send that finds room. */
  function Accept(ch: Channel, entry: LogEntry): Channel {
    ch.(queue := ch.queue + [Msg.Line(entry, |ch.offered|)], offered := ch.offered + [entry])
  }

  /** A send that finds the channel full takes the other branch of the select. */
  function Refuse(ch: Channel, entry: LogEntry): Channel {
    ch.(offered := ch.offered + [entry], refusals := ch.refusals + 1)
  }

  /** The broadcaster takes the oldest message out, if the reader has not emptied the channel. */
  function DropOldest(ch: Channel): Channel {
    if ch.queue == [] then ch else ch.(queue := ch.queue[1..])
  }

  function Warn(ch: Channel, at: int): Channel {
    if HasRoom(ch) then ch.(queue := ch.queue + [LagWarning(at, |ch.offered|)]) else ch
  }

  function Receive(ch: Channel): Channel
    requires ch.queue != []
  {
    ch.(queue := ch.queue[1..], received := ch.received + [ch.queue[0]])
  }

  /** Everything the reader has or will have taken. */
  function Stream(ch: Channel): seq<Msg> { ch.received + ch.queue }

  // ---------------------------------------------------------------------------
  // Order
  // ---------------------------------------------------------------------------

  function Key(msg: Msg): nat { if msg.Line? then 2 * msg.index + 1 else 2 * msg.index }

  predicate Genuine(msg: Msg, offered: seq<LogEntry>) {
    && (msg.Line? ==> msg.index < |offered| && msg.entry == offered[msg.index])
    && (msg.LagWarning? ==> msg.index <= |offered|)
  }

  /** Lines are offered entries, in order and without repetition. */
  ghost predicate Ordered(stream: seq<Msg>, offered: seq<LogEntry>) {
    && (forall k :: 0 <= k < |stream| ==> Genuine(stream[k], offered))
    && (forall j, k :: 0 <= j < k < |stream| ==> Key(stream[j]) < Key(stream[k]))
  }

  ghost predicate Seen(stream: seq<Msg>, i: nat) {
    exists k :: 0 <= k < |stream| && stream[k].Line? && stream[k].index == i
  }

  /** A warning placed when entry i had already been offered. */
  ghost predicate Admitted(stream: seq<Msg>, i: nat) {
    exists k :: 0 <= k < |stream| && stream[k].LagWarning? && stream[k].index > i
  }

  /** Every entry offered is seen, or a later warning admits that some were lost. */
  ghost predicate Accounted(ch: Channel) {
    forall i :: 0 <= i < |ch.offered| ==> Seen(Stream(ch), i) || Admitted(Stream(ch), i)
  }

  ghost predicate NoWarnings(stream: seq<Msg>) {
    forall k :: 0 <= k < |stream| ==> !stream[k].LagWarning?
  }

  ghost predicate ChannelOk(ch: Channel) {
    && |ch.queue| <= ch.cap
    && Ordered(Stream(ch), ch.offered)
    && (ch.refusals == 0 ==> Accounted(ch) && NoWarnings(Stream(ch)))
    && |Stream(ch)| <= |ch.offered| && (ch.refusals == 0 ==> |Stream(ch)| == |ch.offered|)
    && (ch.refusals > 0 ==> |ch.offered| > ch.cap)
  }

  /**
   A refusal costs the entry it refuses and one message taken out for the warning, no more: the
   stream is shorter than what was offered by one message for each refusal at most.
   */
  ghost predicate Kept(ch: Channel) { |ch.offered| <= |Stream(ch)| + ch.refusals }

  /** Between a refusal and its warning: nothing in the stream is as recent as the refusal. */
  ghost predicate AwaitsWarning(ch: Channel) {
    && ChannelOk(ch) && ch.refusals > 0
    && |Stream(ch)| < |ch.offered| <= |Stream(ch)| + ch.refusals + 1
    && forall k :: 0 <= k < |Stream(ch)| ==> Key(Stream(ch)[k]) < 2 * |ch.offered|
  }

  lemma {:induction false} EmptyChannelOk(ch: Channel)
    requires ch.queue == [] && ch.received == [] && ch.offered == [] && ch.refusals == 0
    ensures ChannelOk(ch) && Accounted(ch) && Kept(ch)
  {
    assert Stream(ch) == [];
  }

  /** A longer stream still sees and admits what it did. */
  lemma {:induction false} StreamGrows(stream: seq<Msg>, msg: Msg)
    ensures forall i {:trigger Seen(stream, i)} :: Seen(stream, i) ==> Seen(stream + [msg], i)
    ensures forall i {:trigger Admitted(stream, i)} :: Admitted(stream, i) ==> Admitted(stream + [msg], i)
  {
    var more := stream + [msg];
    forall i | Seen(stream, i) ensures Seen(more, i) {
      var k :| 0 <= k < |stream| && stream[k].Line? && stream[k].index == i;
      assert more[k] == stream[k];
    }
    forall i | Admitted(stream, i) ensures Admitted(more, i) {
      var k :| 0 <= k < |stream| && stream[k].LagWarning? && stream[k].index > i;
      assert more[k] == stream[k];
    }
  }

  lemma {:induction false} AcceptStream(ch: Channel, entry: LogEntry)
    ensures Stream(Accept(ch, entry)) == Stream(ch) + [Msg.Line(entry, |ch.offered|)]
  {
    Regroup(ch.received, ch.queue, [Msg.Line(entry, |ch.offered|)]);
  }

  lemma {:induction false} LastIsSeen(stream: seq<Msg>, entry: LogEntry, i: nat)
    ensures Seen(stream + [Msg.Line(entry, i)], i)
  {
    var more := stream + [Msg.Line(entry, i)];
    assert more[|stream|].Line? && more[|stream|].index == i;
  }

  lemma {:induction false} AcceptAccounts(ch: Channel, entry: LogEntry)
    requires Accounted(ch)
    ensures Accounted(Accept(ch, entry))
  {
    var s, s' := Stream(ch), Stream(Accept(ch, entry));
    AcceptStream(ch, entry);
    StreamGrows(s, Msg.Line(entry, |ch.offered|));
    LastIsSeen(s, entry, |ch.offered|);
    forall i | 0 <= i < |ch.offered| + 1 ensures Seen(s', i) || Admitted(s', i) {
      if i < |ch.offered| { assert Seen(s, i) || Admitted(s, i); }
    }
  }

  lemma {:induction false} AcceptOrdered(ch: Channel, entry: LogEntry)
    requires Ordered(Stream(ch), ch.offered)
    ensures Ordered(Stream(Accept(ch, entry)), ch.offered + [entry])
  {
    var msg := Msg.Line(entry, |ch.offered|);
    var s := Stream(ch);
    AcceptStream(ch, entry);
    if s != [] { assert Genuine(s[|s| - 1], ch.offered); }
    OrderedGrows(s, ch.offered, ch.offered + [entry], msg);
  }

  lemma {:induction false} AcceptUnwarned(ch: Channel, entry: LogEntry)
    requires NoWarnings(Stream(ch))
    ensures NoWarnings(Stream(Accept(ch, entry)))
  {
    AcceptStream(ch, entry);
  }

  lemma {:induction false} AcceptKeeps(ch: Channel, entry: LogEntry)
    requires ChannelOk(ch) && HasRoom(ch)
    ensures ChannelOk(Accept(ch, entry))
    ensures Accounted(ch) ==> Accounted(Accept(ch, entry))
    ensures Kept(ch) ==> Kept(Accept(ch, entry))
  {
    AcceptStream(ch, entry);
    AcceptOrdered(ch, entry);
    if Accounted(ch) { AcceptAccounts(ch, entry); }
    if ch.refusals == 0 { AcceptUnwarned(ch, entry); }
  }

  lemma {:induction false} OrderedGrows(
    stream: seq<Msg>, offered: seq<LogEntry>, offered': seq<LogEntry>, msg: Msg)
    requires Ordered(stream, offered) && offered <= offered' && Genuine(msg, offered')
    requires Key(msg) >= 2 * |offered|
    requires stream != [] ==> Key(stream[|stream| - 1]) < Key(msg)
    ensures Ordered(stream + [msg], offered')
  {
    var more := stream + [msg];
    forall k | 0 <= k < |more| ensures Genuine(more[k], offered') {
      if k < |stream| { assert Genuine(stream[k], offered); }
    }
    forall j, k | 0 <= j < k < |more| ensures Key(more[j]) < Key(more[k]) {
      if k == |stream| && j < k - 1 { assert Key(stream[j]) < Key(stream[|stream| - 1]); }
    }
  }

  /** Refusing an entry leaves it unaccounted for until the warning is placed. */
  lemma {:induction false} RefuseKeeps(ch: Channel, entry: LogEntry)
    requires ChannelOk(ch) && Kept(ch) && !HasRoom(ch)
    ensures AwaitsWarning(Refuse(ch, entry)) && Kept(Refuse(ch, entry))
  {
    forall k | 0 <= k < |Stream(ch)| ensures Genuine(Stream(ch)[k], ch.offered + [entry]) {
      assert Genuine(Stream(ch)[k], ch.offered);
    }
  }

  lemma {:induction false} DropKeeps(ch: Channel)
    requires AwaitsWarning(ch) && Kept(ch)
    ensures AwaitsWarning(DropOldest(ch))
    ensures ch.cap > 0 ==> HasRoom(DropOldest(ch))
  {
    if ch.queue != [] {
      var s, s' := Stream(ch), Stream(DropOldest(ch));
      var n := |ch.received|;
      forall k | 0 <= k < |s'| ensures Genuine(s'[k], ch.offered) && Key(s'[k]) < 2 * |ch.offered| {
        assert s'[k] == s[if k < n then k else k + 1];
      }
      forall j, k | 0 <= j < k < |s'| ensures Key(s'[j]) < Key(s'[k]) {
        assert s'[j] == s[if j < n then j else j + 1] && s'[k] == s[if k < n then k else k + 1];
      }
    }
  }

  /** The warning accounts for everything offered so far. */
  lemma {:induction false} WarnKeeps(ch: Channel, at: int)
    requires AwaitsWarning(ch) && HasRoom(ch)
    ensures ChannelOk(Warn(ch, at)) && Accounted(Warn(ch, at)) && Kept(Warn(ch, at))
  {
    var ch' := Warn(ch, at);
    var msg := LagWarning(at, |ch.offered|);
    assert Stream(ch') == Stream(ch) + [msg];
    OrderedGrows(Stream(ch), ch.offered, ch'.offered, msg);
    assert Stream(ch')[|Stream(ch)|] == msg;
    forall i | 0 <= i < |ch'.offered| ensures Admitted(Stream(ch'), i) {
    }
  }

  lemma {:induction false} ReceiveKeeps(ch: Channel)
    requires ChannelOk(ch) && ch.queue != []
    ensures ChannelOk(Receive(ch)) && Stream(Receive(ch)) == Stream(ch)
    ensures Accounted(ch) ==> Accounted(Receive(ch))
    ensures AwaitsWarning(ch) ==> AwaitsWarning(Receive(ch))
    ensures Kept(ch) ==> Kept(Receive(ch))
  {
    assert Stream(Receive(ch)) == Stream(ch);
  }

  // ---------------------------------------------------------------------------
  // What a stream tells its reader
  // ---------------------------------------------------------------------------

  lemma {:induction false} DenseIndex(ch: Channel, k: nat)
    requires ChannelOk(ch) && Accounted(ch) && NoWarnings(Stream(ch))
    requires k < |ch.offered|
    ensures k < |Stream(ch)| && Stream(ch)[k].index == k
  {
    var s := Stream(ch);
    assert Seen(s, k);
    var p :| 0 <= p < |s| && s[p].Line? && s[p].index == k;
    if k > 0 { DenseIndex(ch, k - 1); }
  }

  lemma {:induction false} IndexAtLeast(s: seq<Msg>, offered: seq<LogEntry>, k: nat)
    requires Ordered(s, offered) && NoWarnings(s) && k < |s|
    ensures s[k].index >= k
  {
    if k > 0 {
      IndexAtLeast(s, offered, k - 1);
      assert Key(s[k - 1]) < Key(s[k]);
    }
  }

  /** A reader that is never warned gets exactly what was offered. */
  lemma {:induction false} NoWarningNoLoss(ch: Channel)
    requires ChannelOk(ch) && Accounted(ch) && NoWarnings(Stream(ch))
    ensures |Stream(ch)| == |ch.offered|
    ensures forall k :: 0 <= k < |ch.offered| ==>
              Stream(ch)[k].Line? && Stream(ch)[k].entry == ch.offered[k]
  {
    var s := Stream(ch);
    var n := |ch.offered|;
    forall k | 0 <= k < n ensures k < |s| && s[k].index == k { DenseIndex(ch, k); }
    if n > 0 { DenseIndex(ch, n - 1); }
    if s != [] {
      IndexAtLeast(s, ch.offered, |s| - 1);
      assert Genuine(s[|s| - 1], ch.offered);
    }
    forall k | 0 <= k < |ch.offered| ensures s[k].Line? && s[k].entry == ch.offered[k] {
      assert Genuine(s[k], ch.offered);
    }
  }
}
