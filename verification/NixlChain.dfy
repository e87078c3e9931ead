/** The NIXL transfer of one set of weights along a chain of ranks
    (verl/checkpoint_engine/nixl_checkpoint_engine.py) as a step system.

    Every rank runs its coroutine one step at a time, in any interleaving. A read copies single
    bytes out of the predecessor's buffer in any order while everybody else keeps running.
    Messages and notifications travel through FIFO queues. The fields `got`, `offered`, `log`,
    `groups` and `cur` only record history. */
module NixlChain {
  import opened Wrappers
  import opened Buckets
  import opened BucketLog
  import opened NixlAgent

  /** The message dictionary; `pop` turns the first two entries into None. */
  datatype Metadata = Metadata(notifyKey: Option<Key>, remoteDescs: Option<Buf>,
                               bucketMeta: seq<TensorMeta>, isLast: bool)

  datatype Xfer =
    | NoXfer
    | InFlight(key: Key, src: Buf, dst: Buf, copied: set<nat>)
    | XferDone

  datatype Pc =
    // rank 0
    | SFill | SLast
    // the other ranks
    | RFirst | RFirstRead | RHead | RNeed | RYield(k: nat) | RWaitNext | RWaitRead
    | RLastYield(k: nat) | RLastWait
    // everybody
    | Done | Crashed

  datatype Rank = Rank(
    pc: Pc,
    bufA: seq<Byte>, bufB: seq<Byte>,
    send: Buf, recv: Buf, sendDescs: Buf, recvDescs: Buf,
    op: Option<Key>,                // notify key of the offer that is still to be awaited
    remoteName: nat,                // the parameter that get_notification rebinds
    notifications: map<nat, seq<Key>>,
    metadata: Metadata, next: Metadata,
    xfer: Xfer,
    rest: seq<Tensor>, meta: seq<TensorMeta>, offset: nat,
    yielded: seq<Tensor>,
    got: nat, offered: nat)
  {
    function At(b: Buf): seq<Byte> { if b.A? then bufA else bufB }

    function With(b: Buf, bytes: seq<Byte>): Rank {
      if b.A? then this.(bufA := bytes) else this.(bufB := bytes)
    }

    function Swapped(): Rank {
      this.(send := recv, recv := send, sendDescs := recvDescs, recvDescs := sendDescs)
    }
  }

  datatype State = State(
    ranks: seq<Rank>,
    msgs: seq<seq<Metadata>>,       // msgs[i]: sent to rank i by rank i - 1, not yet read
    raw: seq<seq<Entry<Key>>>,           // raw[i]: notifications waiting inside the agent of rank i
    log: seq<Bucket>, groups: seq<seq<Tensor>>, cur: seq<Tensor>)

  datatype Action =
    | Pack
    | Publish(key: Key)
    | Poll(i: nat, last: nat)
    | Pop(i: nat)
    | ReadMsg(i: nat)
    | CopyByte(i: nat, at: nat)
    | Complete(i: nat)
    | Swap(i: nat)
    | Offer(i: nat, key: Key)
    | Yield(i: nat)
    | EndYield(i: nat)

  // ---------- messages and notifications ----------

  /** `{"notify_key": key, "remote_descs": descs, **metadata}`: entries of `metadata` win. */
  function MessageOf(key: Key, descs: Buf, metadata: Metadata): Metadata {
    metadata.(notifyKey := if metadata.notifyKey.Some? then metadata.notifyKey else Some(key),
              remoteDescs := if metadata.remoteDescs.Some? then metadata.remoteDescs else Some(descs))
  }

  /** The dictionary after `read_metadata` popped the descriptors and the key. */
  function Popped(m: Metadata): Metadata {
    m.(notifyKey := None, remoteDescs := None)
  }

  predicate FromSender(batch: seq<Entry<Key>>, name: nat) {
    exists j :: 0 <= j < |batch| && batch[j].name == name
  }

  // ---------- initial state ----------

  function StartRank(c: Config, i: nat): Rank {
    Rank(if i == 0 then SFill else RFirst, Zeros(c.cap), Zeros(c.cap), A, B, A, B, None, i + 1, map[],
         Metadata(None, None, [], false), Metadata(None, None, [], false), NoXfer,
         if i == 0 then c.weights else [], [], 0, [], 0, 0)
  }

  function Start(c: Config): State {
    State(seq(c.n, i requires 0 <= i => StartRank(c, i)), seq(c.n, _ => []), seq(c.n, _ => []), [], [], [])
  }

  // ---------- when a step can happen ----------

  predicate Shape(c: Config, s: State) {
    c.n >= 2 && |s.ranks| == |s.msgs| == |s.raw| == c.n
  }

  /** The rank is inside `readable_op.wait_for_complete()`. */
  predicate Waiting(c: Config, x: Rank) {
    x.op.Some? && ((x.pc.SFill? && NeedsFlush(c, x.rest, x.offset)) || x.pc.SLast? || x.pc.RWaitNext? || x.pc.RLastWait?)
  }

  predicate AllCopied(c: Config, copied: set<nat>) {
    forall k: nat :: k < c.cap ==> k in copied
  }

  predicate Enabled(c: Config, s: State, a: Action)
    requires Shape(c, s)
  {
    match a
    case Pack => s.ranks[0].pc.SFill? && !NeedsFlush(c, s.ranks[0].rest, s.ranks[0].offset)
    case Publish(_) => s.ranks[0].pc.SFill? && NeedsFlush(c, s.ranks[0].rest, s.ranks[0].offset) && s.ranks[0].op.None?
    case Poll(i, last) =>
      && i < c.n && Waiting(c, s.ranks[i]) && QueueOf(s.ranks[i].notifications, s.ranks[i].remoteName) == []
      && FromSender(s.raw[i], last)
    case Pop(i) =>
      i < c.n && Waiting(c, s.ranks[i]) && QueueOf(s.ranks[i].notifications, s.ranks[i].remoteName) != []
    case ReadMsg(i) =>
      0 < i < c.n && (s.ranks[i].pc.RFirst? || s.ranks[i].pc.RNeed?) && s.msgs[i] != []
    case CopyByte(i, at) =>
      && 0 < i < c.n && s.ranks[i].xfer.InFlight? && at !in s.ranks[i].xfer.copied
      && at < |s.ranks[i - 1].At(s.ranks[i].xfer.src)| && at < |s.ranks[i].At(s.ranks[i].xfer.dst)|
      && at < c.cap
    case Complete(i) =>
      0 < i < c.n && s.ranks[i].xfer.InFlight? && AllCopied(c, s.ranks[i].xfer.copied)
    case Swap(i) =>
      0 < i < c.n && s.ranks[i].xfer.XferDone? && (s.ranks[i].pc.RFirstRead? || s.ranks[i].pc.RWaitRead?)
    case Offer(i, _) => 0 < i < c.n && s.ranks[i].pc.RHead?
    case Yield(i) => 0 < i < c.n && InYield(s.ranks[i]) && s.ranks[i].pc.k < |s.ranks[i].metadata.bucketMeta|
    case EndYield(i) => 0 < i < c.n && InYield(s.ranks[i]) && s.ranks[i].pc.k >= |s.ranks[i].metadata.bucketMeta|
  }

  predicate InYield(x: Rank) {
    x.pc.RYield? || x.pc.RLastYield?
  }

  // ---------- what a step does ----------

  /** Copy the next tensor behind the packed ones and note it in the bucket metadata. */
  function DoPack(c: Config, s: State): State
    requires Shape(c, s) && Enabled(c, s, Pack)
  {
    var x := s.ranks[0];
    var t := x.rest[0];
    var buf := x.At(x.send);
    var lo := if x.offset <= |buf| then x.offset else |buf|;
    var hi := if x.offset + |t.bytes| <= |buf| then x.offset + |t.bytes| else |buf|;
    var x' := x.With(x.send, buf[..lo] + t.bytes + buf[hi..])
               .(meta := Put(x.meta, MetaAt(t, x.offset)), offset := x.offset + |t.bytes|, rest := x.rest[1..]);
    s.(ranks := s.ranks[0 := x'], cur := s.cur + [t])
  }

  /** Offer the open bucket to rank 1, swap the buffers and start the next bucket; a tensor that
      does not fit an empty bucket trips the assertion. */
  function DoPublish(c: Config, s: State, key: Key): State
    requires Shape(c, s) && Enabled(c, s, Publish(key))
  {
    var x := s.ranks[0];
    var last := x.rest == [];
    var msg := MessageOf(key, x.sendDescs, Metadata(None, None, x.meta, last));
    var y := x.(op := Some(key), remoteName := 1, offered := x.offered + 1);
    var x' := if last then y.(pc := SLast)
              else y.Swapped().(meta := [], offset := 0,
                                pc := if |x.rest[0].bytes| > c.cap then Crashed else SFill);
    s.(ranks := s.ranks[0 := x'], msgs := s.msgs[1 := s.msgs[1] + [msg]],
       log := s.log + [Bucket(x.meta, last, x.At(x.send))], groups := s.groups + [s.cur], cur := [])
  }

  /** One round of the polling loop: file every notification under its sender; `remote_name` is
      left bound to a sender of the batch. */
  function DoPoll(c: Config, s: State, i: nat, last: nat): State
    requires Shape(c, s) && Enabled(c, s, Poll(i, last))
  {
    var x := s.ranks[i];
    s.(ranks := s.ranks[i := x.(notifications := File(x.notifications, s.raw[i]), remoteName := last)],
       raw := s.raw[i := []])
  }

  function AfterWait(pc: Pc): Pc {
    match pc
    case SLast => Done
    case RWaitNext => RWaitRead
    case RLastWait => Done
    case _ => pc
  }

  /** Take the first notification of the queue and compare it with the key of the offer. */
  function DoPop(c: Config, s: State, i: nat): State
    requires Shape(c, s) && Enabled(c, s, Pop(i))
  {
    var x := s.ranks[i];
    var q := QueueOf(x.notifications, x.remoteName);
    var y := x.(notifications := x.notifications[x.remoteName := q[1..]]);
    s.(ranks := s.ranks[i := if x.op == Some(q[0]) then y.(op := None, pc := AfterWait(x.pc))
                             else y.(pc := Crashed)])
  }

  /** Read the metadata of the next bucket, pop key and descriptors, start the transfer. */
  function DoReadMsg(c: Config, s: State, i: nat): State
    requires Shape(c, s) && Enabled(c, s, ReadMsg(i))
  {
    var x := s.ranks[i];
    var m := s.msgs[i][0];
    var x' :=
      if m.notifyKey.None? || m.remoteDescs.None? then x.(pc := Crashed)
      else
        var y := x.(xfer := InFlight(m.notifyKey.value, m.remoteDescs.value, x.recvDescs, {}), got := x.got + 1);
        if x.pc.RFirst? then y.(pc := RFirstRead, metadata := Popped(m))
        else y.(pc := RYield(0), next := Popped(m));
    s.(ranks := s.ranks[i := x'], msgs := s.msgs[i := s.msgs[i][1..]])
  }

  /** The transfer engine moves one byte. */
  function DoCopy(c: Config, s: State, i: nat, at: nat): State
    requires Shape(c, s) && Enabled(c, s, CopyByte(i, at))
  {
    var x := s.ranks[i];
    var byte := s.ranks[i - 1].At(x.xfer.src)[at];
    var x' := x.With(x.xfer.dst, x.At(x.xfer.dst)[at := byte]).(xfer := x.xfer.(copied := x.xfer.copied + {at}));
    s.(ranks := s.ranks[i := x'])
  }

  /** All bytes moved: the reader can see it and the owner of the buffer gets the notification. */
  function DoComplete(c: Config, s: State, i: nat): State
    requires Shape(c, s) && Enabled(c, s, Complete(i))
  {
    var x := s.ranks[i];
    s.(ranks := s.ranks[i := x.(xfer := XferDone)],
       raw := s.raw[i - 1 := s.raw[i - 1] + [Entry(i, [x.xfer.key])]])
  }

  /** The awaited read is complete: take over its metadata and swap the buffers. */
  function DoSwap(c: Config, s: State, i: nat): State
    requires Shape(c, s) && Enabled(c, s, Swap(i))
  {
    var x := s.ranks[i];
    var y := if x.pc.RWaitRead? then x.(metadata := x.next) else x;
    s.(ranks := s.ranks[i := y.Swapped().(pc := RHead, xfer := NoXfer)])
  }

  /** Offer the bucket just received to the successor, if there is one. */
  function DoOffer(c: Config, s: State, i: nat, key: Key): State
    requires Shape(c, s) && Enabled(c, s, Offer(i, key))
  {
    var x := s.ranks[i];
    var y := x.(pc := if x.metadata.isLast then RLastYield(0) else RNeed);
    if i < c.n - 1 then
      s.(ranks := s.ranks[i := y.(op := Some(key), remoteName := i + 1, offered := x.offered + 1)],
         msgs := s.msgs[i + 1 := s.msgs[i + 1] + [MessageOf(key, x.sendDescs, x.metadata)]])
    else
      s.(ranks := s.ranks[i := y])
  }

  /** Hand the next tensor, a view of the send buffer, to the consumer. */
  function DoYield(c: Config, s: State, i: nat): State
    requires Shape(c, s) && Enabled(c, s, Yield(i))
  {
    var x := s.ranks[i];
    var t := View(x.At(x.send), x.metadata.bucketMeta[x.pc.k]);
    s.(ranks := s.ranks[i := x.(yielded := x.yielded + [t], pc := x.pc.(k := x.pc.k + 1))])
  }

  function DoEndYield(c: Config, s: State, i: nat): State
    requires Shape(c, s) && Enabled(c, s, EndYield(i))
  {
    var x := s.ranks[i];
    var pc := if x.pc.RYield? then (if x.op.Some? then RWaitNext else RWaitRead)
              else (if x.op.Some? then RLastWait else Done);
    s.(ranks := s.ranks[i := x.(pc := pc)])
  }

  function Apply(c: Config, s: State, a: Action): State
    requires Shape(c, s) && Enabled(c, s, a)
  {
    match a
    case Pack => DoPack(c, s)
    case Publish(key) => DoPublish(c, s, key)
    case Poll(i, last) => DoPoll(c, s, i, last)
    case Pop(i) => DoPop(c, s, i)
    case ReadMsg(i) => DoReadMsg(c, s, i)
    case CopyByte(i, at) => DoCopy(c, s, i, at)
    case Complete(i) => DoComplete(c, s, i)
    case Swap(i) => DoSwap(c, s, i)
    case Offer(i, key) => DoOffer(c, s, i, key)
    case Yield(i) => DoYield(c, s, i)
    case EndYield(i) => DoEndYield(c, s, i)
  }

  // ---------- runs ----------

  ghost predicate Next(c: Config, s: State, s': State) {
    Shape(c, s) && exists a :: Enabled(c, s, a) && s' == Apply(c, s, a)
  }

  /** A finite run: it begins in the start state and every state follows from the previous one. */
  ghost predicate Run(c: Config, run: seq<State>) {
    && |run| > 0 && run[0] == Start(c)
    && forall j, k :: 0 <= j && k == j + 1 < |run| ==> Next(c, run[j], run[k])
  }
}
