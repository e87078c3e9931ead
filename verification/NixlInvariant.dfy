/** The inductive invariant of the NIXL chain: what each rank knows about the buckets offered so
    far, and what is in flight on each link. */
module NixlInvariant {
  import opened Wrappers
  import opened Buckets
  import opened BucketLog
  import opened NixlAgent
  import opened NixlChain

  function MetadataOf(b: Bucket): Metadata {
    Metadata(None, None, b.meta, b.isLast)
  }

  // ---------- one rank ----------

  ghost predicate BuffersOk(c: Config, x: Rank) {
    && |x.bufA| == |x.bufB| == c.cap
    && x.recv == x.send.Other()
    && x.sendDescs == x.send && x.recvDescs == x.recv
  }

  ghost predicate SenderOk(c: Config, x: Rank, log: seq<Bucket>, groups: seq<seq<Tensor>>, cur: seq<Tensor>) {
    && BuffersOk(c, x)
    && x.xfer.NoXfer? && x.yielded == [] && x.offered == |log|
    && |x.rest| <= |c.weights| && c.weights[|c.weights| - |x.rest|..] == x.rest
    && match x.pc
       case SFill =>
         && Cut(c.weights, c.cap) == groups + Greedy(x.rest, cur, c.cap)
         && Holds(x.At(x.send), x.meta, cur) && AllSound(cur)
         && x.offset == |Flat(cur)| <= c.cap
         && (log != [] ==> !log[|log| - 1].isLast)
       case SLast => log != [] && log[|log| - 1].isLast && x.op.Some?
       case Done => log != [] && log[|log| - 1].isLast && x.op.None?
       case Crashed => !Fits(c.weights, c.cap)
       case _ => false
  }

  /** The send buffer and the metadata are those of bucket r. */
  ghost predicate Holding(x: Rank, log: seq<Bucket>, r: int) {
    0 <= r < |log| && x.At(x.send) == log[r].content && x.metadata == MetadataOf(log[r])
  }

  /** The transfer fills the receive buffer with bucket r. */
  ghost predicate Incoming(c: Config, x: Rank, log: seq<Bucket>, r: int) {
    0 <= r < |log| &&
    match x.xfer
    case NoXfer => false
    case InFlight(_, _, dst, copied) =>
      && dst == x.recv
      && forall k :: k in copied ==> k < c.cap && k < |log[r].content| && k < |x.At(x.recv)| && x.At(x.recv)[k] == log[r].content[k]
    case XferDone => x.At(x.recv) == log[r].content
  }

  /** How many buckets this rank has offered: `h` of them, or none if it has no successor. */
  ghost predicate OfferedIs(x: Rank, hasNext: bool, h: int) {
    x.offered == if hasNext then h else 0
  }

  ghost predicate ReceiverOk(c: Config, hasNext: bool, x: Rank, log: seq<Bucket>, groups: seq<seq<Tensor>>) {
    && BuffersOk(c, x) && |log| == |groups|
    && (x.op.Some? ==> hasNext)
    && match x.pc
       case RFirst =>
         x.got == 0 && x.op.None? && x.xfer.NoXfer? && x.yielded == [] && x.offered == 0
       case RFirstRead =>
         && x.got == 1 && x.op.None? && Incoming(c, x, log, 0) && x.metadata == MetadataOf(log[0])
         && x.yielded == [] && x.offered == 0
       case RHead =>
         && x.op.None? && x.xfer.NoXfer? && Holding(x, log, x.got - 1)
         && YieldedBefore(x.yielded, groups, x.got - 1) && OfferedIs(x, hasNext, x.got - 1)
       case RNeed =>
         && x.op.Some? == hasNext && x.xfer.NoXfer? && Holding(x, log, x.got - 1) && !x.metadata.isLast
         && YieldedBefore(x.yielded, groups, x.got - 1) && OfferedIs(x, hasNext, x.got)
       case RYield(k) =>
         && x.op.Some? == hasNext && Incoming(c, x, log, x.got - 1) && Holding(x, log, x.got - 2)
         && x.next == MetadataOf(log[x.got - 1])
         && YieldedUpTo(x.yielded, groups, x.got - 2, k) && OfferedIs(x, hasNext, x.got - 1)
       case RWaitNext =>
         && x.op.Some? && Incoming(c, x, log, x.got - 1) && Holding(x, log, x.got - 2)
         && x.next == MetadataOf(log[x.got - 1])
         && YieldedBefore(x.yielded, groups, x.got - 1) && OfferedIs(x, hasNext, x.got - 1)
       case RWaitRead =>
         && x.op.None? && Incoming(c, x, log, x.got - 1)
         && x.next == MetadataOf(log[x.got - 1])
         && YieldedBefore(x.yielded, groups, x.got - 1) && OfferedIs(x, hasNext, x.got - 1)
       case RLastYield(k) =>
         && x.op.Some? == hasNext && x.xfer.NoXfer? && Holding(x, log, x.got - 1) && x.metadata.isLast
         && YieldedUpTo(x.yielded, groups, x.got - 1, k) && OfferedIs(x, hasNext, x.got)
       case RLastWait =>
         && x.op.Some? && x.xfer.NoXfer? && Holding(x, log, x.got - 1) && x.metadata.isLast
         && YieldedBefore(x.yielded, groups, x.got) && OfferedIs(x, hasNext, x.got)
       case Done =>
         && x.op.None? && x.xfer.NoXfer? && 0 < x.got <= |log| && log[x.got - 1].isLast
         && YieldedBefore(x.yielded, groups, x.got) && OfferedIs(x, hasNext, x.got)
       case _ => false
  }

  // ---------- one link ----------

  /** The buffer whose offer is still to be acknowledged: rank 0 swaps right after offering, the
      last bucket and all forwarded buckets are offered from the current send buffer. */
  function OutBuf(x: Rank): Buf {
    if x.pc.SFill? || x.pc.Crashed? then x.recv else x.send
  }

  /** The message of the outstanding offer is still unread. */
  ghost predicate Announced(c: Config, i: nat, x: Rank, y: Rank, msgs: seq<Metadata>, raw: seq<Entry<Key>>, log: seq<Bucket>)
    requires x.op.Some?
  {
    && 0 < x.offered <= |log|
    && msgs == [MessageOf(x.op.value, OutBuf(x), MetadataOf(log[x.offered - 1]))]
    && raw == [] && QueueOf(x.notifications, i + 1) == []
    && y.got == x.offered - 1 && !y.xfer.InFlight?
  }

  /** The successor is copying the offered buffer. */
  ghost predicate Reading(c: Config, i: nat, x: Rank, y: Rank, msgs: seq<Metadata>, raw: seq<Entry<Key>>)
    requires x.op.Some?
  {
    && msgs == [] && raw == [] && QueueOf(x.notifications, i + 1) == []
    && y.got == x.offered && y.xfer.InFlight? && y.xfer.key == x.op.value && y.xfer.src == OutBuf(x)
  }

  /** The notification is on its way or filed. */
  ghost predicate Acknowledged(c: Config, i: nat, x: Rank, y: Rank, msgs: seq<Metadata>, raw: seq<Entry<Key>>)
    requires x.op.Some?
  {
    && msgs == [] && y.got == x.offered && !y.xfer.InFlight?
    && ( (raw == [Entry(i + 1, [x.op.value])] && QueueOf(x.notifications, i + 1) == [])
      || (raw == [] && QueueOf(x.notifications, i + 1) == [x.op.value]))
  }

  /** At most one offer is outstanding on a link, and the offered buffer keeps its content. */
  ghost predicate LinkOk(c: Config, i: nat, x: Rank, y: Rank, msgs: seq<Metadata>, raw: seq<Entry<Key>>, log: seq<Bucket>) {
    if x.op.Some? then
      && x.remoteName == i + 1
      && 0 < x.offered <= |log| && x.At(OutBuf(x)) == log[x.offered - 1].content
      && ( Announced(c, i, x, y, msgs, raw, log)
        || Reading(c, i, x, y, msgs, raw)
        || Acknowledged(c, i, x, y, msgs, raw))
    else
      msgs == [] && raw == [] && QueueOf(x.notifications, i + 1) == [] && y.got == x.offered && !y.xfer.InFlight?
  }

  // ---------- the whole chain ----------

  ghost predicate ReceiverAt(c: Config, s: State, i: nat)
    requires Shape(c, s) && 0 < i < c.n
  {
    ReceiverOk(c, i < c.n - 1, s.ranks[i], s.log, s.groups)
  }

  ghost predicate LinkAt(c: Config, s: State, i: nat)
    requires Shape(c, s) && i < c.n - 1
  {
    LinkOk(c, i, s.ranks[i], s.ranks[i + 1], s.msgs[i + 1], s.raw[i], s.log)
  }

  ghost predicate Inv(c: Config, s: State) {
    && Shape(c, s)
    && AllSound(c.weights)
    && LogOk(c, s.log, s.groups)
    && SenderOk(c, s.ranks[0], s.log, s.groups, s.cur)
    && (forall i: nat :: 0 < i < c.n ==> ReceiverAt(c, s, i))
    && (forall i: nat :: i < c.n - 1 ==> LinkAt(c, s, i))
  }

  // ---------- frames ----------

  /** A step of rank j that leaves the log alone touches at most the two links of rank j. */
  ghost predicate OnlyRank(c: Config, s: State, s': State, j: nat)
    requires Shape(c, s)
  {
    && Shape(c, s') && j < c.n
    && (forall i: nat :: i < c.n && i != j ==> s'.ranks[i] == s.ranks[i])
    && (forall i: nat :: i < c.n && i != j && i != j + 1 ==> s'.msgs[i] == s.msgs[i])
    && (forall i: nat :: i < c.n && i != j && i + 1 != j ==> s'.raw[i] == s.raw[i])
  }

  lemma {:induction false} InvFromParts(c: Config, s: State, s': State, j: nat)
    requires Inv(c, s) && 0 < j < c.n && OnlyRank(c, s, s', j)
    requires s'.log == s.log && s'.groups == s.groups && s'.cur == s.cur
    requires ReceiverAt(c, s', j) && LinkAt(c, s', j - 1) && (j < c.n - 1 ==> LinkAt(c, s', j))
    ensures Inv(c, s')
  {
    forall i: nat | 0 < i < c.n
      ensures ReceiverAt(c, s', i)
    {
      assert ReceiverAt(c, s, i);
    }
    forall i: nat | i < c.n - 1
      ensures LinkAt(c, s', i)
    {
      assert LinkAt(c, s, i);
    }
  }

  // ---------- the log only grows ----------

  lemma {:induction false} HoldingMono(x: Rank, log: seq<Bucket>, b: Bucket, r: int)
    ensures Holding(x, log, r) ==> Holding(x, log + [b], r)
    ensures 0 <= r < |log| ==> (log + [b])[r] == log[r]
  {}

  lemma {:induction false} IncomingMono(c: Config, x: Rank, log: seq<Bucket>, b: Bucket, r: int)
    ensures Incoming(c, x, log, r) ==> Incoming(c, x, log + [b], r)
  {}

  lemma {:induction false} ReceiverMono(c: Config, hasNext: bool, x: Rank, log: seq<Bucket>, groups: seq<seq<Tensor>>,
                                        b: Bucket, g: seq<Tensor>)
    requires ReceiverOk(c, hasNext, x, log, groups)
    ensures ReceiverOk(c, hasNext, x, log + [b], groups + [g])
  {
    hide YieldedBefore, YieldedUpTo, BuffersOk;
    HoldingMono(x, log, b, x.got - 1);
    HoldingMono(x, log, b, x.got - 2);
    IncomingMono(c, x, log, b, x.got - 1);
    YieldedMono(x.yielded, groups, g, x.got);
    YieldedMono(x.yielded, groups, g, x.got - 1);
    YieldedMono(x.yielded, groups, g, x.got - 2);
  }

  lemma {:induction false} LinkMono(c: Config, i: nat, x: Rank, y: Rank, msgs: seq<Metadata>, raw: seq<Entry<Key>>,
                                    log: seq<Bucket>, b: Bucket)
    requires LinkOk(c, i, x, y, msgs, raw, log)
    ensures LinkOk(c, i, x, y, msgs, raw, log + [b])
  {
    assert forall r :: 0 <= r < |log| ==> (log + [b])[r] == log[r];
  }
}
