/** Every step of the NIXL chain keeps the invariant. */
module NixlSteps {
  import opened Wrappers
  import opened Buckets
  import opened BucketLog
  import opened NixlAgent
  import opened NixlChain
  import opened NixlInvariant

  // ---------- the start state ----------

  lemma {:induction false} StartKeeps(c: Config)
    requires c.n >= 2 && AllSound(c.weights)
    ensures Inv(c, Start(c))
  {
    var s := Start(c);
    assert [] <= Cut(c.weights, c.cap);
    assert [] + Greedy(c.weights, [], c.cap) == Cut(c.weights, c.cap);
  }

  // ---------- what a link looks at ----------

  /** The same as far as the predecessor's link is concerned. */
  ghost predicate SameAsReader(y: Rank, y': Rank) {
    && y'.got == y.got && y'.xfer.InFlight? == y.xfer.InFlight?
    && (y.xfer.InFlight? ==> y'.xfer.key == y.xfer.key && y'.xfer.src == y.xfer.src)
  }

  /** The same as far as the successor's link is concerned. */
  ghost predicate SameAsOwner(x: Rank, x': Rank) {
    && x'.op == x.op && x'.offered == x.offered && x'.notifications == x.notifications
    && (x.op.Some? ==>
          && x'.remoteName == x.remoteName
          && OutBuf(x') == OutBuf(x) && x'.At(OutBuf(x)) == x.At(OutBuf(x)))
  }

  lemma {:induction false} LinkFrame(c: Config, i: nat, x: Rank, x': Rank, y: Rank, y': Rank,
                                     msgs: seq<Metadata>, raw: seq<Entry<Key>>, log: seq<Bucket>)
    requires LinkOk(c, i, x, y, msgs, raw, log) && SameAsOwner(x, x') && SameAsReader(y, y')
    ensures LinkOk(c, i, x', y', msgs, raw, log)
  {}

  /** A step of rank j that only looks after itself. */
  lemma {:induction false} QuietStep(c: Config, s: State, s': State, j: nat)
    requires Inv(c, s) && 0 < j < c.n && Shape(c, s')
    requires s' == s.(ranks := s'.ranks) && s'.ranks == s.ranks[j := s'.ranks[j]]
    requires SameAsReader(s.ranks[j], s'.ranks[j]) && SameAsOwner(s.ranks[j], s'.ranks[j])
    requires ReceiverAt(c, s', j)
    ensures Inv(c, s')
  {
    hide ReceiverOk, SenderOk, LogOk, LinkOk;
    assert LinkAt(c, s, j - 1);
    LinkFrame(c, j - 1, s.ranks[j - 1], s.ranks[j - 1], s.ranks[j], s'.ranks[j], s.msgs[j], s.raw[j - 1], s.log);
    if j < c.n - 1 {
      assert LinkAt(c, s, j);
      LinkFrame(c, j, s.ranks[j], s'.ranks[j], s.ranks[j + 1], s.ranks[j + 1], s.msgs[j + 1], s.raw[j], s.log);
    }
    InvFromParts(c, s, s', j);
  }

  // ---------- the transfer engine ----------

  /** A read in flight copies from the buffer that the predecessor has offered. */
  lemma {:induction false} ReadsOfferedBuffer(c: Config, s: State, i: nat)
    requires Inv(c, s) && 0 < i < c.n && s.ranks[i].xfer.InFlight?
    ensures s.ranks[i - 1].op.Some? && s.ranks[i].xfer.src == OutBuf(s.ranks[i - 1])
    ensures 0 < s.ranks[i].got <= |s.log|
    ensures s.ranks[i - 1].At(s.ranks[i].xfer.src) == s.log[s.ranks[i].got - 1].content
    ensures s.ranks[i].got == s.ranks[i - 1].offered && s.ranks[i].xfer.dst == s.ranks[i].recv
    ensures s.msgs[i] == [] && s.raw[i - 1] == []
    ensures s.ranks[i].xfer.key == s.ranks[i - 1].op.value
  {
    assert LinkAt(c, s, i - 1);
    assert ReceiverAt(c, s, i);
  }

  function Copied(x: Rank, at: nat, byte: Byte): Rank
    requires x.xfer.InFlight? && at < |x.At(x.xfer.dst)|
  {
    x.With(x.xfer.dst, x.At(x.xfer.dst)[at := byte]).(xfer := x.xfer.(copied := x.xfer.copied + {at}))
  }

  lemma {:induction false} CopyReceiver(c: Config, hasNext: bool, x: Rank, log: seq<Bucket>, groups: seq<seq<Tensor>>, at: nat)
    requires ReceiverOk(c, hasNext, x, log, groups) && x.xfer.InFlight?
    requires at < c.cap && 0 < x.got <= |log| && |log[x.got - 1].content| == c.cap
    ensures at < |x.At(x.xfer.dst)|
    ensures var x' := Copied(x, at, log[x.got - 1].content[at]);
            ReceiverOk(c, hasNext, x', log, groups) && SameAsReader(x, x') && SameAsOwner(x, x')
  {
    hide YieldedBefore, YieldedUpTo;
  }

  lemma {:induction false} CopyKeeps(c: Config, s: State, i: nat, at: nat)
    requires Inv(c, s) && Enabled(c, s, CopyByte(i, at))
    ensures Inv(c, DoCopy(c, s, i, at))
  {
    hide ReceiverOk, SenderOk, LinkOk;
    ReadsOfferedBuffer(c, s, i);
    assert ReceiverAt(c, s, i);
    assert BucketOk(c, s.log[s.ranks[i].got - 1], s.groups[s.ranks[i].got - 1]);
    CopyReceiver(c, i < c.n - 1, s.ranks[i], s.log, s.groups, at);
    QuietStep(c, s, DoCopy(c, s, i, at), i);
  }

  lemma {:induction false} CompleteReceiver(c: Config, hasNext: bool, x: Rank, log: seq<Bucket>, groups: seq<seq<Tensor>>)
    requires ReceiverOk(c, hasNext, x, log, groups) && x.xfer.InFlight? && AllCopied(c, x.xfer.copied)
    requires 0 < x.got <= |log| && |log[x.got - 1].content| == c.cap
    ensures ReceiverOk(c, hasNext, x.(xfer := XferDone), log, groups)
  {
    hide YieldedBefore, YieldedUpTo;
    assert Incoming(c, x, log, x.got - 1);
    assert x.At(x.recv) == log[x.got - 1].content;
  }

  lemma {:induction false} CompleteLink(c: Config, i: nat, x: Rank, y: Rank, msgs: seq<Metadata>, raw: seq<Entry<Key>>, log: seq<Bucket>)
    requires LinkOk(c, i, x, y, msgs, raw, log) && y.xfer.InFlight?
    ensures LinkOk(c, i, x, y.(xfer := XferDone), msgs, raw + [Entry(i + 1, [y.xfer.key])], log)
  {}

  lemma {:induction false} CompleteKeeps(c: Config, s: State, i: nat)
    requires Inv(c, s) && Enabled(c, s, Complete(i))
    ensures Inv(c, DoComplete(c, s, i))
  {
    hide ReceiverOk, SenderOk, LinkOk;
    ReadsOfferedBuffer(c, s, i);
    assert ReceiverAt(c, s, i) && LinkAt(c, s, i - 1);
    assert BucketOk(c, s.log[s.ranks[i].got - 1], s.groups[s.ranks[i].got - 1]);
    CompleteReceiver(c, i < c.n - 1, s.ranks[i], s.log, s.groups);
    CompleteLink(c, i - 1, s.ranks[i - 1], s.ranks[i], s.msgs[i], s.raw[i - 1], s.log);
    var s' := DoComplete(c, s, i);
    if i < c.n - 1 {
      assert LinkAt(c, s, i);
      LinkFrame(c, i, s.ranks[i], s'.ranks[i], s.ranks[i + 1], s.ranks[i + 1], s.msgs[i + 1], s.raw[i], s.log);
    }
    InvFromParts(c, s, s', i);
  }

  // ---------- waiting for a notification ----------

  ghost predicate RankAt(c: Config, s: State, i: nat)
    requires Shape(c, s) && i < c.n
  {
    if i == 0 then SenderOk(c, s.ranks[0], s.log, s.groups, s.cur) else ReceiverAt(c, s, i)
  }

  /** A step of rank i that changes its own state and its agent's pending notifications. */
  lemma {:induction false} WaitStep(c: Config, s: State, s': State, i: nat)
    requires Inv(c, s) && i < c.n - 1 && Shape(c, s')
    requires s' == s.(ranks := s'.ranks, raw := s'.raw)
    requires s'.ranks == s.ranks[i := s'.ranks[i]] && s'.raw == s.raw[i := s'.raw[i]]
    requires SameAsReader(s.ranks[i], s'.ranks[i])
    requires RankAt(c, s', i) && LinkAt(c, s', i)
    ensures Inv(c, s')
  {
    hide ReceiverOk, SenderOk, LogOk, LinkOk;
    if i > 0 {
      assert LinkAt(c, s, i - 1);
      LinkFrame(c, i - 1, s.ranks[i - 1], s.ranks[i - 1], s.ranks[i], s'.ranks[i], s.msgs[i], s.raw[i - 1], s.log);
      InvFromParts(c, s, s', i);
    } else {
      forall j: nat | 0 < j < c.n
        ensures ReceiverAt(c, s', j)
      {
        assert ReceiverAt(c, s, j);
      }
      forall j: nat | j < c.n - 1
        ensures LinkAt(c, s', j)
      {
        assert LinkAt(c, s, j);
      }
    }
  }

  lemma {:induction false} WaiterHasNext(c: Config, s: State, i: nat)
    requires Inv(c, s) && i < c.n && s.ranks[i].op.Some?
    ensures i < c.n - 1 && LinkAt(c, s, i) && RankAt(c, s, i)
  {
    if i > 0 {
      assert ReceiverAt(c, s, i);
    }
  }

  lemma {:induction false} PollLink(c: Config, i: nat, x: Rank, y: Rank, msgs: seq<Metadata>, raw: seq<Entry<Key>>,
                                    log: seq<Bucket>, last: nat)
    requires LinkOk(c, i, x, y, msgs, raw, log) && FromSender(raw, last)
    requires x.op.Some?
    ensures last == x.remoteName == i + 1
    ensures LinkOk(c, i, x.(notifications := File(x.notifications, raw), remoteName := last), y, msgs, [], log)
  {
    assert raw == [Entry(i + 1, [x.op.value])];
    assert raw[1..] == [];
  }

  lemma {:induction false} PollKeeps(c: Config, s: State, i: nat, last: nat)
    requires Inv(c, s) && Enabled(c, s, Poll(i, last))
    ensures Inv(c, DoPoll(c, s, i, last))
  {
    hide LogOk, LinkOk, YieldedBefore, YieldedUpTo;
    WaiterHasNext(c, s, i);
    PollLink(c, i, s.ranks[i], s.ranks[i + 1], s.msgs[i + 1], s.raw[i], s.log, last);
    WaitStep(c, s, DoPoll(c, s, i, last), i);
  }

  /** The notification that the loop finally returns is the one of the outstanding offer. */
  lemma {:induction false} PopLink(c: Config, i: nat, x: Rank, y: Rank, msgs: seq<Metadata>, raw: seq<Entry<Key>>, log: seq<Bucket>)
    requires LinkOk(c, i, x, y, msgs, raw, log) && x.op.Some? && QueueOf(x.notifications, x.remoteName) != []
    ensures x.op == Some(QueueOf(x.notifications, x.remoteName)[0])
    ensures var q := QueueOf(x.notifications, x.remoteName);
            LinkOk(c, i, x.(notifications := x.notifications[x.remoteName := q[1..]], op := None, pc := AfterWait(x.pc)),
                   y, msgs, raw, log)
  {}

  lemma {:induction false} PopKeeps(c: Config, s: State, i: nat)
    requires Inv(c, s) && Enabled(c, s, Pop(i))
    ensures Inv(c, DoPop(c, s, i))
  {
    hide LogOk, LinkOk, YieldedBefore, YieldedUpTo;
    WaiterHasNext(c, s, i);
    PopLink(c, i, s.ranks[i], s.ranks[i + 1], s.msgs[i + 1], s.raw[i], s.log);
    WaitStep(c, s, DoPop(c, s, i), i);
  }

  // ---------- rank 0 ----------

  lemma {:induction false} PackSender(c: Config, s: State)
    requires Shape(c, s) && Enabled(c, s, Pack)
    requires SenderOk(c, s.ranks[0], s.log, s.groups, s.cur) && AllSound(c.weights)
    ensures var s' := DoPack(c, s);
            && SenderOk(c, s'.ranks[0], s.log, s.groups, s'.cur)
            && SameAsOwner(s.ranks[0], s'.ranks[0])
  {
    hide Cut, Numel;
    var x := s.ranks[0];
    var t := x.rest[0];
    assert Sound(t) by {
      assert t == c.weights[|c.weights| - |x.rest|];
    }
    PackKeepsHolds(x.At(x.send), x.meta, s.cur, t);
    FlatSnoc(s.cur, t);
    assert Greedy(x.rest, s.cur, c.cap) == Greedy(x.rest[1..], s.cur + [t], c.cap);
  }

  lemma {:induction false} PackKeeps(c: Config, s: State)
    requires Inv(c, s) && Enabled(c, s, Pack)
    ensures Inv(c, DoPack(c, s))
  {
    hide SenderOk, ReceiverOk, LogOk, LinkOk;
    PackSender(c, s);
    var s' := DoPack(c, s);
    assert LinkAt(c, s, 0);
    LinkFrame(c, 0, s.ranks[0], s'.ranks[0], s.ranks[1], s.ranks[1], s.msgs[1], s.raw[0], s.log);
    forall j: nat | 0 < j < c.n
      ensures ReceiverAt(c, s', j)
    {
      assert ReceiverAt(c, s, j);
    }
    forall j: nat | j < c.n - 1
      ensures LinkAt(c, s', j)
    {
      assert LinkAt(c, s, j);
    }
  }

  lemma {:induction false} PublishSender(c: Config, s: State, key: Key)
    requires Shape(c, s) && Enabled(c, s, Publish(key))
    requires SenderOk(c, s.ranks[0], s.log, s.groups, s.cur) && LogOk(c, s.log, s.groups) && AllSound(c.weights)
    ensures var s' := DoPublish(c, s, key);
            SenderOk(c, s'.ranks[0], s'.log, s'.groups, s'.cur) && LogOk(c, s'.log, s'.groups)
  {
    hide LogOk, Numel, NBytes, Cut, Greedy;
    var x := s.ranks[0];
    assert Flat([]) == [] && MetaOf([]) == [];
    PublishCut(x.rest, s.cur, s.groups, Cut(c.weights, c.cap), c.cap);
    LogExtends(c, s.log, s.groups, Bucket(x.meta, x.rest == [], x.At(x.send)), s.cur);
    if x.rest != [] {
      assert x.rest[0] == c.weights[|c.weights| - |x.rest|];
    }
  }

  /** From no outstanding offer to an announced one. */
  lemma {:induction false} OfferLink(c: Config, i: nat, x: Rank, x': Rank, y: Rank, msgs: seq<Metadata>, raw: seq<Entry<Key>>,
                                     log: seq<Bucket>, key: Key)
    requires LinkOk(c, i, x, y, msgs, raw, log) && x.op.None?
    requires x'.op == Some(key) && x'.remoteName == i + 1 && x'.offered == x.offered + 1 <= |log|
    requires x'.notifications == x.notifications
    requires x'.At(OutBuf(x')) == log[x.offered].content
    ensures LinkOk(c, i, x', y, msgs + [MessageOf(key, OutBuf(x'), MetadataOf(log[x.offered]))], raw, log)
  {}

  lemma {:induction false} PublishLink(c: Config, s: State, key: Key)
    requires Inv(c, s) && Enabled(c, s, Publish(key))
    ensures LinkAt(c, DoPublish(c, s, key), 0)
  {
    hide ReceiverOk, LogOk, LinkOk, Holds, Cut;
    var x, s' := s.ranks[0], DoPublish(c, s, key);
    assert LinkAt(c, s, 0);
    var b := Bucket(x.meta, x.rest == [], x.At(x.send));
    LinkMono(c, 0, x, s.ranks[1], s.msgs[1], s.raw[0], s.log, b);
    OfferLink(c, 0, x, s'.ranks[0], s.ranks[1], s.msgs[1], s.raw[0], s'.log, key);
  }

  lemma {:induction false} PublishKeeps(c: Config, s: State, key: Key)
    requires Inv(c, s) && Enabled(c, s, Publish(key))
    ensures Inv(c, DoPublish(c, s, key))
  {
    hide SenderOk, ReceiverOk, LogOk, LinkOk;
    PublishSender(c, s, key);
    PublishLink(c, s, key);
    var x, s' := s.ranks[0], DoPublish(c, s, key);
    var b := Bucket(x.meta, x.rest == [], x.At(x.send));
    forall j: nat | 0 < j < c.n
      ensures ReceiverAt(c, s', j)
    {
      assert ReceiverAt(c, s, j);
      ReceiverMono(c, j < c.n - 1, s.ranks[j], s.log, s.groups, b, s.cur);
    }
    forall j: nat | j < c.n - 1
      ensures LinkAt(c, s', j)
    {
      if j > 0 {
        assert LinkAt(c, s, j);
        LinkMono(c, j, s.ranks[j], s.ranks[j + 1], s.msgs[j + 1], s.raw[j], s.log, b);
      }
    }
  }

  // ---------- the receivers ----------

  /** An announced bucket exists and carries the offer's own key and descriptors. */
  lemma {:induction false} ReadLink(c: Config, i: nat, x: Rank, y: Rank, y': Rank, msgs: seq<Metadata>, raw: seq<Entry<Key>>, log: seq<Bucket>)
    requires LinkOk(c, i, x, y, msgs, raw, log) && msgs != []
    requires msgs[0].notifyKey.Some? && msgs[0].remoteDescs.Some? ==>
               y'.xfer.InFlight? && y'.got == y.got + 1
               && y'.xfer.key == msgs[0].notifyKey.value && y'.xfer.src == msgs[0].remoteDescs.value
    ensures x.op.Some? && msgs[0].notifyKey == x.op && msgs[0].remoteDescs == Some(OutBuf(x))
    ensures y.got < |log| && Popped(msgs[0]) == MetadataOf(log[y.got])
    ensures LinkOk(c, i, x, y', msgs[1..], raw, log)
  {}

  lemma {:induction false} ReadReceiver(c: Config, hasNext: bool, x: Rank, log: seq<Bucket>, groups: seq<seq<Tensor>>,
                                        key: Key, src: Buf)
    requires ReceiverOk(c, hasNext, x, log, groups) && (x.pc.RFirst? || x.pc.RNeed?) && x.got < |log|
    ensures var y := x.(xfer := InFlight(key, src, x.recvDescs, {}), got := x.got + 1);
            ReceiverOk(c, hasNext,
                       if x.pc.RFirst? then y.(pc := RFirstRead, metadata := MetadataOf(log[x.got]))
                       else y.(pc := RYield(0), next := MetadataOf(log[x.got])),
                       log, groups)
  {
    hide ReceivedAll, MetaOf, Received;
    if x.pc.RNeed? {
      assert ReceivedAll(groups[..x.got - 1]) + Received(groups[x.got - 1])[..0] == ReceivedAll(groups[..x.got - 1]);
    }
  }

  lemma {:induction false} ReadMsgKeeps(c: Config, s: State, i: nat)
    requires Inv(c, s) && Enabled(c, s, ReadMsg(i))
    ensures Inv(c, DoReadMsg(c, s, i))
  {
    hide SenderOk, ReceiverOk, LogOk, LinkOk;
    var s' := DoReadMsg(c, s, i);
    assert LinkAt(c, s, i - 1) && ReceiverAt(c, s, i);
    ReadLink(c, i - 1, s.ranks[i - 1], s.ranks[i], s'.ranks[i], s.msgs[i], s.raw[i - 1], s.log);
    ReadReceiver(c, i < c.n - 1, s.ranks[i], s.log, s.groups, s.msgs[i][0].notifyKey.value, s.msgs[i][0].remoteDescs.value);
    assert ReceiverAt(c, s', i);
    if i < c.n - 1 {
      assert LinkAt(c, s, i);
      LinkFrame(c, i, s.ranks[i], s'.ranks[i], s.ranks[i + 1], s.ranks[i + 1], s.msgs[i + 1], s.raw[i], s.log);
    }
    InvFromParts(c, s, s', i);
  }

  lemma {:induction false} SwapReceiver(c: Config, hasNext: bool, x: Rank, log: seq<Bucket>, groups: seq<seq<Tensor>>)
    requires ReceiverOk(c, hasNext, x, log, groups) && x.xfer.XferDone? && (x.pc.RFirstRead? || x.pc.RWaitRead?)
    ensures var y := if x.pc.RWaitRead? then x.(metadata := x.next) else x;
            ReceiverOk(c, hasNext, y.Swapped().(pc := RHead, xfer := NoXfer), log, groups)
    ensures x.op.None?
  {
    assert groups[..0] == [];
  }

  lemma {:induction false} SwapKeeps(c: Config, s: State, i: nat)
    requires Inv(c, s) && Enabled(c, s, Swap(i))
    ensures Inv(c, DoSwap(c, s, i))
  {
    hide SenderOk, ReceiverOk, LogOk, LinkOk;
    assert ReceiverAt(c, s, i);
    SwapReceiver(c, i < c.n - 1, s.ranks[i], s.log, s.groups);
    QuietStep(c, s, DoSwap(c, s, i), i);
  }

  lemma {:induction false} OfferReceiver(c: Config, hasNext: bool, x: Rank, log: seq<Bucket>, groups: seq<seq<Tensor>>,
                                         key: Key, name: nat)
    requires ReceiverOk(c, hasNext, x, log, groups) && x.pc.RHead?
    ensures var y := x.(pc := if x.metadata.isLast then RLastYield(0) else RNeed);
            ReceiverOk(c, hasNext, if hasNext then y.(op := Some(key), remoteName := name, offered := x.offered + 1) else y,
                       log, groups)
  {
    hide ReceivedAll, MetaOf, Received;
    assert ReceivedAll(groups[..x.got - 1]) + Received(groups[x.got - 1])[..0] == ReceivedAll(groups[..x.got - 1]);
  }

  lemma {:induction false} OfferKeeps(c: Config, s: State, i: nat, key: Key)
    requires Inv(c, s) && Enabled(c, s, Offer(i, key))
    ensures Inv(c, DoOffer(c, s, i, key))
  {
    hide SenderOk, LogOk, LinkOk, YieldedBefore, YieldedUpTo;
    var x, s' := s.ranks[i], DoOffer(c, s, i, key);
    assert ReceiverAt(c, s, i) && LinkAt(c, s, i - 1);
    OfferReceiver(c, i < c.n - 1, x, s.log, s.groups, key, i + 1);
    LinkFrame(c, i - 1, s.ranks[i - 1], s.ranks[i - 1], x, s'.ranks[i], s.msgs[i], s.raw[i - 1], s.log);
    if i < c.n - 1 {
      assert LinkAt(c, s, i);
      OfferLink(c, i, x, s'.ranks[i], s.ranks[i + 1], s.msgs[i + 1], s.raw[i], s.log, key);
    }
    InvFromParts(c, s, s', i);
  }

  lemma {:induction false} YieldReceiver(c: Config, hasNext: bool, x: Rank, log: seq<Bucket>, groups: seq<seq<Tensor>>)
    requires ReceiverOk(c, hasNext, x, log, groups) && InYield(x) && x.pc.k < |x.metadata.bucketMeta|
    requires forall r :: 0 <= r < |log| ==> BucketOk(c, log[r], groups[r])
    ensures ReceiverOk(c, hasNext,
                       x.(yielded := x.yielded + [View(x.At(x.send), x.metadata.bucketMeta[x.pc.k])],
                          pc := x.pc.(k := x.pc.k + 1)),
                       log, groups)
  {
    hide YieldedUpTo, BucketOk;
    var h := if x.pc.RYield? then x.got - 2 else x.got - 1;
    YieldOne(c, log[h], x.yielded, groups, h, x.pc.k);
  }

  lemma {:induction false} YieldKeeps(c: Config, s: State, i: nat)
    requires Inv(c, s) && Enabled(c, s, Yield(i))
    ensures Inv(c, DoYield(c, s, i))
  {
    hide SenderOk, ReceiverOk, LinkOk, BucketOk;
    assert ReceiverAt(c, s, i);
    YieldReceiver(c, i < c.n - 1, s.ranks[i], s.log, s.groups);
    QuietStep(c, s, DoYield(c, s, i), i);
  }

  lemma {:induction false} EndYieldReceiver(c: Config, hasNext: bool, x: Rank, log: seq<Bucket>, groups: seq<seq<Tensor>>)
    requires ReceiverOk(c, hasNext, x, log, groups) && InYield(x) && x.pc.k >= |x.metadata.bucketMeta|
    requires forall r :: 0 <= r < |log| ==> BucketOk(c, log[r], groups[r])
    ensures ReceiverOk(c, hasNext,
                       x.(pc := if x.pc.RYield? then (if x.op.Some? then RWaitNext else RWaitRead)
                                else (if x.op.Some? then RLastWait else Done)),
                       log, groups)
  {
    hide MetaOf, Flat, YieldedBefore;
    var h := if x.pc.RYield? then x.got - 2 else x.got - 1;
    assert BucketOk(c, log[h], groups[h]);
    YieldAll(x.yielded, groups, h, x.pc.k);
  }

  lemma {:induction false} EndYieldKeeps(c: Config, s: State, i: nat)
    requires Inv(c, s) && Enabled(c, s, EndYield(i))
    ensures Inv(c, DoEndYield(c, s, i))
  {
    hide SenderOk, ReceiverOk, LinkOk, BucketOk;
    assert ReceiverAt(c, s, i);
    EndYieldReceiver(c, i < c.n - 1, s.ranks[i], s.log, s.groups);
    QuietStep(c, s, DoEndYield(c, s, i), i);
  }

  // ---------- all steps ----------

  lemma {:induction false} StepKeeps(c: Config, s: State, a: Action)
    requires Inv(c, s) && Enabled(c, s, a)
    ensures Inv(c, Apply(c, s, a))
  {
    hide Inv, Enabled, DoPack, DoPublish, DoPoll, DoPop, DoReadMsg, DoCopy, DoComplete, DoSwap, DoOffer, DoYield, DoEndYield;
    match a {
      case Pack => PackKeeps(c, s);
      case Publish(key) => PublishKeeps(c, s, key);
      case Poll(i, last) => PollKeeps(c, s, i, last);
      case Pop(i) => PopKeeps(c, s, i);
      case ReadMsg(i) => ReadMsgKeeps(c, s, i);
      case CopyByte(i, at) => CopyKeeps(c, s, i, at);
      case Complete(i) => CompleteKeeps(c, s, i);
      case Swap(i) => SwapKeeps(c, s, i);
      case Offer(i, key) => OfferKeeps(c, s, i, key);
      case Yield(i) => YieldKeeps(c, s, i);
      case EndYield(i) => EndYieldKeeps(c, s, i);
    }
  }

  /** The invariant holds in every state of every run. */
  lemma {:induction false} RunKeeps(c: Config, run: seq<State>, j: nat)
    requires c.n >= 2 && AllSound(c.weights) && Run(c, run) && j < |run|
    ensures Inv(c, run[j])
  {
    hide Inv, Apply, Enabled, Start;
    if j == 0 {
      StartKeeps(c);
    } else {
      RunKeeps(c, run, j - 1);
      assert Next(c, run[j - 1], run[j]);
      var a :| Enabled(c, run[j - 1], a) && run[j] == Apply(c, run[j - 1], a);
      StepKeeps(c, run[j - 1], a);
    }
  }
}
