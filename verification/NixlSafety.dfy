/** What the invariant gives: exact delivery, no race on a buffer, a sound handshake. */
module NixlSafety {
  import opened Wrappers
  import opened Buckets
  import opened BucketLog
  import opened NixlAgent
  import opened NixlChain
  import opened NixlInvariant
  import opened NixlSteps

  // ---------- delivery ----------

  /** What one receiver has yielded, in any state that satisfies the invariant. */
  lemma {:induction false} YieldedIsPrefix(c: Config, s: State, i: nat)
    requires Inv(c, s) && 0 < i < c.n
    ensures s.ranks[i].yielded <= ReceivedAll(Cut(c.weights, c.cap))
    ensures s.ranks[i].pc.Done? ==> s.ranks[i].yielded == ReceivedAll(Cut(c.weights, c.cap))
    ensures s.ranks[i].got <= |Cut(c.weights, c.cap)|
  {
    hide ReceivedAll, Received, Cut;
    assert ReceiverAt(c, s, i);
    var x, all := s.ranks[i], Cut(c.weights, c.cap);
    if x.pc.RYield? {
      PartlyReceivedPrefix(s.groups, all, x.got - 2, x.pc.k);
    } else if x.pc.RLastYield? {
      PartlyReceivedPrefix(s.groups, all, x.got - 1, x.pc.k);
    } else if x.pc.RFirst? || x.pc.RFirstRead? {
    } else if x.pc.Done? {
      assert s.groups[..x.got] == s.groups;
    } else if x.pc.RLastWait? {
      ReceivedPrefix(s.groups[..x.got], all);
    } else {
      ReceivedPrefix(s.groups[..x.got - 1], all);
    }
  }

  /** Delivery: for every chain, interleaving and point of a run, a receiver has yielded a prefix of the
      unpacked buckets, and all of them once it is done; it never reads more buckets than there are. */
  lemma {:induction false} Delivery(c: Config, run: seq<State>, j: nat, i: nat)
    requires c.n >= 2 && AllSound(c.weights) && Run(c, run) && j < |run| && 0 < i < c.n
    ensures i < |run[j].ranks|
    ensures NoRepeat(c) ==> run[j].ranks[i].yielded <= c.weights
    ensures run[j].ranks[i].pc.Done? ==> (run[j].ranks[i].yielded == c.weights <==> NoRepeat(c))
    ensures run[j].ranks[i].pc.Done? ==> run[j].ranks[i].yielded == ReceivedAll(Cut(c.weights, c.cap))
    ensures run[j].ranks[i].got <= |Cut(c.weights, c.cap)|
  {
    RunKeeps(c, run, j);
    YieldedIsPrefix(c, run[j], i);
    StreamRoundTrip(c.weights, c.cap);
  }

  // ---------- the assertions of the code ----------

  /** No assertion of the code fails - the notify key always matches, the descriptors and the key are
      always in the message - except the one on a tensor larger than a bucket; with such a tensor
      rank 0 never finishes, and when it finishes it has offered every bucket. */
  lemma {:induction false} AssertionsHold(c: Config, run: seq<State>, j: nat, i: nat)
    requires c.n >= 2 && AllSound(c.weights) && Run(c, run) && j < |run| && i < c.n
    ensures i < |run[j].ranks|
    ensures run[j].ranks[i].pc.Crashed? ==> i == 0 && !Fits(c.weights, c.cap)
    ensures run[j].ranks[0].pc.Done? ==> Fits(c.weights, c.cap) && |run[j].log| == |Cut(c.weights, c.cap)|
  {
    RunKeeps(c, run, j);
    var s := run[j];
    if i > 0 {
      assert ReceiverAt(c, s, i);
    }
    if s.ranks[0].pc.Done? {
      assert s.log[|s.log| - 1].isLast;
      CompleteLogFits(c, s.log, s.groups);
    }
  }

  /** One tensor of two bytes and buckets of one: rank 0 stops at its assertion. */
  lemma {:induction false} OversizedTensorCrashes()
    ensures var c := Config(2, 1, [Tensor("w", [2], Dtype(0, 1), [0, 0])]);
            var run := [Start(c), DoPublish(c, Start(c), 7)];
            Run(c, run) && run[1].ranks[0].pc.Crashed?
  {
    var c := Config(2, 1, [Tensor("w", [2], Dtype(0, 1), [0, 0])]);
    assert Enabled(c, Start(c), Publish(7));
    assert Next(c, Start(c), Apply(c, Start(c), Publish(7)));
  }

  /** At most one offer is outstanding on a link: it is exactly one of an unread message, a read in
      flight or a notification not yet taken; without an outstanding offer there is none of them. */
  lemma {:induction false} OneOfferPerLink(c: Config, s: State, i: nat)
    requires Inv(c, s) && i < c.n - 1
    ensures |s.msgs[i + 1]| + |s.raw[i]| + |QueueOf(s.ranks[i].notifications, i + 1)|
          + (if s.ranks[i + 1].xfer.InFlight? then 1 else 0)
         == if s.ranks[i].op.Some? then 1 else 0
  {
    assert LinkAt(c, s, i);
  }

  /** Every message in transit carries the sender's own notify key and the descriptors of the sender's
      own buffer, although it may be a forwarded dictionary. */
  lemma {:induction false} MessagesCarryOwnKey(c: Config, s: State, i: nat, m: Metadata)
    requires Inv(c, s) && i < c.n - 1 && m in s.msgs[i + 1]
    ensures s.ranks[i].op.Some? && m.notifyKey == s.ranks[i].op && m.remoteDescs == Some(OutBuf(s.ranks[i]))
    ensures 0 < s.ranks[i].offered <= |s.log|
    ensures m.bucketMeta == s.log[s.ranks[i].offered - 1].meta && m.isLast == s.log[s.ranks[i].offered - 1].isLast
  {
    assert LinkAt(c, s, i);
  }

  /** Although `get_notification` rebinds its parameter, a waiting rank always looks at the queue of its
      successor, and the key it takes is the key it waits for. */
  lemma {:induction false} RebindingHarmless(c: Config, s: State, i: nat)
    requires Inv(c, s) && i < c.n && Waiting(c, s.ranks[i])
    ensures i < c.n - 1 && s.ranks[i].remoteName == i + 1
    ensures forall n: Entry<Key> :: n in s.raw[i] ==> n == Entry(i + 1, [s.ranks[i].op.value])
    ensures QueueOf(s.ranks[i].notifications, i + 1) != [] ==> QueueOf(s.ranks[i].notifications, i + 1) == [s.ranks[i].op.value]
  {
    WaiterHasNext(c, s, i);
  }

  // ---------- races ----------

  /** The buffers a step writes to. */
  function Written(c: Config, s: State, a: Action): set<(nat, Buf)>
    requires Shape(c, s) && Enabled(c, s, a)
  {
    match a
    case Pack => {(0, s.ranks[0].send)}
    case CopyByte(i, _) => {(i, s.ranks[i].xfer.dst)}
    case _ => {}
  }

  /** Nothing but the buffers a step writes to changes. */
  ghost predicate Frames(c: Config, s: State, a: Action, i: nat, b: Buf)
    requires Shape(c, s) && Enabled(c, s, a)
  {
    i < c.n && (i, b) !in Written(c, s, a) ==>
      Shape(c, Apply(c, s, a)) && Apply(c, s, a).ranks[i].At(b) == s.ranks[i].At(b)
  }

  lemma {:induction false} SenderFrames(c: Config, s: State, a: Action, i: nat, b: Buf)
    requires Shape(c, s) && Enabled(c, s, a) && (a.Pack? || a.Publish?)
    ensures Frames(c, s, a, i, b)
  {
    hide Put, MessageOf, NeedsFlush;
  }

  lemma {:induction false} WaitFrames(c: Config, s: State, a: Action, i: nat, b: Buf)
    requires Shape(c, s) && Enabled(c, s, a) && (a.Poll? || a.Pop?)
    ensures Frames(c, s, a, i, b)
  {
    hide File, AfterWait, FromSender;
  }

  lemma {:induction false} ReadFrames(c: Config, s: State, a: Action, i: nat, b: Buf)
    requires Shape(c, s) && Enabled(c, s, a) && (a.ReadMsg? || a.Complete? || a.Swap?)
    ensures Frames(c, s, a, i, b)
  {
    hide AllCopied;
  }

  lemma {:induction false} CopyFrames(c: Config, s: State, a: Action, i: nat, b: Buf)
    requires Shape(c, s) && Enabled(c, s, a) && a.CopyByte?
    ensures Frames(c, s, a, i, b)
  {}

  lemma {:induction false} OfferFrames(c: Config, s: State, a: Action, i: nat, b: Buf)
    requires Shape(c, s) && Enabled(c, s, a) && (a.Offer? || a.Yield? || a.EndYield?)
    ensures Frames(c, s, a, i, b)
  {
    hide View, MessageOf;
  }

  /** No step changes a buffer other than those it writes to. */
  lemma {:induction false} OnlyWrittenChange(c: Config, s: State, a: Action, i: nat, b: Buf)
    requires Shape(c, s) && Enabled(c, s, a) && i < c.n && (i, b) !in Written(c, s, a)
    ensures Shape(c, Apply(c, s, a))
    ensures Apply(c, s, a).ranks[i].At(b) == s.ranks[i].At(b)
  {
    hide Enabled, Apply, Written;
    if a.Pack? || a.Publish? {
      SenderFrames(c, s, a, i, b);
    } else if a.Poll? || a.Pop? {
      WaitFrames(c, s, a, i, b);
    } else if a.ReadMsg? || a.Complete? || a.Swap? {
      ReadFrames(c, s, a, i, b);
    } else if a.CopyByte? {
      CopyFrames(c, s, a, i, b);
    } else {
      OfferFrames(c, s, a, i, b);
    }
  }

  /** The successor may read this buffer at any time. */
  predicate OnOffer(s: State, i: nat, b: Buf) {
    i < |s.ranks| && s.ranks[i].op.Some? && b == OutBuf(s.ranks[i])
  }

  /** The consumer of rank i holds a view of this buffer. */
  predicate Viewed(s: State, i: nat, b: Buf) {
    i < |s.ranks| && InYield(s.ranks[i]) && s.ranks[i].pc.k > 0 && b == s.ranks[i].send
  }

  /** Nobody writes to a buffer that is on offer or that a consumer looks at. */
  lemma {:induction false} RaceFree(c: Config, s: State, a: Action, i: nat, b: Buf)
    requires Inv(c, s) && Enabled(c, s, a) && (i, b) in Written(c, s, a)
    ensures !OnOffer(s, i, b) && !Viewed(s, i, b)
  {
    hide LogOk, LinkOk, YieldedBefore, YieldedUpTo;
    if a.CopyByte? {
      assert ReceiverAt(c, s, a.i);
    }
  }

  /** A view shows exactly the tensor that was yielded, until the generator is resumed. */
  lemma {:induction false} ViewIntact(c: Config, s: State, i: nat)
    requires Inv(c, s) && 0 < i < c.n && InYield(s.ranks[i]) && s.ranks[i].pc.k > 0
    ensures var x := s.ranks[i];
            && x.pc.k <= |x.metadata.bucketMeta| && x.yielded != []
            && View(x.At(x.send), x.metadata.bucketMeta[x.pc.k - 1]) == x.yielded[|x.yielded| - 1]
  {
    hide ReceivedAll, MetaOf, View, Unpack, Flat;
    assert ReceiverAt(c, s, i);
    var x := s.ranks[i];
    var h := if x.pc.RYield? then x.got - 2 else x.got - 1;
    assert BucketOk(c, s.log[h], s.groups[h]);
    UnpackIgnoresTail(s.log[h].content, s.log[h].meta, s.groups[h]);
    assert View(x.At(x.send), x.metadata.bucketMeta[x.pc.k - 1]) == Received(s.groups[h])[x.pc.k - 1];
  }

  /** While an offer is outstanding it stays in the same buffer. */
  lemma {:induction false} OutBufStays(c: Config, s: State, a: Action, i: nat)
    requires Inv(c, s) && Enabled(c, s, a) && i < c.n && s.ranks[i].op.Some?
    requires Apply(c, s, a).ranks[i].op.Some?
    ensures OutBuf(Apply(c, s, a).ranks[i]) == OutBuf(s.ranks[i])
  {
    hide LogOk, LinkOk, YieldedBefore, YieldedUpTo, Incoming, Holding, File, View, MessageOf;
    if i > 0 {
      assert ReceiverAt(c, s, i);
    }
    if a.Pop? && a.i == i {
      WaiterHasNext(c, s, i);
      PopLink(c, i, s.ranks[i], s.ranks[i + 1], s.msgs[i + 1], s.raw[i], s.log);
    } else if a.ReadMsg? && a.i == i {
      MessagesCarryOwnKey(c, s, i - 1, s.msgs[i][0]);
    }
  }

  /** One step leaves the bytes of an outstanding offer alone. */
  lemma {:induction false} OfferStableStep(c: Config, s: State, a: Action, i: nat)
    requires Inv(c, s) && Enabled(c, s, a) && i < c.n && s.ranks[i].op.Some?
    requires Apply(c, s, a).ranks[i].op.Some?
    ensures OutBuf(Apply(c, s, a).ranks[i]) == OutBuf(s.ranks[i])
    ensures Apply(c, s, a).ranks[i].At(OutBuf(s.ranks[i])) == s.ranks[i].At(OutBuf(s.ranks[i]))
  {
    hide Enabled, Apply, Written, ReceiverAt, LinkAt, SenderOk, LogOk;
    OutBufStays(c, s, a, i);
    var b := OutBuf(s.ranks[i]);
    if (i, b) in Written(c, s, a) {
      RaceFree(c, s, a, i, b);
    }
    OnlyWrittenChange(c, s, a, i, b);
  }

  /** From the moment a buffer is offered until its notification is taken, its bytes do not change. */
  lemma {:induction false} OfferStable(c: Config, run: seq<State>, j: nat, k: nat, i: nat)
    requires c.n >= 2 && AllSound(c.weights) && Run(c, run) && j <= k < |run| && i < c.n
    requires forall m :: j <= m <= k ==> i < |run[m].ranks| && run[m].ranks[i].op.Some?
    ensures OutBuf(run[k].ranks[i]) == OutBuf(run[j].ranks[i])
    ensures run[k].ranks[i].At(OutBuf(run[j].ranks[i])) == run[j].ranks[i].At(OutBuf(run[j].ranks[i]))
    decreases k
  {
    hide Inv, Apply, Enabled, Start;
    if j < k {
      OfferStable(c, run, j, k - 1, i);
      RunKeeps(c, run, k - 1);
      assert Next(c, run[k - 1], run[k]);
      var a :| Enabled(c, run[k - 1], a) && run[k] == Apply(c, run[k - 1], a);
      assert i < |run[k].ranks| && run[k].ranks[i].op.Some?;
      OfferStableStep(c, run[k - 1], a, i);
    }
  }

  // ---------- how far the ranks drift apart ----------

  function CompletedReads(x: Rank): int {
    if x.xfer.InFlight? then x.got - 1 else x.got
  }

  /** A rank has read at most two buckets more than its successor; rank 0 is at most one offer ahead
      of what rank 1 has begun to read. */
  lemma {:induction false} BoundedLag(c: Config, s: State, i: nat)
    requires Inv(c, s) && 0 < i < c.n - 1
    ensures CompletedReads(s.ranks[i]) <= CompletedReads(s.ranks[i + 1]) + 2
    ensures |s.log| <= s.ranks[1].got + 1
  {
    hide YieldedBefore, YieldedUpTo;
    assert ReceiverAt(c, s, i) && LinkAt(c, s, i);
    assert LinkAt(c, s, 0);
  }
}
