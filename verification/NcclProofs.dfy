/** The broadcast transfer: all ranks make the same broadcasts, no buffer in flight is touched, every
    receiver yields exactly what was sent, and the transfer neither gets stuck nor runs forever. */
module NcclProofs {
  import opened Buckets
  import opened BucketLog
  import opened NcclBroadcast

  // ---------- the invariant ----------

  function MetadataOf(b: Bucket): Metadata {
    Metadata(b.meta, b.isLast)
  }

  ghost predicate BuffersOk(c: Config, x: Rank) {
    |x.bufA| == |x.bufB| == c.cap && x.recv == x.send.Other()
  }

  /** The buffer of the root's operation: rank 0 swaps right after starting it, except for the last. */
  function RootBuf(x: Rank): Buf {
    if x.pc.SFill? || x.pc.Crashed? then x.recv else x.send
  }

  ghost predicate RootOk(c: Config, x: Rank, log: seq<Bucket>, groups: seq<seq<Tensor>>, cur: seq<Tensor>) {
    && BuffersOk(c, x)
    && x.calls == |log| && x.yielded == []
    && |x.rest| <= |c.weights| && c.weights[|c.weights| - |x.rest|..] == x.rest
    && (x.op.Some? ==>
          && log != [] && x.op.value.bucket == RootBuf(x)
          && x.op.value.metadata == MetadataOf(log[|log| - 1])
          && x.At(RootBuf(x)) == log[|log| - 1].content)
    && match x.pc
       case SFill =>
         && Cut(c.weights, c.cap) == groups + Greedy(x.rest, cur, c.cap)
         && Holds(x.At(x.send), x.meta, cur) && AllSound(cur)
         && x.offset == |Flat(cur)| <= c.cap
         && (log != [] ==> !log[|log| - 1].isLast)
       case SLast => log != [] && log[|log| - 1].isLast && x.op.Some?
       case Done => log != [] && log[|log| - 1].isLast && x.op.None?
       case Crashed => !Fits(c.weights, c.cap)
       case _ => false
  }

  ghost predicate Holding(x: Rank, log: seq<Bucket>, r: int) {
    0 <= r < |log| && x.At(x.send) == log[r].content && x.metadata == MetadataOf(log[r])
  }

  /** The operation receives bucket r into the receive buffer. */
  ghost predicate Receiving(x: Rank, log: seq<Bucket>, r: int) {
    && x.op.Some? && x.op.value.bucket == x.recv && 0 <= r
    && (r > 0 ==> r - 1 < |log| && !log[r - 1].isLast)
    && (!x.op.value.phase.Started? ==> r < |log| && x.op.value.metadata == MetadataOf(log[r]))
    && (x.op.value.phase.Finished? ==> r < |log| && x.At(x.recv) == log[r].content)
  }

  ghost predicate ReceiverOk(c: Config, x: Rank, log: seq<Bucket>, groups: seq<seq<Tensor>>) {
    && BuffersOk(c, x) && |log| == |groups|
    && match x.pc
       case RBegin => x.calls == 0 && x.op.None? && x.yielded == []
       case RFirst => x.calls == 1 && Receiving(x, log, 0) && x.yielded == []
       case RHead =>
         x.op.None? && Holding(x, log, x.calls - 1) && YieldedBefore(x.yielded, groups, x.calls - 1)
       case RYield(k) =>
         && Receiving(x, log, x.calls - 1) && Holding(x, log, x.calls - 2)
         && YieldedUpTo(x.yielded, groups, x.calls - 2, k)
       case RWait =>
         x.calls >= 2 && Receiving(x, log, x.calls - 1) && YieldedBefore(x.yielded, groups, x.calls - 1)
       case RLastYield(k) =>
         && x.op.None? && Holding(x, log, x.calls - 1) && x.metadata.isLast
         && YieldedUpTo(x.yielded, groups, x.calls - 1, k)
       case Done =>
         && x.op.None? && 0 < x.calls <= |log| && log[x.calls - 1].isLast
         && YieldedBefore(x.yielded, groups, x.calls)
       case _ => false
  }

  /** Metadata messages that rank 0 has published. */
  function Announced(root: Rank): int {
    if InPhase(root, Started) then root.calls - 1 else root.calls
  }

  /** Metadata messages that a receiver has read. */
  function MetaRead(x: Rank): int {
    if InPhase(x, Started) then x.calls - 1 else x.calls
  }

  /** All ranks are in step: a receiver is behind rank 0 by at most the broadcast in flight. */
  ghost predicate InStep(root: Rank, x: Rank, topic: seq<Metadata>, log: seq<Bucket>) {
    && root.calls == |log|
    && MetaRead(x) <= Announced(root)
    && x.Finishes() >= (if InPhase(root, Started) || InPhase(root, Joined) then root.calls - 1 else root.calls)
    && (if MetaRead(x) == Announced(root) then topic == []
        else log != [] && topic == [MetadataOf(log[|log| - 1])])
  }

  ghost predicate ReceiverAt(c: Config, s: State, i: nat)
    requires Shape(c, s) && 0 < i < c.n
  {
    ReceiverOk(c, s.ranks[i], s.log, s.groups)
  }

  ghost predicate InStepAt(c: Config, s: State, i: nat)
    requires Shape(c, s) && 0 < i < c.n
  {
    InStep(s.ranks[0], s.ranks[i], s.topic[i], s.log)
  }

  ghost predicate Inv(c: Config, s: State) {
    && Shape(c, s)
    && AllSound(c.weights)
    && LogOk(c, s.log, s.groups)
    && RootOk(c, s.ranks[0], s.log, s.groups, s.cur)
    && (forall i: nat :: 0 < i < c.n ==> ReceiverAt(c, s, i))
    && (forall i: nat :: 0 < i < c.n ==> InStepAt(c, s, i))
  }

  lemma {:induction false} StartKeeps(c: Config)
    requires c.n >= 2 && AllSound(c.weights)
    ensures Inv(c, Start(c))
  {
    assert [] <= Cut(c.weights, c.cap);
    assert [] + Greedy(c.weights, [], c.cap) == Cut(c.weights, c.cap);
  }

  // ---------- rank 0 ----------

  lemma {:induction false} RootStep(c: Config, s: State, s': State)
    requires Inv(c, s) && Shape(c, s') && s'.log == s.log && s'.groups == s.groups
    requires forall i: nat :: 0 < i < c.n ==> s'.ranks[i] == s.ranks[i]
    requires RootOk(c, s'.ranks[0], s'.log, s'.groups, s'.cur)
    requires forall i: nat :: 0 < i < c.n ==> InStepAt(c, s', i)
    ensures Inv(c, s')
  {
    hide ReceiverOk, LogOk, RootOk, InStep;
    forall i: nat | 0 < i < c.n
      ensures ReceiverAt(c, s', i)
    {
      assert ReceiverAt(c, s, i);
    }
  }

  lemma {:induction false} PackRoot(c: Config, s: State)
    requires Shape(c, s) && Enabled(c, s, Pack)
    requires RootOk(c, s.ranks[0], s.log, s.groups, s.cur) && AllSound(c.weights)
    ensures RootOk(c, DoPack(c, s).ranks[0], s.log, s.groups, DoPack(c, s).cur)
  {
    hide Cut, Numel;
    var x := s.ranks[0];
    var t := x.rest[0];
    assert Sound(t) by {
      assert t == c.weights[|c.weights| - |x.rest|];
    }
    PackKeepsHolds(x.At(x.send), x.meta, s.cur, t);
    FlatSnoc(s.cur, t);
    assert Greedy(x.rest, s.cur, c.cap) == Greedy(x.rest[1..], s.cur + [t], c.cap);
  }

  lemma {:induction false} PackKeeps(c: Config, s: State)
    requires Inv(c, s) && Enabled(c, s, Pack)
    ensures Inv(c, DoPack(c, s))
  {
    hide ReceiverOk, LogOk, RootOk;
    PackRoot(c, s);
    var s' := DoPack(c, s);
    forall i: nat | 0 < i < c.n
      ensures InStepAt(c, s', i)
    {
      assert InStepAt(c, s, i);
    }
    RootStep(c, s, s');
  }

  lemma {:induction false} HoldingMono(x: Rank, log: seq<Bucket>, b: Bucket, r: int)
    ensures Holding(x, log, r) ==> Holding(x, log + [b], r)
    ensures 0 <= r < |log| ==> (log + [b])[r] == log[r]
    ensures Receiving(x, log, r) ==> Receiving(x, log + [b], r)
  {}

  lemma {:induction false} ReceiverMono(c: Config, x: Rank, log: seq<Bucket>, groups: seq<seq<Tensor>>, b: Bucket, g: seq<Tensor>)
    requires ReceiverOk(c, x, log, groups)
    ensures ReceiverOk(c, x, log + [b], groups + [g])
  {
    hide YieldedBefore, YieldedUpTo, BuffersOk;
    HoldingMono(x, log, b, x.calls - 1);
    HoldingMono(x, log, b, x.calls - 2);
    HoldingMono(x, log, b, 0);
    YieldedMono(x.yielded, groups, g, x.calls);
    YieldedMono(x.yielded, groups, g, x.calls - 1);
    YieldedMono(x.yielded, groups, g, x.calls - 2);
  }

  lemma {:induction false} StartSendRoot(c: Config, s: State)
    requires Shape(c, s) && Enabled(c, s, StartSend)
    requires RootOk(c, s.ranks[0], s.log, s.groups, s.cur) && LogOk(c, s.log, s.groups) && AllSound(c.weights)
    ensures var s' := DoStartSend(c, s);
            RootOk(c, s'.ranks[0], s'.log, s'.groups, s'.cur) && LogOk(c, s'.log, s'.groups)
  {
    hide LogOk, Numel, NBytes, Cut, Greedy;
    var x := s.ranks[0];
    assert Flat([]) == [] && MetaOf([]) == [];
    PublishCut(x.rest, s.cur, s.groups, Cut(c.weights, c.cap), c.cap);
    LogExtends(c, s.log, s.groups, Bucket(x.meta, x.rest == [], x.At(x.send)), s.cur);
    if x.rest != [] {
      assert x.rest[0] == c.weights[|c.weights| - |x.rest|];
    }
  }

  lemma {:induction false} StartSendKeeps(c: Config, s: State)
    requires Inv(c, s) && Enabled(c, s, StartSend)
    ensures Inv(c, DoStartSend(c, s))
  {
    hide ReceiverOk, LogOk, RootOk;
    StartSendRoot(c, s);
    var x, s' := s.ranks[0], DoStartSend(c, s);
    forall i: nat | 0 < i < c.n
      ensures ReceiverAt(c, s', i) && InStepAt(c, s', i)
    {
      assert ReceiverAt(c, s, i) && InStepAt(c, s, i);
      ReceiverMono(c, s.ranks[i], s.log, s.groups, Bucket(x.meta, x.rest == [], x.At(x.send)), s.cur);
    }
  }

  lemma {:induction false} SendMetaKeeps(c: Config, s: State)
    requires Inv(c, s) && Enabled(c, s, SendMeta)
    ensures Inv(c, DoSendMeta(c, s))
  {
    hide ReceiverOk, LogOk, Cut, Greedy, Holds;
    var s' := DoSendMeta(c, s);
    forall i: nat | 0 < i < c.n
      ensures InStepAt(c, s', i)
    {
      assert InStepAt(c, s, i);
    }
    RootStep(c, s, s');
  }

  lemma {:induction false} EndSendKeeps(c: Config, s: State)
    requires Inv(c, s) && Enabled(c, s, EndSend)
    ensures Inv(c, DoEndSend(c, s))
  {
    hide ReceiverOk, LogOk, Cut, Greedy, Holds;
    var s' := DoEndSend(c, s);
    forall i: nat | 0 < i < c.n
      ensures InStepAt(c, s', i)
    {
      assert InStepAt(c, s, i);
      assert s.ranks[i].Finishes() >= s.ranks[0].calls;
    }
    RootStep(c, s, s');
  }

  lemma {:induction false} AwaitSendKeeps(c: Config, s: State)
    requires Inv(c, s) && Enabled(c, s, AwaitSend)
    ensures Inv(c, DoAwaitSend(c, s))
  {
    hide ReceiverOk, LogOk, Cut, Greedy, Holds;
    var s' := DoAwaitSend(c, s);
    forall i: nat | 0 < i < c.n
      ensures InStepAt(c, s', i)
    {
      assert InStepAt(c, s, i);
    }
    RootStep(c, s, s');
  }

  // ---------- the receivers ----------

  /** A step of receiver i changes its own state and at most its own subscription. */
  lemma {:induction false} ReceiverStep(c: Config, s: State, s': State, i: nat)
    requires Inv(c, s) && Shape(c, s') && 0 < i < c.n
    requires s' == s.(ranks := s'.ranks, topic := s'.topic)
    requires s'.ranks == s.ranks[i := s'.ranks[i]] && s'.topic == s.topic[i := s'.topic[i]]
    requires ReceiverAt(c, s', i) && InStepAt(c, s', i)
    ensures Inv(c, s')
  {
    hide ReceiverOk, LogOk, RootOk, InStep;
    forall j: nat | 0 < j < c.n
      ensures ReceiverAt(c, s', j) && InStepAt(c, s', j)
    {
      assert ReceiverAt(c, s, j) && InStepAt(c, s, j);
    }
  }

  lemma {:induction false} StartRecvKeeps(c: Config, s: State, i: nat)
    requires Inv(c, s) && Enabled(c, s, StartRecv(i))
    ensures Inv(c, DoStartRecv(c, s, i))
  {
    hide RootOk, LogOk, YieldedUpTo, YieldedBefore;
    assert ReceiverAt(c, s, i) && InStepAt(c, s, i);
    var x := s.ranks[i];
    if x.pc.RHead? {
      YieldNone(x.yielded, s.groups, x.calls - 1);
    }
    ReceiverStep(c, s, DoStartRecv(c, s, i), i);
  }

  /** The metadata a receiver reads is that of the broadcast its thread is about to join. */
  lemma {:induction false} MetaOfTheCall(c: Config, s: State, i: nat)
    requires Inv(c, s) && Enabled(c, s, RecvMeta(i))
    ensures s.ranks[i].calls == |s.log| > 0 && s.topic[i] == [MetadataOf(s.log[|s.log| - 1])]
    ensures !InPhase(s.ranks[0], Started)
  {
    hide RootOk, LogOk, ReceiverOk;
    assert InStepAt(c, s, i);
  }

  lemma {:induction false} RecvMetaKeeps(c: Config, s: State, i: nat)
    requires Inv(c, s) && Enabled(c, s, RecvMeta(i))
    ensures Inv(c, DoRecvMeta(c, s, i))
  {
    hide RootOk, LogOk, YieldedUpTo, YieldedBefore;
    assert ReceiverAt(c, s, i) && InStepAt(c, s, i);
    MetaOfTheCall(c, s, i);
    ReceiverStep(c, s, DoRecvMeta(c, s, i), i);
  }

  lemma {:induction false} ArriveKeeps(c: Config, s: State, i: nat)
    requires Inv(c, s) && Enabled(c, s, Arrive(i))
    ensures Inv(c, DoArrive(c, s, i))
  {
    hide LogOk, YieldedUpTo, YieldedBefore, Cut, Greedy, Holds;
    assert ReceiverAt(c, s, i) && InStepAt(c, s, i);
    ReceiverStep(c, s, DoArrive(c, s, i), i);
  }

  lemma {:induction false} AwaitRecvKeeps(c: Config, s: State, i: nat)
    requires Inv(c, s) && Enabled(c, s, AwaitRecv(i))
    ensures Inv(c, DoAwaitRecv(c, s, i))
  {
    hide RootOk, LogOk, YieldedUpTo;
    assert ReceiverAt(c, s, i) && InStepAt(c, s, i);
    assert s.groups[..0] == [];
    ReceiverStep(c, s, DoAwaitRecv(c, s, i), i);
  }

  lemma {:induction false} YieldKeeps(c: Config, s: State, i: nat)
    requires Inv(c, s) && Enabled(c, s, Yield(i))
    ensures Inv(c, DoYield(c, s, i))
  {
    hide RootOk, YieldedUpTo, YieldedBefore, BucketOk;
    assert ReceiverAt(c, s, i) && InStepAt(c, s, i);
    var x := s.ranks[i];
    var h := if x.pc.RYield? then x.calls - 2 else x.calls - 1;
    YieldOne(c, s.log[h], x.yielded, s.groups, h, x.pc.k);
    ReceiverStep(c, s, DoYield(c, s, i), i);
  }

  lemma {:induction false} EndYieldReceiver(c: Config, x: Rank, log: seq<Bucket>, groups: seq<seq<Tensor>>)
    requires ReceiverOk(c, x, log, groups) && InYield(x) && x.pc.k >= |x.metadata.bucketMeta|
    requires forall r :: 0 <= r < |log| ==> BucketOk(c, log[r], groups[r])
    ensures ReceiverOk(c, x.(pc := if x.pc.RYield? then RWait else Done), log, groups)
  {
    hide MetaOf, Flat, YieldedBefore;
    var h := if x.pc.RYield? then x.calls - 2 else x.calls - 1;
    assert BucketOk(c, log[h], groups[h]);
    YieldAll(x.yielded, groups, h, x.pc.k);
  }

  lemma {:induction false} EndYieldKeeps(c: Config, s: State, i: nat)
    requires Inv(c, s) && Enabled(c, s, EndYield(i))
    ensures Inv(c, DoEndYield(c, s, i))
  {
    hide RootOk, ReceiverOk, BucketOk;
    assert ReceiverAt(c, s, i) && InStepAt(c, s, i);
    EndYieldReceiver(c, s.ranks[i], s.log, s.groups);
    ReceiverStep(c, s, DoEndYield(c, s, i), i);
  }

  // ---------- runs ----------

  lemma {:induction false} StepKeeps(c: Config, s: State, a: Action)
    requires Inv(c, s) && Enabled(c, s, a)
    ensures Inv(c, Apply(c, s, a))
  {
    hide Inv, Enabled, DoPack, DoStartSend, DoSendMeta, DoEndSend, DoAwaitSend, DoStartRecv, DoRecvMeta, DoArrive,
         DoAwaitRecv, DoYield, DoEndYield;
    match a {
      case Pack => PackKeeps(c, s);
      case StartSend => StartSendKeeps(c, s);
      case SendMeta => SendMetaKeeps(c, s);
      case EndSend => EndSendKeeps(c, s);
      case AwaitSend => AwaitSendKeeps(c, s);
      case StartRecv(i) => StartRecvKeeps(c, s, i);
      case RecvMeta(i) => RecvMetaKeeps(c, s, i);
      case Arrive(i) => ArriveKeeps(c, s, i);
      case AwaitRecv(i) => AwaitRecvKeeps(c, s, i);
      case Yield(i) => YieldKeeps(c, s, i);
      case EndYield(i) => EndYieldKeeps(c, s, i);
    }
  }

  lemma {:induction false} RunKeeps(c: Config, run: seq<State>, j: nat)
    requires c.n >= 2 && AllSound(c.weights) && Run(c, run) && j < |run|
    ensures Inv(c, run[j])
  {
    hide Inv, Apply, Enabled, Start;
    if j == 0 {
      StartKeeps(c);
    } else {
      RunKeeps(c, run, j - 1);
      assert Next(c, run[j - 1], run[j]);
      var a :| Enabled(c, run[j - 1], a) && run[j] == Apply(c, run[j - 1], a);
      StepKeeps(c, run[j - 1], a);
    }
  }
}
