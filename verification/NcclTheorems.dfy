/** The main results about the broadcast transfer. */
module NcclTheorems {
  import opened Buckets
  import opened BucketLog
  import opened NcclBroadcast
  import opened NcclProofs

  // ---------- delivery and agreement ----------

  lemma {:induction false} YieldedIsPrefix(c: Config, s: State, i: nat)
    requires Inv(c, s) && 0 < i < c.n
    ensures s.ranks[i].yielded <= ReceivedAll(Cut(c.weights, c.cap))
    ensures s.ranks[i].pc.Done? ==> s.ranks[i].yielded == ReceivedAll(Cut(c.weights, c.cap))
  {
    hide ReceivedAll, Received, Cut, RootOk;
    assert ReceiverAt(c, s, i);
    var x, all := s.ranks[i], Cut(c.weights, c.cap);
    if x.pc.RYield? {
      PartlyReceivedPrefix(s.groups, all, x.calls - 2, x.pc.k);
    } else if x.pc.RLastYield? {
      PartlyReceivedPrefix(s.groups, all, x.calls - 1, x.pc.k);
    } else if x.pc.RBegin? || x.pc.RFirst? {
    } else if x.pc.Done? {
      assert s.groups[..x.calls] == s.groups;
    } else {
      ReceivedPrefix(s.groups[..x.calls - 1], all);
    }
  }

  /** At every point of every run a receiver has yielded a prefix of what was sent, and all of it when it
      is done; the sent stream itself exactly if no bucket repeats a name. */
  lemma {:induction false} Delivery(c: Config, run: seq<State>, j: nat, i: nat)
    requires c.n >= 2 && AllSound(c.weights) && Run(c, run) && j < |run| && 0 < i < c.n
    ensures i < |run[j].ranks|
    ensures NoRepeat(c) ==> run[j].ranks[i].yielded <= c.weights
    ensures run[j].ranks[i].pc.Done? ==> (run[j].ranks[i].yielded == c.weights <==> NoRepeat(c))
    ensures run[j].ranks[i].pc.Done? ==> run[j].ranks[i].yielded == ReceivedAll(Cut(c.weights, c.cap))
  {
    RunKeeps(c, run, j);
    YieldedIsPrefix(c, run[j], i);
    StreamRoundTrip(c.weights, c.cap);
  }

  /** A receiver is never more than one broadcast away from rank 0, two receivers never more than two
      apart, and every rank that is done has taken part in exactly one broadcast per bucket. */
  lemma {:induction false} BroadcastsAgree(c: Config, s: State, i: nat)
    requires Inv(c, s) && 0 < i < c.n
    ensures s.ranks[0].calls - 1 <= s.ranks[i].calls <= s.ranks[0].calls + 1
    ensures s.ranks[0].calls - 1 <= s.ranks[i].Finishes() <= s.ranks[0].calls
    ensures s.ranks[i].pc.Done? ==> s.ranks[i].calls == |Cut(c.weights, c.cap)| == s.ranks[0].calls
    ensures s.ranks[0].pc.Done? ==> s.ranks[0].calls == |Cut(c.weights, c.cap)| == s.ranks[i].Finishes()
  {
    hide YieldedBefore, YieldedUpTo, Cut, Greedy, Holds, BucketOk;
    assert ReceiverAt(c, s, i) && InStepAt(c, s, i);
  }

  /** The k-th broadcast hands every receiver the k-th bucket, together with its own metadata. */
  lemma {:induction false} ArrivalIsTheBucket(c: Config, s: State, i: nat)
    requires Inv(c, s) && Enabled(c, s, Arrive(i))
    ensures var x, root := s.ranks[i], s.ranks[0];
            && 0 < x.calls == root.calls <= |s.log|
            && root.At(root.op.value.bucket) == s.log[x.calls - 1].content
            && x.op.value.metadata == root.op.value.metadata == MetadataOf(s.log[x.calls - 1])
  {
    hide YieldedBefore, YieldedUpTo, Cut, Greedy, Holds, LogOk;
    assert ReceiverAt(c, s, i) && InStepAt(c, s, i);
  }

  // ---------- races ----------

  /** The thread of rank i may still read or write this buffer. */
  predicate InFlight(s: State, i: nat, b: Buf) {
    i < |s.ranks| && s.ranks[i].op.Some? && s.ranks[i].op.value.phase != Finished && s.ranks[i].op.value.bucket == b
  }

  predicate Viewed(s: State, i: nat, b: Buf) {
    i < |s.ranks| && InYield(s.ranks[i]) && s.ranks[i].pc.k > 0 && b == s.ranks[i].send
  }

  /** A buffer in flight is neither being filled by the packer nor shown to the consumer. */
  lemma {:induction false} FlightUndisturbed(c: Config, s: State, i: nat, b: Buf)
    requires Inv(c, s) && i < c.n && InFlight(s, i, b)
    ensures i == 0 && Enabled(c, s, Pack) ==> b != s.ranks[0].send && DoPack(c, s).ranks[0].At(b) == s.ranks[0].At(b)
    ensures !Viewed(s, i, b)
  {
    hide YieldedBefore, YieldedUpTo, Cut, Greedy, Holds, LogOk;
    if i > 0 {
      assert ReceiverAt(c, s, i);
    }
  }

  /** What a consumer looks at is exactly the tensor that was yielded. */
  lemma {:induction false} ViewIntact(c: Config, s: State, i: nat)
    requires Inv(c, s) && 0 < i < c.n && InYield(s.ranks[i]) && s.ranks[i].pc.k > 0
    ensures var x := s.ranks[i];
            && x.pc.k <= |x.metadata.bucketMeta| && x.yielded != []
            && View(x.At(x.send), x.metadata.bucketMeta[x.pc.k - 1]) == x.yielded[|x.yielded| - 1]
  {
    hide ReceivedAll, MetaOf, View, Unpack, Flat, RootOk;
    assert ReceiverAt(c, s, i);
    var x := s.ranks[i];
    var h := if x.pc.RYield? then x.calls - 2 else x.calls - 1;
    assert BucketOk(c, s.log[h], s.groups[h]);
    UnpackIgnoresTail(s.log[h].content, s.log[h].meta, s.groups[h]);
    assert View(x.At(x.send), x.metadata.bucketMeta[x.pc.k - 1]) == Received(s.groups[h])[x.pc.k - 1];
  }

  // ---------- somebody can always move ----------

  ghost predicate CanMove(c: Config, s: State)
    requires Shape(c, s)
  {
    exists a :: Enabled(c, s, a)
  }

  /** A receiver that has not finished the root's broadcast can move once its metadata is out. */
  lemma {:induction false} LaggardMoves(c: Config, s: State, i: nat)
    requires Inv(c, s) && 0 < i < c.n && InPhase(s.ranks[0], Joined) && s.ranks[i].Finishes() < s.ranks[0].calls
    ensures CanMove(c, s)
  {
    hide YieldedBefore, YieldedUpTo, Cut, Greedy, Holds;
    assert ReceiverAt(c, s, i) && InStepAt(c, s, i);
    var x := s.ranks[i];
    if InYield(x) {
      assert Enabled(c, s, if x.pc.k < |x.metadata.bucketMeta| then Yield(i) else EndYield(i));
    } else if InPhase(x, Started) {
      assert Enabled(c, s, RecvMeta(i));
    } else if InPhase(x, Joined) {
      assert Enabled(c, s, Arrive(i));
    } else if InPhase(x, Finished) {
      assert Enabled(c, s, AwaitRecv(i));
    } else if x.pc.Done? {
      assert false;
    } else {
      assert Enabled(c, s, StartRecv(i));
    }
  }

  /** When rank 0 is done every unfinished receiver can move. */
  lemma {:induction false} LastReceiverMoves(c: Config, s: State, i: nat)
    requires Inv(c, s) && 0 < i < c.n && s.ranks[0].pc.Done? && !s.ranks[i].pc.Done?
    ensures CanMove(c, s)
  {
    hide YieldedBefore, YieldedUpTo, Cut, Greedy, Holds, LogOk;
    assert ReceiverAt(c, s, i) && InStepAt(c, s, i);
    var x := s.ranks[i];
    if InYield(x) {
      assert Enabled(c, s, if x.pc.k < |x.metadata.bucketMeta| then Yield(i) else EndYield(i));
    } else if InPhase(x, Finished) {
      assert Enabled(c, s, AwaitRecv(i));
    } else {
      assert Enabled(c, s, StartRecv(i));
    }
  }

  lemma {:induction false} RootMoves(c: Config, s: State)
    requires Inv(c, s) && Fits(c.weights, c.cap) && !s.ranks[0].pc.Done?
    ensures CanMove(c, s)
  {
    hide ReceiverOk, LogOk;
    var x := s.ranks[0];
    if x.pc.SFill? && !NeedsFlush(c, x.rest, x.offset) {
      assert Enabled(c, s, Pack);
    } else if x.op.None? {
      assert Enabled(c, s, StartSend);
    } else if InPhase(x, Started) {
      assert Enabled(c, s, SendMeta);
    } else if InPhase(x, Finished) {
      assert Enabled(c, s, AwaitSend);
    } else if forall i: nat :: 0 < i < c.n ==> s.ranks[i].Finishes() >= x.calls {
      assert Enabled(c, s, EndSend);
    } else {
      var i: nat :| 0 < i < c.n && s.ranks[i].Finishes() < x.calls;
      LaggardMoves(c, s, i);
    }
  }

  /** Deadlock freedom. */
  lemma {:induction false} NoDeadlock(c: Config, s: State, j: nat)
    requires Inv(c, s) && Fits(c.weights, c.cap) && j < c.n && !s.ranks[j].pc.Done?
    ensures CanMove(c, s)
  {
    if s.ranks[0].pc.Done? {
      LastReceiverMoves(c, s, j);
    } else {
      RootMoves(c, s);
    }
  }

  // ---------- every step brings the end nearer ----------

  function PcLeft(pc: Pc): nat {
    match pc
    case SFill => 10
    case SLast => 1
    case RFirst => 11
    case RYield(_) => 12
    case RWait => 11
    case RHead => 8
    case RLastYield(_) => 6
    case _ => 0
  }

  function OpLeft(x: Rank): nat {
    if x.op.None? then 0
    else match x.op.value.phase
         case Started => 3
         case Joined => 2
         case Finished => 1
  }

  function Work(c: Config, i: nat, x: Rank): int {
    if i == 0 then
      PcLeft(x.pc) + OpLeft(x) + 6 * |x.rest| + (if x.offset > 0 then 5 else 0)
    else
      PcLeft(x.pc) + OpLeft(x)
      + 20 * (|Cut(c.weights, c.cap)| + 1 - x.calls)
      + |ReceivedAll(Cut(c.weights, c.cap))| - |x.yielded|
  }

  function Sum(c: Config, s: State, k: nat): int
    requires Shape(c, s) && k <= c.n
  {
    if k == 0 then 0 else Sum(c, s, k - 1) + Work(c, k - 1, s.ranks[k - 1])
  }

  function Measure(c: Config, s: State): int
    requires Shape(c, s)
  {
    Sum(c, s, c.n)
  }

  lemma {:induction false} SumNonnegative(c: Config, s: State, k: nat)
    requires Inv(c, s) && k <= c.n
    ensures Sum(c, s, k) >= 0
  {
    hide Cut, ReceivedAll, ReceiverOk, RootOk, LogOk, InStep;
    if k > 0 {
      SumNonnegative(c, s, k - 1);
      if k > 1 {
        YieldedIsPrefix(c, s, k - 1);
        CallsBounded(c, s, k - 1);
      }
    }
  }

  lemma {:induction false} CallsBounded(c: Config, s: State, i: nat)
    requires Inv(c, s) && 0 < i < c.n
    ensures s.ranks[i].calls <= |Cut(c.weights, c.cap)| + 1
  {
    hide Cut;
    BroadcastsAgree(c, s, i);
  }

  /** A step that changes rank i only, and leaves it with less to do. */
  lemma {:induction false} SumSmaller(c: Config, s: State, s': State, i: nat, k: nat)
    requires Shape(c, s) && Shape(c, s') && i < c.n && k <= c.n
    requires s'.ranks == s.ranks[i := s'.ranks[i]]
    requires Work(c, i, s'.ranks[i]) < Work(c, i, s.ranks[i])
    ensures if k <= i then Sum(c, s', k) == Sum(c, s, k) else Sum(c, s', k) < Sum(c, s, k)
  {
    hide Work;
    if k > 0 {
      SumSmaller(c, s, s', i, k - 1);
    }
  }

  /** Termination: every step of a reachable state makes the measure smaller. */
  lemma {:induction false} StepSmaller(c: Config, s: State, a: Action)
    requires Inv(c, s) && Enabled(c, s, a)
    ensures Measure(c, Apply(c, s, a)) < Measure(c, s)
  {
    if a.Pack? || a.StartSend? || a.SendMeta? || a.EndSend? || a.AwaitSend? {
      RootWork(c, s, a);
      SumSmaller(c, s, Apply(c, s, a), 0, c.n);
    } else {
      ReceiverWork(c, s, a);
      SumSmaller(c, s, Apply(c, s, a), a.i, c.n);
    }
  }

  lemma {:induction false} RootWork(c: Config, s: State, a: Action)
    requires Inv(c, s) && Enabled(c, s, a)
    requires a.Pack? || a.StartSend? || a.SendMeta? || a.EndSend? || a.AwaitSend?
    ensures var s' := Apply(c, s, a);
            Shape(c, s') && s'.ranks == s.ranks[0 := s'.ranks[0]] && Work(c, 0, s'.ranks[0]) < Work(c, 0, s.ranks[0])
  {
    hide Cut, Greedy, Holds, ReceivedAll, ReceiverOk, LogOk, InStep;
  }

  lemma {:induction false} ReceiverWork(c: Config, s: State, a: Action)
    requires Inv(c, s) && Enabled(c, s, a)
    requires !(a.Pack? || a.StartSend? || a.SendMeta? || a.EndSend? || a.AwaitSend?)
    ensures a.i < c.n
    ensures var s' := Apply(c, s, a);
            Shape(c, s') && s'.ranks == s.ranks[a.i := s'.ranks[a.i]]
            && Work(c, a.i, s'.ranks[a.i]) < Work(c, a.i, s.ranks[a.i])
  {
    hide Cut, ReceivedAll, RootOk, LogOk, InStep, YieldedBefore, YieldedUpTo, Holding;
    assert ReceiverAt(c, s, a.i);
  }

  lemma {:induction false} RunMeasure(c: Config, run: seq<State>, j: nat)
    requires c.n >= 2 && AllSound(c.weights) && Run(c, run) && j < |run|
    ensures Shape(c, Start(c)) && Shape(c, run[j])
    ensures j + Measure(c, run[j]) <= Measure(c, Start(c))
  {
    hide LogOk, RootOk, Apply, Enabled, Start, Measure;
    StartKeeps(c);
    RunKeeps(c, run, j);
    if j > 0 {
      RunMeasure(c, run, j - 1);
      RunKeeps(c, run, j - 1);
      assert Next(c, run[j - 1], run[j]);
      var a :| Enabled(c, run[j - 1], a) && run[j] == Apply(c, run[j - 1], a);
      StepSmaller(c, run[j - 1], a);
    }
  }

  // ---------- the transfer as a whole ----------

  /** No assertion of the code fails, except the one on a tensor larger than a bucket; and with such a
      tensor rank 0 never finishes. */
  lemma {:induction false} AssertionsHold(c: Config, run: seq<State>, j: nat, i: nat)
    requires c.n >= 2 && AllSound(c.weights) && Run(c, run) && j < |run| && i < c.n
    ensures i < |run[j].ranks|
    ensures run[j].ranks[i].pc.Crashed? ==> i == 0 && !Fits(c.weights, c.cap)
    ensures run[j].ranks[0].pc.Done? ==> Fits(c.weights, c.cap)
  {
    RunKeeps(c, run, j);
    var s := run[j];
    if i > 0 {
      assert ReceiverAt(c, s, i);
    }
    if s.ranks[0].pc.Done? {
      assert s.log[|s.log| - 1].isLast;
      CompleteLogFits(c, s.log, s.groups);
    }
  }

  /** Every rank is done after one broadcast per bucket, and every receiver has yielded all buckets. */
  ghost predicate Completed(c: Config, s: State)
    requires Shape(c, s)
  {
    forall i: nat :: i < c.n ==>
      && s.ranks[i].pc.Done? && s.ranks[i].calls == |Cut(c.weights, c.cap)|
      && (i > 0 ==> s.ranks[i].yielded == ReceivedAll(Cut(c.weights, c.cap)))
  }

  /** And what they yielded are exactly the weights. */
  ghost predicate Delivered(c: Config, s: State)
    requires Shape(c, s)
  {
    Completed(c, s) && forall i: nat :: 0 < i < c.n ==> s.ranks[i].yielded == c.weights
  }

  /** No run is longer than the measure of the start state. A run that cannot be continued is complete if and
      only if every tensor fits a bucket, and has delivered the weights if and only if, besides, no bucket
      repeats a name. */
  lemma {:induction false} TransferSucceeds(c: Config, run: seq<State>)
    requires c.n >= 2 && AllSound(c.weights) && Run(c, run)
    ensures Shape(c, Start(c)) && |run| <= Measure(c, Start(c)) + 1
    ensures Shape(c, run[|run| - 1])
    ensures !CanMove(c, run[|run| - 1]) ==>
              && (Completed(c, run[|run| - 1]) <==> Fits(c.weights, c.cap))
              && (Delivered(c, run[|run| - 1]) <==> Fits(c.weights, c.cap) && NoRepeat(c))
  {
    hide Inv, Apply, Enabled, Start, Sum, Cut, NoRepeat, Fits;
    var last := |run| - 1;
    var s := run[last];
    RunMeasure(c, run, last);
    RunKeeps(c, run, last);
    SumNonnegative(c, s, c.n);
    AssertionsHold(c, run, last, 0);
    if !CanMove(c, s) && Fits(c.weights, c.cap) {
      forall i: nat | i < c.n
        ensures s.ranks[i].pc.Done? && s.ranks[i].calls == |Cut(c.weights, c.cap)|
        ensures i > 0 ==> s.ranks[i].yielded == ReceivedAll(Cut(c.weights, c.cap))
        ensures i > 0 ==> (s.ranks[i].yielded == c.weights <==> NoRepeat(c))
      {
        if !s.ranks[i].pc.Done? {
          NoDeadlock(c, s, i);
        }
        BroadcastsAgree(c, s, if i > 0 then i else 1);
        if i > 0 {
          Delivery(c, run, last, i);
        }
      }
      assert s.ranks[1].yielded == c.weights <==> NoRepeat(c);
    }
  }

  /** One tensor of two bytes and buckets of one: rank 0 stops at its assertion. */
  lemma {:induction false} OversizedTensorCrashes()
    ensures var c := Config(2, 1, [Tensor("w", [2], Dtype(0, 1), [0, 0])]);
            var run := [Start(c), DoStartSend(c, Start(c))];
            Run(c, run) && run[1].ranks[0].pc.Crashed?
  {
    var c := Config(2, 1, [Tensor("w", [2], Dtype(0, 1), [0, 0])]);
    assert Enabled(c, Start(c), StartSend);
    assert Next(c, Start(c), Apply(c, Start(c), StartSend));
  }
}
