/** The NIXL chain never gets stuck and always stops. */
module NixlLiveness {
  import opened Buckets
  import opened BucketLog
  import opened NixlAgent
  import opened NixlChain
  import opened NixlInvariant
  import opened NixlSteps
  import opened NixlSafety

  // ---------- somebody can always move ----------

  ghost predicate CanMove(c: Config, s: State)
    requires Shape(c, s)
  {
    exists a :: Enabled(c, s, a)
  }

  /** A read in flight can copy another byte or complete. */
  lemma {:induction false} ReadMoves(c: Config, s: State, i: nat)
    requires Inv(c, s) && 0 < i < c.n && s.ranks[i].xfer.InFlight?
    ensures CanMove(c, s)
  {
    hide YieldedBefore, YieldedUpTo;
    var x := s.ranks[i];
    ReadsOfferedBuffer(c, s, i);
    assert ReceiverAt(c, s, i);
    assert BucketOk(c, s.log[x.got - 1], s.groups[x.got - 1]);
    if AllCopied(c, x.xfer.copied) {
      assert Enabled(c, s, Complete(i));
    } else {
      var k: nat :| k < c.cap && k !in x.xfer.copied;
      assert Enabled(c, s, CopyByte(i, k));
    }
  }

  /** A receiver that waits neither for a message nor for its successor can move. */
  lemma {:induction false} BusyMoves(c: Config, s: State, i: nat)
    requires Inv(c, s) && 0 < i < c.n && !s.ranks[i].xfer.InFlight?
    requires s.ranks[i].pc.RFirstRead? || s.ranks[i].pc.RHead? || InYield(s.ranks[i]) || s.ranks[i].pc.RWaitRead?
    ensures CanMove(c, s)
  {
    hide YieldedBefore, YieldedUpTo, Holding, LogOk, LinkOk, SenderOk, MetadataOf;
    var x := s.ranks[i];
    assert ReceiverAt(c, s, i);
    if x.pc.RFirstRead? || x.pc.RWaitRead? {
      assert Enabled(c, s, Swap(i));
    } else if x.pc.RHead? {
      assert Enabled(c, s, Offer(i, 0));
    } else if x.pc.k < |x.metadata.bucketMeta| {
      assert Enabled(c, s, Yield(i));
    } else {
      assert Enabled(c, s, EndYield(i));
    }
  }

  /** Nobody is done before the last bucket has been offered to it. */
  lemma {:induction false} DoneHasAll(c: Config, s: State, i: nat)
    requires Inv(c, s) && 0 < i < c.n && s.ranks[i].pc.Done?
    ensures s.ranks[i].got == |s.log| > 0 && s.log[|s.log| - 1].isLast && s.ranks[i].op.None?
    ensures i < c.n - 1 ==> s.ranks[i].offered == |s.log|
  {
    hide YieldedBefore, YieldedUpTo, LinkOk, SenderOk, BucketOk;
    assert ReceiverAt(c, s, i);
    assert s.log[s.ranks[i].got - 1].isLast;
  }

  lemma {:induction false} AcknowledgedMoves(c: Config, s: State, i: nat)
    requires Inv(c, s) && i < c.n - 1 && Waiting(c, s.ranks[i])
    requires s.msgs[i + 1] == [] && !s.ranks[i + 1].xfer.InFlight?
    ensures CanMove(c, s)
  {
    hide ReceiverOk, SenderOk, LogOk;
    assert LinkAt(c, s, i);
    if s.raw[i] != [] {
      assert s.raw[i][0].name == i + 1;
      assert Enabled(c, s, Poll(i, i + 1));
    } else {
      assert Enabled(c, s, Pop(i));
    }
  }

  lemma {:induction false} ReceiverPcs(c: Config, s: State, i: nat)
    requires Inv(c, s) && 0 < i < c.n
    ensures var pc := s.ranks[i].pc;
            pc.RFirst? || pc.RFirstRead? || pc.RHead? || pc.RNeed? || pc.RYield? || pc.RWaitNext? || pc.RWaitRead?
            || pc.RLastYield? || pc.RLastWait? || pc.Done?
    ensures s.ranks[i].pc.RWaitNext? || s.ranks[i].pc.RLastWait? ==> Waiting(c, s.ranks[i])
  {
    hide YieldedBefore, YieldedUpTo, Holding, Incoming, LogOk, LinkOk, SenderOk;
    assert ReceiverAt(c, s, i);
  }

  /** A rank that waits for its successor is not stuck: the wait can be followed down the chain to
      somebody who can move. */
  lemma {:induction false} WaiterMoves(c: Config, s: State, i: nat)
    requires Inv(c, s) && i < c.n && Waiting(c, s.ranks[i])
    ensures CanMove(c, s)
    decreases c.n - i
  {
    hide ReceiverOk, SenderOk, LogOk;
    WaiterHasNext(c, s, i);
    ReceiverPcs(c, s, i + 1);
    var x, y := s.ranks[i], s.ranks[i + 1];
    if y.xfer.InFlight? {
      ReadMoves(c, s, i + 1);
    } else if s.msgs[i + 1] == [] {
      AcknowledgedMoves(c, s, i);
    } else if y.pc.RFirst? || y.pc.RNeed? {
      assert Enabled(c, s, ReadMsg(i + 1));
    } else if y.pc.RWaitNext? || y.pc.RLastWait? {
      WaiterMoves(c, s, i + 1);
    } else if y.pc.Done? {
      DoneHasAll(c, s, i + 1);
      assert false;
    } else {
      BusyMoves(c, s, i + 1);
    }
  }

  /** A rank that has begun to read the last bucket does not wait for another message. */
  lemma {:induction false} LastIsNotAwaited(c: Config, s: State, i: nat)
    requires Inv(c, s) && 0 < i < c.n && s.ranks[i].got == |s.log| > 0 && s.log[|s.log| - 1].isLast
    ensures !s.ranks[i].pc.RFirst? && !s.ranks[i].pc.RNeed?
  {
    hide YieldedBefore, YieldedUpTo, LinkOk, SenderOk, LogOk, Incoming;
    assert ReceiverAt(c, s, i);
  }

  /** A rank whose predecessor is done is not stuck. */
  lemma {:induction false} LastReaderMoves(c: Config, s: State, i: nat)
    requires Inv(c, s) && 0 < i < c.n && s.ranks[i - 1].pc.Done? && !s.ranks[i].pc.Done?
    ensures CanMove(c, s)
  {
    hide ReceiverOk, LogOk;
    assert LinkAt(c, s, i - 1);
    if i > 1 {
      DoneHasAll(c, s, i - 1);
    }
    LastIsNotAwaited(c, s, i);
    ReceiverPcs(c, s, i);
    if s.ranks[i].pc.RWaitNext? || s.ranks[i].pc.RLastWait? {
      WaiterMoves(c, s, i);
    } else {
      BusyMoves(c, s, i);
    }
  }

  lemma {:induction false} FirstUnfinished(s: State, j: nat) returns (i: nat)
    requires j < |s.ranks| && s.ranks[0].pc.Done? && !s.ranks[j].pc.Done?
    ensures 0 < i <= j && s.ranks[i - 1].pc.Done? && !s.ranks[i].pc.Done?
  {
    if s.ranks[j - 1].pc.Done? {
      i := j;
    } else {
      i := FirstUnfinished(s, j - 1);
    }
  }

  /** Deadlock freedom: as long as some rank is unfinished, some step is possible. */
  lemma {:induction false} NoDeadlock(c: Config, s: State, j: nat)
    requires Inv(c, s) && Fits(c.weights, c.cap) && j < c.n && !s.ranks[j].pc.Done?
    ensures CanMove(c, s)
  {
    var x := s.ranks[0];
    if x.pc.Done? {
      var i := FirstUnfinished(s, j);
      LastReaderMoves(c, s, i);
    } else if x.pc.SFill? && !NeedsFlush(c, x.rest, x.offset) {
      assert Enabled(c, s, Pack);
    } else if x.pc.SFill? && x.op.None? {
      assert Enabled(c, s, Publish(0));
    } else {
      WaiterMoves(c, s, 0);
    }
  }

  // ---------- every step brings the end nearer ----------

  function Phase(pc: Pc): nat {
    match pc
    case SFill => 2
    case SLast => 1
    case RFirst => 0
    case RYield(_) => 12
    case RWaitNext => 11
    case RWaitRead => 10
    case RFirstRead => 9
    case RHead => 8
    case RNeed => 7
    case RLastYield(_) => 6
    case RLastWait => 5
    case Done => 0
    case Crashed => 0
  }

  function CopyLeft(c: Config, x: Rank): int {
    if x.xfer.InFlight? then 3 + c.cap - |x.xfer.copied| else 0
  }

  /** The weight of the buckets that are still to be read. */
  function Weighted(c: Config, buckets: int): int {
    (c.cap + 20) * buckets
  }

  lemma {:induction false} WeightedStep(c: Config, buckets: int)
    ensures Weighted(c, buckets - 1) == Weighted(c, buckets) - c.cap - 20
    ensures buckets >= 0 ==> Weighted(c, buckets) >= 0
  {}

  /** What rank i still has to do. */
  function Work(c: Config, i: nat, x: Rank): int {
    if i == 0 then
      Phase(x.pc) + 2 * |x.rest| + (if x.offset > 0 then 1 else 0)
    else
      Phase(x.pc) + CopyLeft(c, x)
      + Weighted(c, |Cut(c.weights, c.cap)| - x.got)
      + |ReceivedAll(Cut(c.weights, c.cap))| - |x.yielded|
  }

  function Term(c: Config, s: State, i: nat): int
    requires Shape(c, s) && i < c.n
  {
    Work(c, i, s.ranks[i]) + 2 * |s.raw[i]| + |QueueOf(s.ranks[i].notifications, i + 1)|
  }

  function Sum(c: Config, s: State, k: nat): int
    requires Shape(c, s) && k <= c.n
  {
    if k == 0 then 0 else Sum(c, s, k - 1) + Term(c, s, k - 1)
  }

  function Measure(c: Config, s: State): int
    requires Shape(c, s)
  {
    Sum(c, s, c.n)
  }

  lemma {:induction false} Indices(cap: nat, copied: set<nat>)
    requires forall k :: k in copied ==> k < cap
    ensures |copied| <= cap
    decreases cap
  {
    if cap > 0 {
      var less := copied - {cap - 1};
      Indices(cap - 1, less);
      assert copied <= less + {cap - 1};
      if cap - 1 in copied {
        assert |less| == |copied| - 1;
      } else {
        assert less == copied;
      }
    } else {
      assert forall k :: k !in copied;
      assert copied == {};
    }
  }

  lemma {:induction false} CopiedBound(c: Config, s: State, i: nat)
    requires Inv(c, s) && 0 < i < c.n
    ensures s.ranks[i].xfer.InFlight? ==> |s.ranks[i].xfer.copied| <= c.cap
  {
    hide YieldedBefore, YieldedUpTo, Holding;
    assert ReceiverAt(c, s, i);
    if s.ranks[i].xfer.InFlight? {
      Indices(c.cap, s.ranks[i].xfer.copied);
    }
  }

  lemma {:induction false} TermNonnegative(c: Config, s: State, i: nat)
    requires Inv(c, s) && i < c.n
    ensures Term(c, s, i) >= 0
  {
    hide LogOk, SenderOk, ReceiverOk, LinkOk, Cut, ReceivedAll, Weighted;
    if i > 0 {
      WeightedStep(c, |Cut(c.weights, c.cap)| - s.ranks[i].got);
      YieldedIsPrefix(c, s, i);
      CopiedBound(c, s, i);
    }
  }

  lemma {:induction false} SumNonnegative(c: Config, s: State, k: nat)
    requires Inv(c, s) && k <= c.n
    ensures Sum(c, s, k) >= 0
  {
    hide Inv, Term;
    if k > 0 {
      SumNonnegative(c, s, k - 1);
      TermNonnegative(c, s, k - 1);
    }
  }

  lemma {:induction false} MeasureNonnegative(c: Config, s: State)
    requires Inv(c, s)
    ensures Measure(c, s) >= 0
  {
    SumNonnegative(c, s, c.n);
  }

  /** The terms of all ranks but i and i - 1 are the same, and those two together got smaller. */
  ghost predicate SmallerAt(c: Config, s: State, s': State, i: nat)
    requires Shape(c, s) && Shape(c, s')
  {
    && i < c.n
    && (forall j: nat :: j < c.n && j != i && j + 1 != i ==> Term(c, s', j) == Term(c, s, j))
    && (if i == 0 then Term(c, s', 0) < Term(c, s, 0)
        else Term(c, s', i - 1) + Term(c, s', i) < Term(c, s, i - 1) + Term(c, s, i))
  }

  lemma {:induction false} SumSmaller(c: Config, s: State, s': State, i: nat, k: nat)
    requires Shape(c, s) && Shape(c, s') && SmallerAt(c, s, s', i) && k <= c.n
    ensures k + 1 <= i ==> Sum(c, s', k) == Sum(c, s, k)
    ensures k > i ==> Sum(c, s', k) < Sum(c, s, k)
  {
    hide Term;
    if k > 0 {
      SumSmaller(c, s, s', i, k - 1);
      if i > 0 && k - 1 == i {
        SumSmaller(c, s, s', i, k - 2);
      }
    }
  }

  /** A step of rank i that touches nothing but its own state, the message queues and its own pending
      notifications. */
  lemma {:induction false} OwnTermSmaller(c: Config, s: State, s': State, i: nat)
    requires Shape(c, s) && Shape(c, s') && i < c.n
    requires s'.ranks == s.ranks[i := s'.ranks[i]] && s'.raw == s.raw[i := s'.raw[i]]
    requires Term(c, s', i) < Term(c, s, i)
    ensures Measure(c, s') < Measure(c, s)
  {
    assert SmallerAt(c, s, s', i) by {
      hide Work;
    }
    SumSmaller(c, s, s', i, c.n);
  }

  lemma {:induction false} FileOneEntry(notifications: map<nat, seq<Key>>, n: Entry<Key>)
    ensures File(notifications, [n]) == notifications[n.name := QueueOf(notifications, n.name) + n.values]
  {
    assert [n][1..] == [];
  }

  lemma {:induction false} WaitSmaller(c: Config, s: State, a: Action)
    requires Inv(c, s) && Enabled(c, s, a) && (a.Poll? || a.Pop?)
    ensures Measure(c, Apply(c, s, a)) < Measure(c, s)
  {
    hide LogOk, SenderOk, ReceiverOk, Cut, ReceivedAll;
    var i := a.i;
    var x := s.ranks[i];
    WaiterHasNext(c, s, i);
    if a.Poll? {
      assert s.raw[i] == [Entry(i + 1, [x.op.value])];
      FileOneEntry(x.notifications, s.raw[i][0]);
    } else {
      PopLink(c, i, x, s.ranks[i + 1], s.msgs[i + 1], s.raw[i], s.log);
    }
    OwnTermSmaller(c, s, Apply(c, s, a), i);
  }

  lemma {:induction false} SenderSmaller(c: Config, s: State, a: Action)
    requires Inv(c, s) && Enabled(c, s, a) && (a.Pack? || a.Publish?)
    ensures Measure(c, Apply(c, s, a)) < Measure(c, s)
  {
    hide LogOk, LinkOk, Cut, Greedy, ReceivedAll;
    OwnTermSmaller(c, s, Apply(c, s, a), 0);
  }

  lemma {:induction false} ReadMsgSmaller(c: Config, s: State, i: nat)
    requires Inv(c, s) && Enabled(c, s, ReadMsg(i))
    ensures Measure(c, DoReadMsg(c, s, i)) < Measure(c, s)
  {
    hide LogOk, SenderOk, Cut, ReceivedAll, YieldedBefore, YieldedUpTo, Incoming, Holding, Weighted;
    assert LinkAt(c, s, i - 1) && ReceiverAt(c, s, i);
    var x := s.ranks[i];
    WeightedStep(c, |Cut(c.weights, c.cap)| - x.got);
    OwnTermSmaller(c, s, DoReadMsg(c, s, i), i);
  }

  lemma {:induction false} TransferSmaller(c: Config, s: State, a: Action)
    requires Inv(c, s) && Enabled(c, s, a)
    requires a.CopyByte? || a.Swap? || a.Offer?
    ensures Measure(c, Apply(c, s, a)) < Measure(c, s)
  {
    hide LogOk, SenderOk, Cut, ReceivedAll, YieldedBefore, YieldedUpTo, Holding, LinkOk;
    OwnTermSmaller(c, s, Apply(c, s, a), a.i);
  }

  lemma {:induction false} ReceiverSmaller(c: Config, s: State, a: Action)
    requires Inv(c, s) && Enabled(c, s, a)
    requires a.Yield? || a.EndYield?
    ensures Measure(c, Apply(c, s, a)) < Measure(c, s)
  {
    hide LogOk, SenderOk, Cut, ReceivedAll, YieldedBefore, YieldedUpTo, Holding, LinkOk;
    OwnTermSmaller(c, s, Apply(c, s, a), a.i);
  }

  lemma {:induction false} CompleteSmaller(c: Config, s: State, i: nat)
    requires Inv(c, s) && Enabled(c, s, Complete(i))
    ensures Measure(c, DoComplete(c, s, i)) < Measure(c, s)
  {
    hide LogOk, SenderOk, ReceiverOk, LinkOk, Cut, ReceivedAll;
    CopiedBound(c, s, i);
    var s' := DoComplete(c, s, i);
    assert SmallerAt(c, s, s', i);
    SumSmaller(c, s, s', i, c.n);
  }

  /** Termination: every step of a reachable state makes the measure smaller. */
  lemma {:induction false} StepSmaller(c: Config, s: State, a: Action)
    requires Inv(c, s) && Enabled(c, s, a)
    ensures Measure(c, Apply(c, s, a)) < Measure(c, s)
  {
    hide Inv, Enabled, Measure;
    if a.Poll? || a.Pop? {
      WaitSmaller(c, s, a);
    } else if a.Pack? || a.Publish? {
      SenderSmaller(c, s, a);
    } else if a.ReadMsg? {
      ReadMsgSmaller(c, s, a.i);
    } else if a.Complete? {
      CompleteSmaller(c, s, a.i);
    } else if a.Yield? || a.EndYield? {
      ReceiverSmaller(c, s, a);
    } else {
      TransferSmaller(c, s, a);
    }
  }

  lemma {:induction false} RunMeasure(c: Config, run: seq<State>, j: nat)
    requires c.n >= 2 && AllSound(c.weights) && Run(c, run) && j < |run|
    ensures Shape(c, Start(c)) && Shape(c, run[j])
    ensures j + Measure(c, run[j]) <= Measure(c, Start(c))
  {
    hide LogOk, SenderOk, Apply, Enabled, Start, Measure;
    StartKeeps(c);
    RunKeeps(c, run, j);
    if j > 0 {
      RunMeasure(c, run, j - 1);
      RunKeeps(c, run, j - 1);
      assert Next(c, run[j - 1], run[j]);
      var a :| Enabled(c, run[j - 1], a) && run[j] == Apply(c, run[j - 1], a);
      StepSmaller(c, run[j - 1], a);
    }
  }

  /** Every rank is done and every receiver has yielded all buckets. */
  ghost predicate Completed(c: Config, s: State)
    requires Shape(c, s)
  {
    forall i: nat :: i < c.n ==>
      s.ranks[i].pc.Done? && (i > 0 ==> s.ranks[i].yielded == ReceivedAll(Cut(c.weights, c.cap)))
  }

  /** And what they yielded are exactly the weights. */
  ghost predicate Delivered(c: Config, s: State)
    requires Shape(c, s)
  {
    Completed(c, s) && forall i: nat :: 0 < i < c.n ==> s.ranks[i].yielded == c.weights
  }

  /** No run is longer than the measure of the start state. A run that cannot be continued has brought every
      rank to its end, with every receiver having yielded all buckets, if and only if every tensor fits a
      bucket; and these are the weights if and only if, besides, no bucket repeats a name. */
  lemma {:induction false} TransferSucceeds(c: Config, run: seq<State>)
    requires c.n >= 2 && AllSound(c.weights) && Run(c, run)
    ensures Shape(c, Start(c)) && |run| <= Measure(c, Start(c)) + 1
    ensures Shape(c, run[|run| - 1])
    ensures !CanMove(c, run[|run| - 1]) ==>
              && (Completed(c, run[|run| - 1]) <==> Fits(c.weights, c.cap))
              && (Delivered(c, run[|run| - 1]) <==> Fits(c.weights, c.cap) && NoRepeat(c))
  {
    hide Inv, Apply, Enabled, Start, Measure, Cut, NoRepeat, Fits;
    var last := |run| - 1;
    var s := run[last];
    RunMeasure(c, run, last);
    RunKeeps(c, run, last);
    MeasureNonnegative(c, s);
    AssertionsHold(c, run, last, 0);
    if !CanMove(c, s) && Fits(c.weights, c.cap) {
      forall i: nat | i < c.n
        ensures s.ranks[i].pc.Done? && (i > 0 ==> s.ranks[i].yielded == ReceivedAll(Cut(c.weights, c.cap)))
        ensures i > 0 ==> (s.ranks[i].yielded == c.weights <==> NoRepeat(c))
      {
        if !s.ranks[i].pc.Done? {
          NoDeadlock(c, s, i);
        }
        if i > 0 {
          Delivery(c, run, last, i);
        }
      }
      assert s.ranks[1].yielded == c.weights <==> NoRepeat(c);
    }
  }
}
