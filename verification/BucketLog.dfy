/** What both transfers have in common: the two buffers, the record of the buckets that rank 0 has made
    public, and what a receiver has yielded of them. */
module BucketLog {
  import opened Buckets

  datatype Config = Config(n: nat, cap: nat, weights: seq<Tensor>)

  /** A published bucket: its dictionary, the last-bucket flag and the bytes of its buffer. */
  datatype Bucket = Bucket(meta: seq<TensorMeta>, isLast: bool, content: seq<Byte>)

  /** The two buffers of a rank. */
  datatype Buf = A | B {
    function Other(): Buf { if A? then B else A }
  }

  function Zeros(n: nat): seq<Byte> { seq(n, _ => 0) }

  /** The open bucket has to be published: nothing is left to pack, or the next tensor does not fit. */
  predicate NeedsFlush(c: Config, rest: seq<Tensor>, offset: nat) {
    rest == [] || offset + |rest[0].bytes| > c.cap
  }

  ghost predicate BucketOk(c: Config, b: Bucket, group: seq<Tensor>) {
    && |b.content| == c.cap
    && Holds(b.content, b.meta, group)
    && AllSound(group)
  }

  ghost predicate LogOk(c: Config, log: seq<Bucket>, groups: seq<seq<Tensor>>) {
    && |log| == |groups|
    && groups <= Cut(c.weights, c.cap)
    && (forall r :: 0 <= r < |log| ==> BucketOk(c, log[r], groups[r]))
    && (forall r :: 0 <= r < |log| ==> (log[r].isLast ==> r == |log| - 1 && groups == Cut(c.weights, c.cap)))
  }

  /** Closing the open bucket follows the greedy cut. */
  lemma {:induction false} PublishCut(rest: seq<Tensor>, cur: seq<Tensor>, groups: seq<seq<Tensor>>, all: seq<seq<Tensor>>, cap: nat)
    requires all == groups + Greedy(rest, cur, cap)
    requires rest == [] || |Flat(cur)| + |rest[0].bytes| > cap
    ensures groups + [cur] <= all
    ensures rest == [] ==> all == groups + [cur]
    ensures rest != [] && |rest[0].bytes| <= cap ==> all == groups + [cur] + Greedy(rest, [], cap)
  {
    if rest != [] {
      var tail := Greedy(rest[1..], [rest[0]], cap);
      assert all == groups + [cur] + tail;
      assert [] + [rest[0]] == [rest[0]];
      assert Flat([]) == [];
    }
  }

  lemma {:induction false} LogExtends(c: Config, log: seq<Bucket>, groups: seq<seq<Tensor>>, b: Bucket, g: seq<Tensor>)
    requires LogOk(c, log, groups) && BucketOk(c, b, g)
    requires log != [] ==> !log[|log| - 1].isLast
    requires groups + [g] <= Cut(c.weights, c.cap)
    requires b.isLast ==> groups + [g] == Cut(c.weights, c.cap)
    ensures LogOk(c, log + [b], groups + [g])
  {
    hide BucketOk, Cut;
  }

  // ---------- what a receiver has yielded ----------

  /** Everything up to bucket h and the first k tensors of bucket h have been yielded. */
  ghost predicate YieldedUpTo(ys: seq<Tensor>, groups: seq<seq<Tensor>>, h: int, k: nat) {
    0 <= h < |groups| && k <= |MetaOf(groups[h])|
    && ys == ReceivedAll(groups[..h]) + Received(groups[h])[..k]
  }

  ghost predicate YieldedBefore(ys: seq<Tensor>, groups: seq<seq<Tensor>>, h: int) {
    0 <= h <= |groups| && ys == ReceivedAll(groups[..h])
  }

  lemma {:induction false} YieldedMono(ys: seq<Tensor>, groups: seq<seq<Tensor>>, g: seq<Tensor>, h: int)
    ensures YieldedBefore(ys, groups, h) ==> YieldedBefore(ys, groups + [g], h)
    ensures forall k: nat :: YieldedUpTo(ys, groups, h, k) ==> YieldedUpTo(ys, groups + [g], h, k)
  {
    if 0 <= h <= |groups| {
      assert (groups + [g])[..h] == groups[..h];
    }
  }

  lemma {:induction false} YieldOne(c: Config, b: Bucket, ys: seq<Tensor>, groups: seq<seq<Tensor>>, h: int, k: nat)
    requires YieldedUpTo(ys, groups, h, k) && BucketOk(c, b, groups[h]) && k < |b.meta|
    ensures YieldedUpTo(ys + [View(b.content, b.meta[k])], groups, h, k + 1)
  {
    hide ReceivedAll, MetaOf, View, Unpack, Flat;
    UnpackIgnoresTail(b.content, b.meta, groups[h]);
    assert View(b.content, b.meta[k]) == Received(groups[h])[k];
    assert Received(groups[h])[..k + 1] == Received(groups[h])[..k] + [Received(groups[h])[k]];
  }

  lemma {:induction false} YieldNone(ys: seq<Tensor>, groups: seq<seq<Tensor>>, h: int)
    requires YieldedBefore(ys, groups, h) && h < |groups|
    ensures YieldedUpTo(ys, groups, h, 0)
  {
    hide ReceivedAll, MetaOf, Received;
  }

  lemma {:induction false} YieldAll(ys: seq<Tensor>, groups: seq<seq<Tensor>>, h: int, k: nat)
    requires YieldedUpTo(ys, groups, h, k) && k >= |MetaOf(groups[h])|
    ensures YieldedBefore(ys, groups, h + 1)
  {
    hide MetaOf, Flat, Received;
    assert groups[..h + 1] == groups[..h] + [groups[h]];
    assert groups[..h + 1][..h] == groups[..h];
    assert Received(groups[h])[..k] == Received(groups[h]);
  }

  lemma {:induction false} ReceivedPrefix(groups: seq<seq<Tensor>>, all: seq<seq<Tensor>>)
    requires groups <= all
    ensures ReceivedAll(groups) <= ReceivedAll(all)
    decreases |all|
  {
    if groups != all {
      ReceivedPrefix(groups, all[..|all| - 1]);
    }
  }

  lemma {:induction false} PartlyReceivedPrefix(groups: seq<seq<Tensor>>, all: seq<seq<Tensor>>, h: nat, k: nat)
    requires groups <= all && h < |groups| && k <= |Received(groups[h])|
    ensures ReceivedAll(groups[..h]) + Received(groups[h])[..k] <= ReceivedAll(all)
  {
    ReceivedPrefix(groups[..h + 1], all);
    assert groups[..h + 1][..h] == groups[..h];
  }

  /** No two tensors that share a bucket have the same name: what a sender can check before the transfer. */
  predicate NoRepeat(c: Config) {
    forall g :: 0 <= g < |Cut(c.weights, c.cap)| ==> DistinctNames(Cut(c.weights, c.cap)[g])
  }

  // ---------- oversized tensors ----------

  lemma {:induction false} OversizeNotHeld(groups: seq<seq<Tensor>>, cap: nat, i: nat)
    requires forall g :: 0 <= g < |groups| ==> |Flat(groups[g])| <= cap
    requires i < |Concat(groups)|
    ensures |Concat(groups)[i].bytes| <= cap
    decreases |groups|
  {
    if i < |groups[0]| {
      MemberWithin(groups[0], i);
    } else {
      OversizeNotHeld(groups[1..], cap, i - |groups[0]|);
    }
  }

  lemma {:induction false} MemberWithin(group: seq<Tensor>, i: nat)
    requires i < |group|
    ensures |group[i].bytes| <= |Flat(group)|
    decreases |group|
  {
    if i < |group| - 1 {
      MemberWithin(group[..|group| - 1], i);
    }
  }

  /** Buffers of bucket size that hold a complete cut prove that every tensor fits. */
  lemma {:induction false} CompleteLogFits(c: Config, log: seq<Bucket>, groups: seq<seq<Tensor>>)
    requires LogOk(c, log, groups) && groups == Cut(c.weights, c.cap)
    ensures Fits(c.weights, c.cap)
  {
    forall g | 0 <= g < |groups|
      ensures |Flat(groups[g])| <= c.cap
    {
      assert BucketOk(c, log[g], groups[g]);
    }
    GreedyConcat(c.weights, [], c.cap);
    forall k | 0 <= k < |c.weights|
      ensures |c.weights[k].bytes| <= c.cap
    {
      OversizeNotHeld(groups, c.cap, k);
    }
  }
}
