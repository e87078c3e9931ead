/** The sender's packing loop and the receiver's unpacking loop, on the two fixed-size buffers of an
    engine (nixl_checkpoint_engine.py:348-410 and 440-448, nccl_checkpoint_engine.py:210-277 and
    310-315; both engines run the same loops). Every published bucket is recorded together with the
    bytes of its buffer; that nobody disturbs those bytes while they are read is proved for the
    concurrent transfers in NixlSafety and NcclTheorems. */
module BucketTransfer {
  import opened Wrappers
  import opened Buckets
  import opened BucketLog

  /** `buf[offset : offset + len(bytes)] = bytes`, one byte at a time. */
  method CopySlice(buf: array<Byte>, offset: nat, bytes: seq<Byte>)
    requires offset + |bytes| <= buf.Length
    modifies buf
    ensures buf[..] == old(buf[..offset]) + bytes + old(buf[offset + |bytes|..])
  {
    for i := 0 to |bytes|
      invariant forall k :: 0 <= k < buf.Length ==>
        buf[k] == if offset <= k < offset + i then bytes[k - offset] else old(buf[k])
    {
      buf[offset + i] := bytes[i];
    }
  }

  /** The buckets published so far hold the groups cut off so far. */
  ghost predicate Records(log: seq<Bucket>, groups: seq<seq<Tensor>>, cap: nat) {
    && |log| == |groups|
    && forall g :: 0 <= g < |log| ==> |log[g].content| == cap && Holds(log[g].content, log[g].meta, groups[g])
  }

  class Engine {
    const bucketSize: nat
    const sendBuf: array<Byte>
    const recvBuf: array<Byte>

    ghost predicate Valid()
    {
      sendBuf != recvBuf && sendBuf.Length == recvBuf.Length == bucketSize
    }

    constructor (size: nat)
      ensures Valid() && bucketSize == size && fresh(sendBuf) && fresh(recvBuf)
    {
      bucketSize := size;
      sendBuf := new Byte[size](_ => 0);
      recvBuf := new Byte[size](_ => 0);
    }

    /** `send_weights` of rank 0. It fails exactly when some tensor is larger than a bucket, with the
        name of the first such tensor; otherwise it publishes the buckets of the greedy cut in order,
        the last one marked. */
    method SendWeights(weights: seq<Tensor>) returns (r: Result<seq<Bucket>, string>)
      requires Valid()
      modifies sendBuf, recvBuf
      ensures r.Ok? <==> Fits(weights, bucketSize)
      ensures r.Ok? ==> Records(r.value, Cut(weights, bucketSize), bucketSize)
      ensures r.Ok? ==> forall g :: 0 <= g < |r.value| ==> r.value[g].isLast == (g == |r.value| - 1)
      ensures r.Err? ==> exists i: nat :: FirstTooLarge(weights, bucketSize, i) && r.error == weights[i].name
    {
      hide Holds, Flat, MetaOf, Greedy;
      EmptyBucket(sendBuf[..]);
      var send, recv := sendBuf, recvBuf;
      var meta: seq<TensorMeta> := [];
      var offset := 0;
      var log: seq<Bucket> := [];
      ghost var groups: seq<seq<Tensor>> := [];
      ghost var cur: seq<Tensor> := [];
      assert weights[0..] == weights;
      for i := 0 to |weights|
        invariant (send == sendBuf && recv == recvBuf) || (send == recvBuf && recv == sendBuf)
        invariant Cut(weights, bucketSize) == groups + Greedy(weights[i..], cur, bucketSize)
        invariant Holds(send[..], meta, cur) && offset == |Flat(cur)| <= bucketSize
        invariant Records(log, groups, bucketSize)
        invariant forall g :: 0 <= g < |log| ==> !log[g].isLast
        invariant Fits(weights[..i], bucketSize)
      {
        ghost var rest := weights[i..];
        var t := weights[i];
        assert rest[0] == t && rest[1..] == weights[i + 1..];
        if offset + |t.bytes| > bucketSize {
          log := log + [Bucket(meta, false, send[..])];
          send, recv := recv, send;
          meta := [];
          offset := 0;
          ClosedBucket(rest, cur, groups, bucketSize);
          groups, cur := groups + [cur], [];
          EmptyBucket(send[..]);
        }
        if offset + |t.bytes| > bucketSize {
          assert FirstTooLarge(weights, bucketSize, i);
          return Err(t.name);
        }
        PackKeepsHolds(send[..], meta, cur, t);
        FlatSnoc(cur, t);
        GreedyKeepsOpen(rest, cur, bucketSize);
        meta := Put(meta, MetaAt(t, offset));
        CopySlice(send, offset, t.bytes);
        offset := offset + |t.bytes|;
        cur := cur + [t];
        assert weights[..i + 1] == weights[..i] + [t];
      }
      log := log + [Bucket(meta, true, send[..])];
      assert weights[..|weights|] == weights && weights[|weights|..] == [];
      GreedyEnd(cur, bucketSize);
      return Ok(log);
    }

    /** The loop over `bucket_meta` in `receive_weights`: the tensors of a bucket, in order. */
    method YieldTensors(buf: array<Byte>, meta: seq<TensorMeta>) returns (yielded: seq<Tensor>)
      ensures yielded == Unpack(buf[..], meta)
    {
      hide View;
      yielded := [];
      for k := 0 to |meta|
        invariant |yielded| == k
        invariant forall j :: 0 <= j < k ==> yielded[j] == View(buf[..], meta[j])
      {
        yielded := yielded + [View(buf[..], meta[k])];
      }
    }
  }

  predicate FirstTooLarge(weights: seq<Tensor>, cap: nat, i: nat) {
    i < |weights| && |weights[i].bytes| > cap && Fits(weights[..i], cap)
  }

  /** One tensor of two bytes is too large for a bucket of one. */
  lemma {:induction false} OversizedTensor()
    ensures var weights := [Tensor("w", [2], Dtype(0, 1), [0, 0])];
            FirstTooLarge(weights, 1, 0) && !Fits(weights, 1)
  {
    var weights := [Tensor("w", [2], Dtype(0, 1), [0, 0])];
    assert |weights[0].bytes| == 2;
  }

  lemma {:induction false} EmptyBucket(buf: seq<Byte>)
    ensures Holds(buf, [], []) && Flat([]) == []
  {}

  lemma {:induction false} GreedyEnd(cur: seq<Tensor>, cap: nat)
    ensures Greedy([], cur, cap) == [cur]
  {}

  lemma {:induction false} GreedyKeepsOpen(rest: seq<Tensor>, cur: seq<Tensor>, cap: nat)
    requires rest != [] && |Flat(cur)| + |rest[0].bytes| <= cap
    ensures Greedy(rest, cur, cap) == Greedy(rest[1..], cur + [rest[0]], cap)
  {}

  /** The greedy cut continues behind a bucket that was closed because `rest[0]` does not fit. */
  lemma {:induction false} ClosedBucket(rest: seq<Tensor>, cur: seq<Tensor>, groups: seq<seq<Tensor>>, cap: nat)
    requires rest != [] && |Flat(cur)| + |rest[0].bytes| > cap
    ensures |rest[0].bytes| <= cap ==> groups + Greedy(rest, cur, cap) == groups + [cur] + Greedy(rest, [], cap)
  {
    var tail := Greedy(rest[1..], [rest[0]], cap);
    assert groups + ([cur] + tail) == groups + [cur] + tail;
    assert [] + [rest[0]] == [rest[0]];
    assert Flat([]) == [];
  }

  /** What the sender publishes, unpacked bucket by bucket, is the stream it was given if and only if no
      bucket repeats a name. */
  lemma {:induction false} PublishedRoundTrip(weights: seq<Tensor>, cap: nat, log: seq<Bucket>)
    requires AllSound(weights) && Records(log, Cut(weights, cap), cap)
    ensures UnpackAll(log) == weights
       <==> forall g :: 0 <= g < |Cut(weights, cap)| ==> DistinctNames(Cut(weights, cap)[g])
  {
    hide Holds, MetaOf, Flat, Received, Greedy;
    var groups := Cut(weights, cap);
    GreedyConcat(weights, [], cap);
    forall g | 0 <= g < |groups|
      ensures AllSound(groups[g])
    {
      ConcatMember(groups, g);
    }
    UnpackAllIsReceivedAll(log, groups, cap);
    StreamRoundTrip(weights, cap);
  }

  function UnpackAll(log: seq<Bucket>): seq<Tensor> {
    if log == [] then []
    else UnpackAll(log[..|log| - 1]) + Unpack(log[|log| - 1].content, log[|log| - 1].meta)
  }

  lemma {:induction false} UnpackAllIsReceivedAll(log: seq<Bucket>, groups: seq<seq<Tensor>>, cap: nat)
    requires Records(log, groups, cap) && forall g :: 0 <= g < |groups| ==> AllSound(groups[g])
    ensures UnpackAll(log) == ReceivedAll(groups)
  {
    hide Received, MetaOf, Flat, Unpack;
    if log != [] {
      var last := |log| - 1;
      UnpackAllIsReceivedAll(log[..last], groups[..last], cap);
      UnpackIgnoresTail(log[last].content, log[last].meta, groups[last]);
    }
  }
}
