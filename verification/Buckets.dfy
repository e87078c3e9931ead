/** Tensors, their bucket metadata, and the way a stream of tensors is cut into buckets.
    The functions here are the values that the packers of both checkpoint engines compute
    step by step (nixl_checkpoint_engine.py:361-396, nccl_checkpoint_engine.py:223-262). */
module Buckets {
  type Byte = b: int | 0 <= b < 256

  datatype Dtype = Dtype(id: nat, itemsize: nat)

  /** A named tensor, already cast to the rollout dtype and viewed as raw bytes. */
  datatype Tensor = Tensor(name: string, shape: seq<nat>, dtype: Dtype, bytes: seq<Byte>)

  datatype TensorMeta = TensorMeta(name: string, shape: seq<nat>, dtype: Dtype, offset: nat)

  function Numel(shape: seq<nat>): nat {
    if shape == [] then 1 else shape[0] * Numel(shape[1..])
  }

  function NBytes(shape: seq<nat>, dtype: Dtype): nat {
    dtype.itemsize * Numel(shape)
  }

  /** A tensor owns exactly the bytes its shape and dtype announce. */
  ghost predicate Sound(t: Tensor) {
    |t.bytes| == NBytes(t.shape, t.dtype)
  }

  ghost predicate AllSound(ts: seq<Tensor>) {
    forall i :: 0 <= i < |ts| ==> Sound(ts[i])
  }

  // ---------- bucket_meta: an insertion-ordered dictionary keyed by tensor name ----------

  function IndexOf(meta: seq<TensorMeta>, name: string): (i: nat)
    ensures i <= |meta|
    ensures i < |meta| ==> meta[i].name == name
    ensures forall j :: 0 <= j < i ==> meta[j].name != name
  {
    if meta == [] then 0
    else if meta[0].name == name then 0
    else 1 + IndexOf(meta[1..], name)
  }

  /** `bucket_meta[entry.name] = entry`: a known key keeps its place, a new key goes last. */
  function Put(meta: seq<TensorMeta>, entry: TensorMeta): seq<TensorMeta> {
    var i := IndexOf(meta, entry.name);
    if i < |meta| then meta[i := entry] else meta + [entry]
  }

  // ---------- one bucket ----------

  /** The bytes of a group of tensors laid out back to back. */
  function Flat(group: seq<Tensor>): seq<Byte> {
    if group == [] then [] else Flat(group[..|group| - 1]) + group[|group| - 1].bytes
  }

  function MetaAt(t: Tensor, offset: nat): TensorMeta {
    TensorMeta(t.name, t.shape, t.dtype, offset)
  }

  /** The dictionary that results from putting the tensors of a group one after the other. */
  function MetaOf(group: seq<Tensor>): seq<TensorMeta> {
    if group == [] then []
    else
      var last := |group| - 1;
      Put(MetaOf(group[..last]), MetaAt(group[last], |Flat(group[..last])|))
  }

  /** `buf[offset : offset + size]`, with the clipping of a Python slice. */
  function Slice(buf: seq<Byte>, offset: nat, size: nat): seq<Byte> {
    var lo := if offset <= |buf| then offset else |buf|;
    var hi := if offset + size <= |buf| then offset + size else |buf|;
    buf[lo..hi]
  }

  /** The tensor a receiver yields for one dictionary entry: a view of its buffer. */
  function View(buf: seq<Byte>, m: TensorMeta): Tensor {
    Tensor(m.name, m.shape, m.dtype, Slice(buf, m.offset, NBytes(m.shape, m.dtype)))
  }

  function Unpack(buf: seq<Byte>, meta: seq<TensorMeta>): (ts: seq<Tensor>)
    ensures |ts| == |meta|
    ensures forall k :: 0 <= k < |ts| ==> ts[k] == View(buf, meta[k])
  {
    if meta == [] then [] else [View(buf, meta[0])] + Unpack(buf, meta[1..])
  }

  /** What every receiver of a group ends up with. */
  function Received(group: seq<Tensor>): (ts: seq<Tensor>)
    ensures |ts| == |MetaOf(group)|
  {
    Unpack(Flat(group), MetaOf(group))
  }

  function ReceivedAll(groups: seq<seq<Tensor>>): seq<Tensor> {
    if groups == [] then []
    else ReceivedAll(groups[..|groups| - 1]) + Received(groups[|groups| - 1])
  }

  function Concat(groups: seq<seq<Tensor>>): seq<Tensor> {
    if groups == [] then [] else groups[0] + Concat(groups[1..])
  }

  /** No two tensors of the group have the same name. */
  predicate DistinctNames(group: seq<Tensor>) {
    forall i, j :: 0 <= i < j < |group| ==> group[i].name != group[j].name
  }

  // ---------- a buffer that holds a group ----------

  ghost predicate Holds(buf: seq<Byte>, meta: seq<TensorMeta>, group: seq<Tensor>) {
    Flat(group) <= buf && meta == MetaOf(group)
  }

  lemma {:induction false} FlatSnoc(group: seq<Tensor>, t: Tensor)
    ensures Flat(group + [t]) == Flat(group) + t.bytes
    ensures MetaOf(group + [t]) == Put(MetaOf(group), MetaAt(t, |Flat(group)|))
  {
    assert (group + [t])[..|group|] == group;
  }

  /** Writing a tensor behind a group extends what the buffer holds by that tensor. */
  lemma {:induction false} PackKeepsHolds(buf: seq<Byte>, meta: seq<TensorMeta>, group: seq<Tensor>, t: Tensor)
    requires Holds(buf, meta, group)
    requires |Flat(group)| + |t.bytes| <= |buf|
    ensures var offset := |Flat(group)|;
            Holds(buf[..offset] + t.bytes + buf[offset + |t.bytes|..], Put(meta, MetaAt(t, offset)), group + [t])
  {
    FlatSnoc(group, t);
  }

  /** Every dictionary entry describes a range inside the packed bytes. */
  lemma {:induction false} EntriesInside(group: seq<Tensor>)
    requires AllSound(group)
    ensures forall k :: 0 <= k < |MetaOf(group)| ==>
              MetaOf(group)[k].offset + NBytes(MetaOf(group)[k].shape, MetaOf(group)[k].dtype) <= |Flat(group)|
  {
    if group != [] {
      var init, t := group[..|group| - 1], group[|group| - 1];
      EntriesInside(init);
      assert Sound(t);
    }
  }

  /** Unpacking a whole buffer reads only the packed bytes: stale bytes behind them do not matter. */
  lemma {:induction false} UnpackIgnoresTail(buf: seq<Byte>, meta: seq<TensorMeta>, group: seq<Tensor>)
    requires Holds(buf, meta, group) && AllSound(group)
    ensures Unpack(buf, meta) == Received(group)
  {
    EntriesInside(group);
    forall k | 0 <= k < |meta|
      ensures View(buf, meta[k]) == View(Flat(group), meta[k])
    {
      var lo, hi := meta[k].offset, meta[k].offset + NBytes(meta[k].shape, meta[k].dtype);
      assert hi <= |Flat(group)|;
      assert buf[lo..hi] == buf[..|Flat(group)|][lo..hi];
    }
  }

  // ---------- when unpacking restores the group ----------

  predicate HasKey(meta: seq<TensorMeta>, name: string) {
    IndexOf(meta, name) < |meta|
  }

  predicate Named(group: seq<Tensor>, name: string) {
    exists i :: 0 <= i < |group| && group[i].name == name
  }

  lemma {:induction false} PutKeys(meta: seq<TensorMeta>, e: TensorMeta, name: string)
    ensures HasKey(Put(meta, e), name) <==> HasKey(meta, name) || name == e.name
  {
    var i, meta' := IndexOf(meta, name), Put(meta, e);
    assert HasKey(meta, name) ==> meta'[i].name == name;
    assert meta'[IndexOf(meta, e.name)].name == e.name;
    if HasKey(meta', name) && name != e.name {
      var j := IndexOf(meta', name);
      assert meta[j].name == name;
    }
  }

  /** The keys of the dictionary are the names of the group. */
  lemma {:induction false} MetaKeys(group: seq<Tensor>, name: string)
    ensures HasKey(MetaOf(group), name) <==> Named(group, name)
  {
    if group != [] {
      var last := |group| - 1;
      var init, t := group[..last], group[last];
      MetaKeys(init, name);
      PutKeys(MetaOf(init), MetaAt(t, |Flat(init)|), name);
      NamedSnoc(init, t, name);
      assert group == init + [t];
    }
  }

  lemma {:induction false} NamedSnoc(group: seq<Tensor>, t: Tensor, name: string)
    ensures Named(group + [t], name) <==> Named(group, name) || t.name == name
  {
    var ext := group + [t];
    assert ext[|group|] == t;
    assert forall i :: 0 <= i < |group| ==> ext[i] == group[i];
  }

  lemma {:induction false} DistinctSnoc(group: seq<Tensor>, t: Tensor)
    ensures DistinctNames(group + [t]) <==> DistinctNames(group) && !Named(group, t.name)
  {
    var ext := group + [t];
    assert ext[|group|] == t;
    assert forall i :: 0 <= i < |group| ==> ext[i] == group[i];
  }

  /** The dictionary is as long as the group exactly when no name repeats; otherwise it is shorter. */
  lemma {:induction false} MetaLength(group: seq<Tensor>)
    ensures |MetaOf(group)| <= |group|
    ensures |MetaOf(group)| == |group| <==> DistinctNames(group)
  {
    if group != [] {
      var last := |group| - 1;
      var init, t := group[..last], group[last];
      assert group == init + [t];
      MetaLength(init);
      MetaKeys(init, t.name);
      DistinctSnoc(init, t);
      FlatSnoc(init, t);
    }
  }

  /** The k-th tensor sits in the k-th entry, right behind its predecessors. */
  ghost predicate PlacedAt(group: seq<Tensor>, k: nat)
    requires k < |group|
  {
    && k < |MetaOf(group)|
    && MetaOf(group)[k] == MetaAt(group[k], |Flat(group[..k])|)
    && Flat(group[..k]) + group[k].bytes <= Flat(group)
  }

  /** With distinct names the dictionary lists the tensors in order, each in its own range
      directly behind its predecessors, starting at offset 0. */
  lemma {:induction false} DistinctLayout(group: seq<Tensor>, k: nat)
    requires DistinctNames(group) && k < |group|
    ensures PlacedAt(group, k)
  {
    var last := |group| - 1;
    var init, t := group[..last], group[last];
    assert group == init + [t];
    DistinctSnoc(init, t);
    MetaLength(init);
    MetaKeys(init, t.name);
    FlatSnoc(init, t);
    if k < last {
      DistinctLayout(init, k);
      assert init[..k] == group[..k] && init[k] == group[k];
    }
  }

  lemma {:induction false} ViewRestores(group: seq<Tensor>, k: nat)
    requires k < |group| && Sound(group[k]) && PlacedAt(group, k)
    ensures View(Flat(group), MetaOf(group)[k]) == group[k]
  {
    var lo := |Flat(group[..k])|;
    var hi := lo + |group[k].bytes|;
    assert Flat(group)[..hi] == Flat(group[..k]) + group[k].bytes;
    assert Flat(group)[lo..hi] == Flat(group)[..hi][lo..];
  }

  /** A bucket gives back exactly the tensors packed into it if and only if their names differ;
      otherwise it gives back fewer. */
  lemma {:induction false} BucketRoundTrip(group: seq<Tensor>)
    requires AllSound(group)
    ensures Received(group) == group <==> DistinctNames(group)
    ensures |Received(group)| <= |group|
    ensures !DistinctNames(group) ==> |Received(group)| < |group|
  {
    MetaLength(group);
    if DistinctNames(group) {
      forall k | 0 <= k < |group|
        ensures Received(group)[k] == group[k]
      {
        assert Sound(group[k]);
        DistinctLayout(group, k);
        ViewRestores(group, k);
      }
    }
  }

  // ---------- the greedy cut of a stream into buckets ----------

  /** The groups still to be published when `cur` is in the open bucket and `rest` is to come. */
  function Greedy(rest: seq<Tensor>, cur: seq<Tensor>, cap: nat): (groups: seq<seq<Tensor>>)
    ensures |groups| >= 1
    ensures cur <= groups[0]
    decreases |rest|
  {
    if rest == [] then [cur]
    else if |Flat(cur)| + |rest[0].bytes| > cap then [cur] + Greedy(rest[1..], [rest[0]], cap)
    else Greedy(rest[1..], cur + [rest[0]], cap)
  }

  /** All buckets of one transfer. */
  function Cut(weights: seq<Tensor>, cap: nat): (groups: seq<seq<Tensor>>)
    ensures |groups| >= 1
  {
    Greedy(weights, [], cap)
  }

  predicate Fits(weights: seq<Tensor>, cap: nat) {
    forall i :: 0 <= i < |weights| ==> |weights[i].bytes| <= cap
  }

  lemma {:induction false} GreedyConcat(rest: seq<Tensor>, cur: seq<Tensor>, cap: nat)
    ensures Concat(Greedy(rest, cur, cap)) == cur + rest
    decreases |rest|
  {
    if rest == [] {
      assert Concat([cur]) == cur + Concat([]);
    } else if |Flat(cur)| + |rest[0].bytes| > cap {
      var tail := Greedy(rest[1..], [rest[0]], cap);
      GreedyConcat(rest[1..], [rest[0]], cap);
      assert ([cur] + tail)[1..] == tail;
      assert rest == [rest[0]] + rest[1..];
    } else {
      GreedyConcat(rest[1..], cur + [rest[0]], cap);
      assert rest == [rest[0]] + rest[1..];
    }
  }

  lemma {:induction false} ConcatSplit(a: seq<seq<Tensor>>, b: seq<seq<Tensor>>)
    ensures Concat(a + b) == Concat(a) + Concat(b)
  {
    if a == [] {
      assert a + b == b;
    } else {
      ConcatSplit(a[1..], b);
      assert (a + b)[1..] == a[1..] + b;
    }
  }

  lemma {:induction false} ConcatMember(groups: seq<seq<Tensor>>, g: nat)
    requires AllSound(Concat(groups)) && g < |groups|
    ensures AllSound(groups[g])
  {
    var c := Concat(groups);
    assert forall i :: 0 <= i < |groups[0]| ==> groups[0][i] == c[i];
    assert forall i :: 0 <= i < |Concat(groups[1..])| ==> Concat(groups[1..])[i] == c[|groups[0]| + i];
    if g > 0 {
      ConcatMember(groups[1..], g - 1);
    }
  }

  lemma {:induction false} ReceivedAllLength(groups: seq<seq<Tensor>>)
    requires forall g :: 0 <= g < |groups| ==> AllSound(groups[g])
    ensures |ReceivedAll(groups)| <= |Concat(groups)|
    ensures (exists g :: 0 <= g < |groups| && !DistinctNames(groups[g])) ==> |ReceivedAll(groups)| < |Concat(groups)|
    ensures (forall g :: 0 <= g < |groups| ==> DistinctNames(groups[g])) ==> ReceivedAll(groups) == Concat(groups)
  {
    if groups != [] {
      var last := |groups| - 1;
      var init := groups[..last];
      ReceivedAllLength(init);
      BucketRoundTrip(groups[last]);
      assert groups == init + [groups[last]];
      ConcatSplit(init, [groups[last]]);
      assert Concat([groups[last]]) == groups[last] + Concat([]);
      forall g | 0 <= g < |groups| && !DistinctNames(groups[g])
        ensures |ReceivedAll(groups)| < |Concat(groups)|
      {
        if g < last {
          assert init[g] == groups[g];
        }
      }
    }
  }

  /** Unpacking every bucket in order restores the stream exactly when no bucket repeats a name. */
  lemma {:induction false} StreamRoundTrip(weights: seq<Tensor>, cap: nat)
    requires AllSound(weights)
    ensures ReceivedAll(Cut(weights, cap)) == weights
       <==> forall g :: 0 <= g < |Cut(weights, cap)| ==> DistinctNames(Cut(weights, cap)[g])
  {
    var groups := Cut(weights, cap);
    GreedyConcat(weights, [], cap);
    assert Concat(groups) == weights;
    forall g | 0 <= g < |groups|
      ensures AllSound(groups[g])
    {
      ConcatMember(groups, g);
    }
    ReceivedAllLength(groups);
  }

  /** Distinct names over the whole stream are enough. */
  lemma {:induction false} DistinctStreamRoundTrip(weights: seq<Tensor>, cap: nat)
    requires AllSound(weights) && DistinctNames(weights)
    ensures ReceivedAll(Cut(weights, cap)) == weights
  {
    var groups := Cut(weights, cap);
    GreedyConcat(weights, [], cap);
    forall g | 0 <= g < |groups|
      ensures DistinctNames(groups[g])
    {
      DistinctMember(groups, g);
    }
    StreamRoundTrip(weights, cap);
  }

  lemma {:induction false} DistinctMember(groups: seq<seq<Tensor>>, g: nat)
    requires DistinctNames(Concat(groups)) && g < |groups|
    ensures DistinctNames(groups[g])
  {
    var c := Concat(groups);
    var tail := Concat(groups[1..]);
    assert forall i :: 0 <= i < |groups[0]| ==> groups[0][i] == c[i];
    assert forall i :: 0 <= i < |tail| ==> tail[i] == c[|groups[0]| + i];
    if g > 0 {
      forall i, j | 0 <= i < j < |tail|
        ensures tail[i].name != tail[j].name
      {
        assert c[|groups[0]| + i].name != c[|groups[0]| + j].name;
      }
      DistinctMember(groups[1..], g - 1);
    }
  }

  // ---------- sizes of the buckets ----------

  /** No bucket overflows, only the first can be empty, and a bucket is closed only when the
      next tensor does not fit. */
  ghost predicate Tight(groups: seq<seq<Tensor>>, cap: nat) {
    && (forall g :: 0 <= g < |groups| ==> |Flat(groups[g])| <= cap)
    && (forall g, h :: 0 <= g && h == g + 1 < |groups| ==> ClosedBy(groups[g], groups[h], cap))
  }

  ghost predicate ClosedBy(group: seq<Tensor>, next: seq<Tensor>, cap: nat) {
    next != [] && |Flat(group)| + |next[0].bytes| > cap
  }

  lemma {:induction false} GreedyTight(rest: seq<Tensor>, cur: seq<Tensor>, cap: nat)
    requires Fits(rest, cap) && |Flat(cur)| <= cap
    ensures Tight(Greedy(rest, cur, cap), cap)
    decreases |rest|
  {
    if rest != [] {
      var t := rest[0];
      if |Flat(cur)| + |t.bytes| > cap {
        FlatSnoc([], t);
        assert [] + [t] == [t];
        var tail := Greedy(rest[1..], [t], cap);
        GreedyTight(rest[1..], [t], cap);
        TightCons(cur, tail, t, cap);
      } else {
        FlatSnoc(cur, t);
        GreedyTight(rest[1..], cur + [t], cap);
      }
    }
  }

  lemma {:induction false} TightCons(cur: seq<Tensor>, tail: seq<seq<Tensor>>, t: Tensor, cap: nat)
    requires Tight(tail, cap) && tail != [] && [t] <= tail[0]
    requires |Flat(cur)| <= cap < |Flat(cur)| + |t.bytes|
    ensures Tight([cur] + tail, cap)
  {
    var groups: seq<seq<Tensor>> := [cur] + tail;
    forall g, h | 0 <= g && h == g + 1 < |groups|
      ensures ClosedBy(groups[g], groups[h], cap)
    {
      assert groups[h] == tail[g];
      if g == 0 {
        assert tail[0][0] == [t][0];
      } else {
        assert groups[g] == tail[g - 1];
      }
    }
  }

  function TotalBytes(groups: seq<seq<Tensor>>): nat {
    if groups == [] then 0 else |Flat(groups[0])| + TotalBytes(groups[1..])
  }

  lemma {:induction false} FirstWithin(group: seq<Tensor>)
    requires group != []
    ensures |group[0].bytes| <= |Flat(group)|
  {
    var init := group[..|group| - 1];
    if init != [] {
      FirstWithin(init);
    }
  }

  lemma {:induction false} PairsExceed(groups: seq<seq<Tensor>>, cap: nat)
    requires forall g, h :: 0 <= g && h == g + 1 < |groups| ==> |Flat(groups[g])| + |Flat(groups[h])| > cap
    ensures TotalBytes(groups) >= (|groups| / 2) * cap
    ensures |groups| >= 2 ==> TotalBytes(groups) > (|groups| / 2) * cap
    decreases |groups|
  {
    if |groups| >= 2 {
      var tail := groups[2..];
      forall g, h | 0 <= g && h == g + 1 < |tail|
        ensures |Flat(tail[g])| + |Flat(tail[h])| > cap
      {
        assert tail[g] == groups[g + 2] && tail[h] == groups[h + 2];
      }
      PairsExceed(tail, cap);
      assert groups[1..][1..] == tail;
      assert |Flat(groups[0])| + |Flat(groups[1])| > cap;
      HalfStep(|tail|, cap);
    }
  }

  lemma {:induction false} HalfStep(n: nat, cap: nat)
    ensures ((n + 2) / 2) * cap == (n / 2) * cap + cap
  {
    assert (n + 2) / 2 == n / 2 + 1;
  }

  /** The bytes of all tensors of a stream. */
  function StreamBytes(weights: seq<Tensor>): nat {
    if weights == [] then 0 else |weights[0].bytes| + StreamBytes(weights[1..])
  }

  lemma {:induction false} GreedyBytes(rest: seq<Tensor>, cur: seq<Tensor>, cap: nat)
    ensures TotalBytes(Greedy(rest, cur, cap)) == |Flat(cur)| + StreamBytes(rest)
    decreases |rest|
  {
    if rest == [] {
      assert TotalBytes([cur]) == |Flat(cur)| + TotalBytes([cur][1..]);
    } else if |Flat(cur)| + |rest[0].bytes| > cap {
      var tail := Greedy(rest[1..], [rest[0]], cap);
      GreedyBytes(rest[1..], [rest[0]], cap);
      FlatSnoc([], rest[0]);
      assert [] + [rest[0]] == [rest[0]];
      assert ([cur] + tail)[1..] == tail;
    } else {
      GreedyBytes(rest[1..], cur + [rest[0]], cap);
      FlatSnoc(cur, rest[0]);
    }
  }

  /** The buckets carry exactly the bytes of the stream; any two neighbours together exceed the capacity, so
      k buckets are used only for streams of more than (k div 2) capacities. */
  lemma {:induction false} BucketCountBound(weights: seq<Tensor>, cap: nat)
    requires Fits(weights, cap)
    ensures var groups := Cut(weights, cap);
            && (forall g, h :: 0 <= g && h == g + 1 < |groups| ==> |Flat(groups[g])| + |Flat(groups[h])| > cap)
            && (forall g :: 0 <= g < |groups| ==> |Flat(groups[g])| <= cap)
            && TotalBytes(groups) == StreamBytes(weights)
            && (|groups| >= 2 ==> (|groups| / 2) * cap < StreamBytes(weights))
  {
    var groups := Cut(weights, cap);
    GreedyTight(weights, [], cap);
    forall g, h | 0 <= g && h == g + 1 < |groups|
      ensures |Flat(groups[g])| + |Flat(groups[h])| > cap
    {
      assert ClosedBy(groups[g], groups[h], cap);
      FirstWithin(groups[h]);
    }
    PairsExceed(groups, cap);
    GreedyBytes(weights, [], cap);
  }

  /** Two one-byte tensors of one name in one bucket: only the second one comes back. */
  lemma {:induction false} RepeatedNameLoses()
    ensures var d := Dtype(0, 1);
            var first, second := Tensor("w", [1], d, [7]), Tensor("w", [1], d, [9]);
            Cut([first, second], 2) == [[first, second]] && ReceivedAll(Cut([first, second], 2)) == [second]
  {
    var d := Dtype(0, 1);
    var first, second := Tensor("w", [1], d, [7]), Tensor("w", [1], d, [9]);
    var both := [first, second];
    FlatSnoc([], first);
    FlatSnoc([first], second);
    assert [] + [first] == [first] && [first] + [second] == both;
    assert Flat(both) == [7, 9];
    assert both[1..] == [second] && [second][1..] == [];
    assert Greedy([second], [first], 2) == Greedy([], both, 2);
    assert MetaOf([first]) == [MetaAt(first, 0)];
    assert MetaOf(both) == [MetaAt(second, 1)];
    assert NBytes([1], d) == 1 by {
      assert [1][1..] == [];
      assert Numel([1]) == 1 * Numel([]);
    }
    assert View([7, 9], MetaAt(second, 1)) == second;
    assert Received(both) == [second];
    var groups: seq<seq<Tensor>> := [both];
    assert groups[..0] == [];
  }
}
