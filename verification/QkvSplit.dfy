/** Splitting a fused query-key-value tensor (verl/model_merger/megatron_model_merger.py:330-354): the rows
    come in one block per key-value head, each block holding that group's queries, its key and its value. */
module QkvSplit {
  import opened Wrappers
  import opened Arith
  import opened RowTable

  datatype QkvError = NoKvHeads | HeadsNotMultiple | RowsNotMultiple | ChunkMismatch

  // ---------- the code ----------

  function CeilDiv(n: nat, k: nat): nat
    requires k > 0
  {
    (n + k - 1) / k
  }

  function Piece<T>(s: seq<T>, size: nat, i: nat): seq<T>
    requires i * size <= |s|
  {
    s[i * size..if (i + 1) * size <= |s| then (i + 1) * size else |s|]
  }

  lemma {:induction false} PieceStarts(n: nat, size: nat, i: nat)
    requires size > 0 && i < CeilDiv(n, size)
    ensures i * size <= n
  {
    var c := CeilDiv(n, size);
    assert n + size - 1 == c * size + (n + size - 1) % size;
    MulMono(i, c - 1, size);
    MulOne(c - 1, size);
  }

  /** `torch.chunk(count)`: pieces of ceil(n / count) rows, so perhaps fewer than asked for; an empty tensor
      gives empty pieces. */
  function Chunks<T>(s: seq<T>, count: nat): seq<seq<T>>
    requires count > 0
  {
    if s == [] then Copies([], count)
    else
      var size := CeilDiv(|s|, count);
      PositiveCeil(|s|, count);
      seq(CeilDiv(|s|, size), i requires 0 <= i < CeilDiv(|s|, size) => PieceStarts(|s|, size, i); Piece(s, size, i))
  }

  lemma {:induction false} PositiveCeil(n: nat, k: nat)
    requires n > 0 && k > 0
    ensures CeilDiv(n, k) > 0 && CeilDiv(n, k) * k >= n
  {
    var c := CeilDiv(n, k);
    assert n + k - 1 == c * k + (n + k - 1) % k;
  }

  predicate Divides(k: nat, n: nat)
    requires k > 0
  {
    n % k == 0
  }

  /** Query heads for each key-value head. */
  function PerKv(heads: nat, kvHeads: nat): nat
    requires kvHeads > 0
  {
    heads / kvHeads
  }

  /** Rows of all keys, with `perKv` queries for each. */
  function KvSize(n: nat, perKv: nat): nat {
    n / (perKv + 2)
  }

  /** Rows of one group's queries, as the code divides them. */
  function QueryRows(kvSize: nat, perKv: nat, kvHeads: nat): nat
    requires kvHeads > 0
  {
    (kvSize * perKv) / kvHeads
  }

  function KeyRows(kvSize: nat, kvHeads: nat): nat
    requires kvHeads > 0
  {
    kvSize / kvHeads
  }

  method SplitQkv<T>(tensor: seq<T>, heads: nat, kvHeads: nat) returns (r: Result<(seq<T>, seq<T>, seq<T>), QkvError>)
    ensures r == Split(tensor, heads, kvHeads)
  {
    hide Chunks, Divides, PerKv, KvSize, QueryRows, KeyRows, Sized, Blocks, Queries, Keys, Values;
    if kvHeads == 0 {
      return Err(NoKvHeads);
    }
    if !Divides(kvHeads, heads) {
      return Err(HeadsNotMultiple);
    }
    var perKv := PerKv(heads, kvHeads);
    if !Divides(perKv + 2, |tensor|) {
      return Err(RowsNotMultiple);
    }
    var kvSize := KvSize(|tensor|, perKv);
    var qs, ks := QueryRows(kvSize, perKv, kvHeads), KeyRows(kvSize, kvHeads);
    var chunks := Chunks(tensor, kvHeads);
    ChunksFit(tensor, perKv, kvHeads);
    var parts := SplitChunks(chunks, qs, ks);
    r := if parts.Some? then Ok(parts.value) else Err(ChunkMismatch);
  }

  ghost predicate Sized<T>(blocks: seq<seq<T>>, size: nat) {
    forall i :: 0 <= i < |blocks| ==> |blocks[i]| == size
  }

  /** Every chunk is split into three and each kind is collected; `split` fails on any other length. */
  method SplitChunks<T>(chunks: seq<seq<T>>, qs: nat, ks: nat) returns (r: Option<(seq<T>, seq<T>, seq<T>)>)
    ensures r.Some? <==> Sized(chunks, qs + ks + ks)
    ensures r.Some? ==> r.value == (Queries(chunks, qs), Keys(chunks, qs, ks), Values(chunks, qs, ks))
  {
    var q: seq<T>, k: seq<T>, v: seq<T> := [], [], [];
    for i := 0 to |chunks|
      invariant Sized(chunks[..i], qs + ks + ks)
      invariant (q, k, v) == (Queries(chunks[..i], qs), Keys(chunks[..i], qs, ks), Values(chunks[..i], qs, ks))
    {
      assert chunks[..i + 1][..i] == chunks[..i];
      var chunk := chunks[i];
      if qs + ks + ks != |chunk| {
        return None;
      }
      q, k, v := q + chunk[..qs], k + chunk[qs..qs + ks], v + chunk[qs + ks..];
    }
    assert chunks[..|chunks|] == chunks;
    r := Some((q, k, v));
  }

  // ---------- the split and its inverse ----------

  function Queries<T>(blocks: seq<seq<T>>, qs: nat): seq<T> {
    if blocks == [] then []
    else
      var b := blocks[|blocks| - 1];
      Queries(blocks[..|blocks| - 1], qs) + if qs <= |b| then b[..qs] else b
  }

  function Keys<T>(blocks: seq<seq<T>>, qs: nat, ks: nat): seq<T> {
    if blocks == [] then []
    else
      var b := blocks[|blocks| - 1];
      Keys(blocks[..|blocks| - 1], qs, ks) + if qs + ks <= |b| then b[qs..qs + ks] else []
  }

  function Values<T>(blocks: seq<seq<T>>, qs: nat, ks: nat): seq<T> {
    if blocks == [] then []
    else
      var b := blocks[|blocks| - 1];
      Values(blocks[..|blocks| - 1], qs, ks) + if qs + ks <= |b| then b[qs + ks..] else []
  }

  function BlockAt<T>(s: seq<T>, count: nat, size: nat, i: nat): seq<T>
    requires |s| == count * size && i < count
  {
    BlockBounds(i, count, size);
    s[i * size..(i + 1) * size]
  }

  /** Consecutive blocks of one size. */
  function Blocks<T>(s: seq<T>, count: nat, size: nat): (r: seq<seq<T>>)
    requires |s| == count * size
    ensures |r| == count && forall i :: 0 <= i < count ==> r[i] == BlockAt(s, count, size, i)
  {
    seq(count, i requires 0 <= i < count => BlockAt(s, count, size, i))
  }

  lemma {:induction false} BlockBounds(i: nat, count: nat, size: nat)
    requires i < count
    ensures i * size <= (i + 1) * size <= count * size && (i + 1) * size == i * size + size
  {
    MulMono(i + 1, count, size);
    MulOne(i, size);
  }

  /** The split works exactly when the key-value heads divide the rows of one kind. */
  function Split<T>(tensor: seq<T>, heads: nat, kvHeads: nat): Result<(seq<T>, seq<T>, seq<T>), QkvError> {
    if kvHeads == 0 then Err(NoKvHeads)
    else if !Divides(kvHeads, heads) then Err(HeadsNotMultiple)
    else
      var perKv := PerKv(heads, kvHeads);
      if !Divides(perKv + 2, |tensor|) then Err(RowsNotMultiple)
      else if !Divides(kvHeads, KvSize(|tensor|, perKv)) then Err(ChunkMismatch)
      else Ok(SplitBlocks(tensor, perKv, kvHeads))
  }

  function SplitBlocks<T>(tensor: seq<T>, perKv: nat, kvHeads: nat): (seq<T>, seq<T>, seq<T>)
    requires kvHeads > 0 && Divides(perKv + 2, |tensor|) && Divides(kvHeads, KvSize(|tensor|, perKv))
  {
    var ks := KeyRows(KvSize(|tensor|, perKv), kvHeads);
    var qs := ks * perKv;
    BlockCount(|tensor|, perKv, kvHeads);
    var blocks := Blocks(tensor, kvHeads, qs + ks + ks);
    (Queries(blocks, qs), Keys(blocks, qs, ks), Values(blocks, qs, ks))
  }

  lemma {:induction false} BlockCount(n: nat, perKv: nat, kvHeads: nat)
    requires kvHeads > 0 && Divides(perKv + 2, n) && Divides(kvHeads, KvSize(n, perKv))
    ensures var ks := KeyRows(KvSize(n, perKv), kvHeads); n == kvHeads * (ks * perKv + ks + ks)
  {
    var kvSize := n / (perKv + 2);
    var ks := kvSize / kvHeads;
    assert n == kvSize * (perKv + 2) && kvSize == ks * kvHeads;
    Regroup(ks, kvHeads, perKv);
  }

  lemma {:induction false} Regroup(ks: nat, kvHeads: nat, perKv: nat)
    ensures (ks * kvHeads) * (perKv + 2) == kvHeads * (ks * perKv + ks + ks)
  {
    assert (ks * kvHeads) * perKv == kvHeads * (ks * perKv);
  }

  lemma {:induction false} QuerySize(kvSize: nat, perKv: nat, kvHeads: nat)
    requires kvHeads > 0 && Divides(kvHeads, kvSize)
    ensures QueryRows(kvSize, perKv, kvHeads) == KeyRows(kvSize, kvHeads) * perKv
  {
    var ks := kvSize / kvHeads;
    assert kvSize * perKv == (ks * perKv) * kvHeads;
    DivUnique(kvSize * perKv, ks * perKv, 0, kvHeads);
  }

  /** With divisible sizes the chunks are the blocks; otherwise already the first chunk has a wrong size. */
  lemma {:induction false} ChunksFit<T>(tensor: seq<T>, perKv: nat, kvHeads: nat)
    requires kvHeads > 0 && Divides(perKv + 2, |tensor|)
    ensures var kvSize := KvSize(|tensor|, perKv);
            var (qs, ks, chunks) := (QueryRows(kvSize, perKv, kvHeads), KeyRows(kvSize, kvHeads), Chunks(tensor, kvHeads));
            && (Sized(chunks, qs + ks + ks) <==> Divides(kvHeads, kvSize))
            && (Divides(kvHeads, kvSize) ==>
                  SplitBlocks(tensor, perKv, kvHeads) == (Queries(chunks, qs), Keys(chunks, qs, ks), Values(chunks, qs, ks)))
  {
    hide Divides, KvSize, QueryRows, KeyRows, Chunks, Queries, Keys, Values;
    var kvSize := KvSize(|tensor|, perKv);
    if Divides(kvHeads, kvSize) {
      QuerySize(kvSize, perKv, kvHeads);
      BlockCount(|tensor|, perKv, kvHeads);
      var ks := KeyRows(kvSize, kvHeads);
      ChunksAreBlocks(tensor, kvHeads, ks * perKv + ks + ks);
      BlocksSized(tensor, kvHeads, ks * perKv + ks + ks);
    } else {
      FirstChunk(tensor, perKv, kvHeads);
    }
  }

  lemma {:induction false} FirstChunk<T>(tensor: seq<T>, perKv: nat, kvHeads: nat)
    requires kvHeads > 0 && Divides(perKv + 2, |tensor|) && !Divides(kvHeads, KvSize(|tensor|, perKv))
    ensures var (kvSize, chunks) := (KvSize(|tensor|, perKv), Chunks(tensor, kvHeads));
            chunks != [] && QueryRows(kvSize, perKv, kvHeads) + 2 * KeyRows(kvSize, kvHeads) < |chunks[0]|
  {
    hide Divides, KvSize, QueryRows, KeyRows;
    ChunkTooLong(|tensor|, perKv, kvHeads);
    PositiveCeil(|tensor|, kvHeads);
    PositiveCeil(|tensor|, CeilDiv(|tensor|, kvHeads));
    assert Chunks(tensor, kvHeads)[0] == Piece(tensor, CeilDiv(|tensor|, kvHeads), 0);
    CeilAtMost(|tensor|, kvHeads);
  }

  lemma {:induction false} CeilAtMost(n: nat, k: nat)
    requires n > 0 && k > 0
    ensures CeilDiv(n, k) <= n
  {
    MulMono(1, n, k);
    var c := CeilDiv(n, k);
    assert n + k - 1 == c * k + (n + k - 1) % k;
    if c > n {
      MulMono(n + 1, c, k);
      MulOne(n, k);
      Slack(n, k);
      assert false;
    }
  }

  lemma {:induction false} Slack(n: nat, k: nat)
    requires n > 0 && k > 0
    ensures n * k >= n + k - 1
  {
    MulOne(n - 1, k);
    MulMono(1, k, n - 1);
  }

  lemma {:induction false} ChunkTooLong(n: nat, perKv: nat, kvHeads: nat)
    requires kvHeads > 0 && Divides(perKv + 2, n) && !Divides(kvHeads, KvSize(n, perKv))
    ensures var kvSize := KvSize(n, perKv);
            n > 0 && QueryRows(kvSize, perKv, kvHeads) + 2 * KeyRows(kvSize, kvHeads) < CeilDiv(n, kvHeads)
  {
    var kvSize := n / (perKv + 2);
    assert n == kvSize * (perKv + 2) == kvSize * perKv + kvSize + kvSize;
    assert kvSize > 0;
    PositiveCeil(n, kvHeads);
    RemaindersAddUp(kvSize * perKv, kvSize, CeilDiv(n, kvHeads), kvHeads);
  }

  /** Rounding down twice cannot reach what is rounded up. */
  lemma {:induction false} RemaindersAddUp(x: nat, y: nat, c: nat, g: nat)
    requires g > 0 && y % g != 0 && c * g >= x + y + y
    ensures x / g + 2 * (y / g) < c
  {
    var a, b := x / g, y / g;
    assert x == a * g + x % g && y == b * g + y % g;
    ThreeTerms(a, b, g);
    if c <= a + b + b {
      MulMono(c, a + b + b, g);
      assert false;
    }
  }

  lemma {:induction false} ThreeTerms(a: int, b: int, n: int)
    ensures (a + b + b) * n == a * n + b * n + b * n
  {}

  lemma {:induction false} ChunksAreBlocks<T>(s: seq<T>, count: nat, size: nat)
    requires count > 0 && |s| == count * size
    ensures Chunks(s, count) == Blocks(s, count, size)
  {
    CopiesAt<seq<T>>([], count);
    if s == [] {
      forall i | 0 <= i < count
        ensures Blocks(s, count, size)[i] == []
      {
        BlockBounds(i, count, size);
      }
    } else {
      DivUnique(count * size + count - 1, size, count - 1, count);
      DivUnique(count * size + size - 1, count, size - 1, size);
      forall i | 0 <= i < count
        ensures Chunks(s, count)[i] == Blocks(s, count, size)[i]
      {
        BlockBounds(i, count, size);
      }
    }
  }

  /** Put the three kinds together again, group by group. */
  function Fuse<T>(q: seq<T>, k: seq<T>, v: seq<T>, count: nat, qs: nat, ks: nat): seq<T>
    requires |q| == count * qs && |k| == |v| == count * ks
  {
    if count == 0 then []
    else
      var m := count - 1;
      MulOne(m, qs);
      MulOne(m, ks);
      Fuse(q[..m * qs], k[..m * ks], v[..m * ks], m, qs, ks) + (q[m * qs..] + k[m * ks..] + v[m * ks..])
  }

  /** One more block adds its three parts. */
  lemma {:induction false} KindsSnoc<T>(init: seq<seq<T>>, b: seq<T>, qs: nat, ks: nat)
    requires |b| == qs + ks + ks
    ensures Queries(init + [b], qs) == Queries(init, qs) + b[..qs]
    ensures Keys(init + [b], qs, ks) == Keys(init, qs, ks) + b[qs..qs + ks]
    ensures Values(init + [b], qs, ks) == Values(init, qs, ks) + b[qs + ks..]
  {
    assert (init + [b])[..|init|] == init;
  }

  lemma {:induction false} KindSizes<T>(blocks: seq<seq<T>>, qs: nat, ks: nat)
    requires Sized(blocks, qs + ks + ks)
    ensures |Queries(blocks, qs)| == |blocks| * qs
    ensures |Keys(blocks, qs, ks)| == |Values(blocks, qs, ks)| == |blocks| * ks
  {
    if blocks != [] {
      var m := |blocks| - 1;
      KindSizes(blocks[..m], qs, ks);
      assert blocks == blocks[..m] + [blocks[m]];
      KindsSnoc(blocks[..m], blocks[m], qs, ks);
      hide Queries, Keys, Values;
      MulOne(m, qs);
      MulOne(m, ks);
    }
  }

  function Flatten<T>(blocks: seq<seq<T>>): seq<T> {
    if blocks == [] then [] else Flatten(blocks[..|blocks| - 1]) + blocks[|blocks| - 1]
  }

  lemma {:induction false} FuseBlocks<T>(blocks: seq<seq<T>>, qs: nat, ks: nat)
    requires Sized(blocks, qs + ks + ks)
    ensures |Queries(blocks, qs)| == |blocks| * qs && |Keys(blocks, qs, ks)| == |Values(blocks, qs, ks)| == |blocks| * ks
    ensures Fuse(Queries(blocks, qs), Keys(blocks, qs, ks), Values(blocks, qs, ks), |blocks|, qs, ks) == Flatten(blocks)
  {
    KindSizes(blocks, qs, ks);
    if blocks != [] {
      var m := |blocks| - 1;
      var init, b := blocks[..m], blocks[m];
      KindSizes(init, qs, ks);
      FuseBlocks(init, qs, ks);
      assert blocks == init + [b];
      KindsSnoc(init, b, qs, ks);
      hide Queries, Keys, Values, Sized;
      var q, k, v := Queries(blocks, qs), Keys(blocks, qs, ks), Values(blocks, qs, ks);
      assert q[..m * qs] == Queries(init, qs) && q[m * qs..] == b[..qs];
      assert k[..m * ks] == Keys(init, qs, ks) && k[m * ks..] == b[qs..qs + ks];
      assert v[..m * ks] == Values(init, qs, ks) && v[m * ks..] == b[qs + ks..];
      assert b[..qs] + b[qs..qs + ks] + b[qs + ks..] == b;
    }
  }

  lemma {:induction false} FlattenBlocks<T>(s: seq<T>, count: nat, size: nat)
    requires |s| == count * size
    ensures Flatten(Blocks(s, count, size)) == s
  {
    if count > 0 {
      var m := count - 1;
      MulOne(m, size);
      FlattenBlocks(s[..m * size], m, size);
      BlocksInit(s, count, size);
      assert s == s[..m * size] + s[m * size..];
    }
  }

  lemma {:induction false} BlocksInit<T>(s: seq<T>, count: nat, size: nat)
    requires count > 0 && |s| == count * size
    ensures (count - 1) * size <= |s|
    ensures Blocks(s, count, size) == Blocks(s[..(count - 1) * size], count - 1, size) + [s[(count - 1) * size..]]
  {
    var m := count - 1;
    MulOne(m, size);
    var all, init := Blocks(s, count, size), Blocks(s[..m * size], m, size);
    forall i | 0 <= i < m
      ensures all[i] == init[i]
    {
      BlockBounds(i, m, size);
    }
    assert all[m] == s[m * size..];
  }

  lemma {:induction false} BlocksSized<T>(s: seq<T>, count: nat, size: nat)
    requires |s| == count * size
    ensures Sized(Blocks(s, count, size), size)
  {
    forall i | 0 <= i < count
      ensures |Blocks(s, count, size)[i]| == size
    {
      BlockBounds(i, count, size);
    }
  }

  /** The three kinds have the expected sizes and fuse to the tensor. */
  ghost predicate FusesTo<T>(parts: (seq<T>, seq<T>, seq<T>), kvHeads: nat, qs: nat, ks: nat, tensor: seq<T>) {
    && |parts.0| == kvHeads * qs && |parts.1| == |parts.2| == kvHeads * ks
    && Fuse(parts.0, parts.1, parts.2, kvHeads, qs, ks) == tensor
  }

  lemma {:induction false} FuseSplitBlocks<T>(tensor: seq<T>, perKv: nat, kvHeads: nat)
    requires kvHeads > 0 && Divides(perKv + 2, |tensor|) && Divides(kvHeads, KvSize(|tensor|, perKv))
    ensures var ks := KeyRows(KvSize(|tensor|, perKv), kvHeads);
            FusesTo(SplitBlocks(tensor, perKv, kvHeads), kvHeads, ks * perKv, ks, tensor)
  {
    hide Divides, KvSize, KeyRows, Fuse, Queries, Keys, Values, Blocks, Flatten, Sized;
    var ks := KeyRows(KvSize(|tensor|, perKv), kvHeads);
    BlockCount(|tensor|, perKv, kvHeads);
    var qs := ks * perKv;
    var blocks := Blocks(tensor, kvHeads, qs + ks + ks);
    BlocksSized(tensor, kvHeads, qs + ks + ks);
    FuseBlocks(blocks, qs, ks);
    FlattenBlocks(tensor, kvHeads, qs + ks + ks);
  }

  /** Fusing the parts of a split restores the tensor: no row is lost, doubled or moved between kinds. */
  lemma {:induction false} FuseAfterSplit<T>(tensor: seq<T>, heads: nat, kvHeads: nat)
    requires Split(tensor, heads, kvHeads).Ok?
    ensures var perKv := PerKv(heads, kvHeads);
            var ks := KeyRows(KvSize(|tensor|, perKv), kvHeads);
            FusesTo(Split(tensor, heads, kvHeads).value, kvHeads, ks * perKv, ks, tensor)
  {
    hide Divides, PerKv, KvSize, KeyRows, FusesTo, SplitBlocks;
    FuseSplitBlocks(tensor, PerKv(heads, kvHeads), kvHeads);
  }

  // ---------- where every row goes ----------

  /** The part of one block in a sequence made of one slice for each block. */
  lemma {:induction false} SliceOf<T>(all: seq<T>, init: seq<T>, last: seq<T>, m: nat, size: nat, g: nat)
    requires all == init + last && |init| == m * size && |last| == size && g <= m
    ensures g * size + size <= |all|
    ensures g == m ==> all[g * size..g * size + size] == last
    ensures g < m ==> g * size + size <= |init| && all[g * size..g * size + size] == init[g * size..g * size + size]
  {
    if g < m {
      BlockBounds(g, m, size);
    }
  }

  lemma {:induction false} KindSlices<T>(blocks: seq<seq<T>>, qs: nat, ks: nat, g: nat)
    requires Sized(blocks, qs + ks + ks) && g < |blocks|
    ensures var (q, k, v, b) := (Queries(blocks, qs), Keys(blocks, qs, ks), Values(blocks, qs, ks), blocks[g]);
            && g * qs + qs <= |q| && g * ks + ks <= |k| && g * ks + ks <= |v|
            && q[g * qs..g * qs + qs] == b[..qs]
            && k[g * ks..g * ks + ks] == b[qs..qs + ks] && v[g * ks..g * ks + ks] == b[qs + ks..]
  {
    var m := |blocks| - 1;
    var init, last := blocks[..m], blocks[m];
    KindSizes(init, qs, ks);
    KindsSnoc(init, last, qs, ks);
    assert blocks == init + [last];
    if g < m {
      KindSlices(init, qs, ks, g);
    }
    hide Queries, Keys, Values, Sized;
    SliceOf(Queries(blocks, qs), Queries(init, qs), last[..qs], m, qs, g);
    SliceOf(Keys(blocks, qs, ks), Keys(init, qs, ks), last[qs..qs + ks], m, ks, g);
    SliceOf(Values(blocks, qs, ks), Values(init, qs, ks), last[qs + ks..], m, ks, g);
  }

  /** The rows of one group: of its block of qs + 2 * ks rows the first qs are queries, the next ks keys and the
      last ks values, and they take the group's place in the three results. */
  ghost predicate GroupPlaced<T>(tensor: seq<T>, parts: (seq<T>, seq<T>, seq<T>), qs: nat, ks: nat, g: nat) {
    var (q, k, v, b) := (parts.0, parts.1, parts.2, g * (qs + ks + ks));
    && b + qs + ks + ks <= |tensor| && g * qs + qs <= |q| && g * ks + ks <= |k| && g * ks + ks <= |v|
    && q[g * qs..g * qs + qs] == tensor[b..b + qs]
    && k[g * ks..g * ks + ks] == tensor[b + qs..b + qs + ks]
    && v[g * ks..g * ks + ks] == tensor[b + qs + ks..b + qs + ks + ks]
  }

  lemma {:induction false} PartsOfBlock<T>(tensor: seq<T>, lo: nat, b: seq<T>, qs: nat, ks: nat)
    requires lo + qs + ks + ks <= |tensor| && b == tensor[lo..lo + qs + ks + ks]
    ensures b[..qs] == tensor[lo..lo + qs] && b[qs..qs + ks] == tensor[lo + qs..lo + qs + ks]
    ensures b[qs + ks..] == tensor[lo + qs + ks..lo + qs + ks + ks]
  {
    SliceOfSlice(tensor, lo, b, 0, qs);
    SliceOfSlice(tensor, lo, b, qs, qs + ks);
    SliceOfSlice(tensor, lo, b, qs + ks, |b|);
  }

  lemma {:induction false} SliceOfSlice<T>(s: seq<T>, lo: nat, b: seq<T>, from: nat, to: nat)
    requires lo + |b| <= |s| && b == s[lo..lo + |b|] && from <= to <= |b|
    ensures b[from..to] == s[lo + from..lo + to]
  {
    forall i | 0 <= i < to - from
      ensures b[from..to][i] == s[lo + from..lo + to][i]
    {}
  }

  lemma {:induction false} PlacedByBlock<T>(tensor: seq<T>, count: nat, qs: nat, ks: nat, g: nat)
    requires |tensor| == count * (qs + ks + ks) && g < count
    ensures var blocks := Blocks(tensor, count, qs + ks + ks);
            GroupPlaced(tensor, (Queries(blocks, qs), Keys(blocks, qs, ks), Values(blocks, qs, ks)), qs, ks, g)
  {
    hide Queries, Keys, Values;
    var size := qs + ks + ks;
    var blocks := Blocks(tensor, count, size);
    BlocksSized(tensor, count, size);
    BlockBounds(g, count, size);
    KindSlices(blocks, qs, ks, g);
    assert blocks[g] == BlockAt(tensor, count, size, g);
    hide Blocks, Sized;
    PartsOfBlock(tensor, g * size, blocks[g], qs, ks);
  }

  /** Every row of the tensor goes to one known row of one of the three kinds. */
  lemma {:induction false} SplitPlaces<T>(tensor: seq<T>, heads: nat, kvHeads: nat, g: nat)
    requires Split(tensor, heads, kvHeads).Ok? && g < kvHeads
    ensures var ks := KeyRows(KvSize(|tensor|, PerKv(heads, kvHeads)), kvHeads);
            GroupPlaced(tensor, Split(tensor, heads, kvHeads).value, ks * PerKv(heads, kvHeads), ks, g)
    ensures var ks := KeyRows(KvSize(|tensor|, PerKv(heads, kvHeads)), kvHeads);
            |tensor| == kvHeads * (ks * PerKv(heads, kvHeads) + ks + ks)
  {
    hide Divides, PerKv, KvSize, KeyRows, GroupPlaced, Queries, Keys, Values;
    var perKv := PerKv(heads, kvHeads);
    var ks := KeyRows(KvSize(|tensor|, perKv), kvHeads);
    BlockCount(|tensor|, perKv, kvHeads);
    PlacedByBlock(tensor, kvHeads, ks * perKv, ks, g);
  }

  lemma {:induction false} FuseLength<T>(q: seq<T>, k: seq<T>, v: seq<T>, count: nat, qs: nat, ks: nat)
    requires |q| == count * qs && |k| == |v| == count * ks
    ensures |Fuse(q, k, v, count, qs, ks)| == count * (qs + ks + ks)
  {
    if count > 0 {
      var m := count - 1;
      MulOne(m, qs);
      MulOne(m, ks);
      MulOne(m, qs + ks + ks);
      FuseLength(q[..m * qs], k[..m * ks], v[..m * ks], m, qs, ks);
    }
  }

  /** The blocks of a fused tensor are those of the first groups and the last group's own. */
  lemma {:induction false} BlocksOfFused<T>(q: seq<T>, k: seq<T>, v: seq<T>, count: nat, qs: nat, ks: nat)
    requires count > 0 && |q| == count * qs && |k| == |v| == count * ks
    ensures var (m, size) := (count - 1, qs + ks + ks);
            && m * qs <= |q| && |q[m * qs..]| == qs && m * ks <= |k| && |k[m * ks..]| == |v[m * ks..]| == ks
            && |q[..m * qs]| == m * qs && |k[..m * ks]| == |v[..m * ks]| == m * ks
    ensures |Fuse(q, k, v, count, qs, ks)| == count * (qs + ks + ks)
    ensures var (m, size) := (count - 1, qs + ks + ks);
            var init := Fuse(q[..m * qs], k[..m * ks], v[..m * ks], m, qs, ks);
            |init| == m * size &&
            Blocks(Fuse(q, k, v, count, qs, ks), count, size)
            == Blocks(init, m, size) + [q[m * qs..] + k[m * ks..] + v[m * ks..]]
  {
    var m, size := count - 1, qs + ks + ks;
    MulOne(m, qs);
    MulOne(m, ks);
    MulOne(m, size);
    FuseLength(q, k, v, count, qs, ks);
    FuseLength(q[..m * qs], k[..m * ks], v[..m * ks], m, qs, ks);
    var all := Fuse(q, k, v, count, qs, ks);
    var init := Fuse(q[..m * qs], k[..m * ks], v[..m * ks], m, qs, ks);
    assert all[..m * size] == init && all[m * size..] == q[m * qs..] + k[m * ks..] + v[m * ks..];
    BlocksInit(all, count, size);
  }

  lemma {:induction false} KindsOfFused<T>(q: seq<T>, k: seq<T>, v: seq<T>, count: nat, qs: nat, ks: nat)
    requires |q| == count * qs && |k| == |v| == count * ks
    ensures |Fuse(q, k, v, count, qs, ks)| == count * (qs + ks + ks)
    ensures var blocks := Blocks(Fuse(q, k, v, count, qs, ks), count, qs + ks + ks);
            Queries(blocks, qs) == q && Keys(blocks, qs, ks) == k && Values(blocks, qs, ks) == v
  {
    FuseLength(q, k, v, count, qs, ks);
    if count > 0 {
      var m := count - 1;
      BlocksOfFused(q, k, v, count, qs, ks);
      KindsOfFused(q[..m * qs], k[..m * ks], v[..m * ks], m, qs, ks);
      var init := Blocks(Fuse(q[..m * qs], k[..m * ks], v[..m * ks], m, qs, ks), m, qs + ks + ks);
      LastGroup(init, q, k, v, m * qs, m * ks, qs, ks);
      hide Fuse, Blocks, Queries, Keys, Values;
    }
  }

  lemma {:induction false} LastGroup<T>(init: seq<seq<T>>, q: seq<T>, k: seq<T>, v: seq<T>, qn: nat, kn: nat, qs: nat, ks: nat)
    requires |q| == qn + qs && |k| == |v| == kn + ks
    requires Queries(init, qs) == q[..qn] && Keys(init, qs, ks) == k[..kn] && Values(init, qs, ks) == v[..kn]
    ensures var blocks := init + [q[qn..] + k[kn..] + v[kn..]];
            Queries(blocks, qs) == q && Keys(blocks, qs, ks) == k && Values(blocks, qs, ks) == v
  {
    var b := q[qn..] + k[kn..] + v[kn..];
    KindsSnoc(init, b, qs, ks);
    hide Queries, Keys, Values;
    assert b[..qs] == q[qn..] && b[qs..qs + ks] == k[kn..] && b[qs + ks..] == v[kn..];
    assert q[..qn] + q[qn..] == q && k[..kn] + k[kn..] == k && v[..kn] + v[kn..] == v;
  }

  /** The sizes the split works out from a fused tensor are those it was fused with. */
  lemma {:induction false} FusedSizes(n: nat, kvHeads: nat, perKv: nat, ks: nat)
    requires kvHeads > 0 && n == kvHeads * (ks * perKv + ks + ks)
    ensures Divides(kvHeads, kvHeads * perKv) && PerKv(kvHeads * perKv, kvHeads) == perKv
    ensures Divides(perKv + 2, n) && Divides(kvHeads, KvSize(n, perKv)) && KeyRows(KvSize(n, perKv), kvHeads) == ks
  {
    DivUnique(kvHeads * perKv, perKv, 0, kvHeads);
    Regroup(ks, kvHeads, perKv);
    DivUnique(n, ks * kvHeads, 0, perKv + 2);
    DivUnique(ks * kvHeads, ks, 0, kvHeads);
  }

  /** Splitting what was fused gives back the three kinds, for every head count and size per group. */
  lemma {:induction false} SplitAfterFuse<T>(q: seq<T>, k: seq<T>, v: seq<T>, kvHeads: nat, perKv: nat, ks: nat)
    requires kvHeads > 0 && |q| == kvHeads * (ks * perKv) && |k| == |v| == kvHeads * ks
    ensures Split(Fuse(q, k, v, kvHeads, ks * perKv, ks), kvHeads * perKv, kvHeads) == Ok((q, k, v))
  {
    hide Fuse, Blocks, Queries, Keys, Values, Divides, PerKv, KvSize, KeyRows;
    KindsOfFused(q, k, v, kvHeads, ks * perKv, ks);
    FusedSizes(|Fuse(q, k, v, kvHeads, ks * perKv, ks)|, kvHeads, perKv, ks);
  }

  /** Four rows for four heads and two key-value heads pass both assertions, and still cannot be split. */
  lemma {:induction false} FourRowsFail<T>(tensor: seq<T>)
    requires |tensor| == 4
    ensures Split(tensor, 4, 2) == Err(ChunkMismatch)
    ensures Divides(2, 4) && Divides(PerKv(4, 2) + 2, |tensor|)
  {
    assert PerKv(4, 2) == 2 && KvSize(4, 2) == 1;
  }
}
