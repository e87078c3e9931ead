/** Padding a batch to a multiple of the worker count, chunking it, and putting the results together again
    (verl/protocol.py:73-105, 875-922, 944-1022). */
module Dispatch {
  import opened Wrappers
  import opened Arith
  import opened RowTable
  import opened ConcatColumns
  import opened ConcatBatches

  // ---------- concat as the loops of the code ----------

  /** The reference for filling: the first batch that has the key. */
  method FindTensor(data: seq<DataProto>, k: string) returns (col: TensorCol)
    requires k in TensorKeys(data)
    ensures Has(TensorParts(data, k)) && col == First(TensorParts(data, k))
  {
    KeysAreHas(data, k);
    ghost var parts := TensorParts(data, k);
    assert parts[..|parts|] == parts;
    var i := 0;
    while k !in data[i].batch
      invariant i < |data| && !Has(parts[..i])
      decreases |data| - i
    {
      assert parts[..i + 1][..i] == parts[..i];
      i := i + 1;
    }
    assert parts[..i + 1][..i] == parts[..i];
    FirstStays(parts, i + 1);
    return data[i].batch[k];
  }

  lemma {:induction false} FirstStays<C>(parts: seq<Part<C>>, i: nat)
    requires i <= |parts| && Has(parts[..i])
    ensures Has(parts) && First(parts) == First(parts[..i])
    decreases |parts|
  {
    if i < |parts| {
      assert parts[..|parts| - 1][..i] == parts[..i];
      FirstStays(parts[..|parts| - 1], i);
    } else {
      assert parts[..i] == parts;
    }
  }

  method ConcatTensorColumn(data: seq<DataProto>, k: string) returns (col: Column)
    requires k in TensorKeys(data)
    ensures col == TensorColumn(data, k)
  {
    var ref := FindTensor(data, k);
    var rows: seq<seq<int>> := [];
    ghost var parts := TensorParts(data, k);
    assert parts[..|parts|] == parts;
    for i := 0 to |data|
      invariant OneWidth(parts[..i], ref.width)
      invariant rows == AllRows(parts[..i], ref.width)
    {
      assert parts[..i + 1][..i] == parts[..i];
      OneWidthSnoc(parts[..i + 1], ref.width);
      if k in data[i].batch {
        if data[i].batch[k].width != ref.width {
          assert parts[i].col.Some?;
          return Mismatch;
        }
        rows := rows + data[i].batch[k].rows;
      } else {
        rows := rows + Copies(Copies(0, ref.width), data[i].size);
      }
    }
    return Column(TensorCol(ref.width, rows));
  }

  method FindArray(data: seq<DataProto>, k: string) returns (col: ArrayCol)
    requires k in ArrayKeys(data)
    ensures Has(ArrayParts(data, k)) && col == First(ArrayParts(data, k))
  {
    KeysAreHas(data, k);
    ghost var parts := ArrayParts(data, k);
    assert parts[..|parts|] == parts;
    var i := 0;
    while k !in data[i].nonTensor
      invariant i < |data| && !Has(parts[..i])
      decreases |data| - i
    {
      assert parts[..i + 1][..i] == parts[..i];
      i := i + 1;
    }
    assert parts[..i + 1][..i] == parts[..i];
    FirstStays(parts, i + 1);
    return data[i].nonTensor[k];
  }

  method ConcatArrayColumn(data: seq<DataProto>, k: string) returns (col: ArrayCol)
    requires k in ArrayKeys(data)
    ensures col == ArrayColumn(data, k)
  {
    var ref := FindArray(data, k);
    var kind, cells: seq<Cell> := Floating, [];
    ghost var parts := ArrayParts(data, k);
    assert parts[..|parts|] == parts;
    for i := 0 to |data|
      invariant kind == ResultKind(parts[..i])
      invariant cells == AllCells(parts[..i], Filler(ref.kind))
    {
      assert parts[..i + 1][..i] == parts[..i];
      if k in data[i].nonTensor {
        cells := cells + data[i].nonTensor[k].cells;
        if data[i].nonTensor[k].kind.Object? {
          kind := Object;
        }
      } else {
        cells := cells + Copies(Filler(ref.kind), data[i].size);
      }
    }
    return ArrayCol(kind, cells);
  }

  /** `DataProto.concat`, key by key. */
  method Concat(data: seq<DataProto>) returns (r: Result<DataProto, ConcatError>)
    ensures r == ConcatAll(data)
  {
    if data == [] {
      return Err(EmptyList);
    }
    var tensorKeys, arrayKeys, size := {}, {}, 0;
    for i := 0 to |data|
      invariant tensorKeys == TensorKeys(data[..i]) && arrayKeys == ArrayKeys(data[..i]) && size == TotalSize(data[..i])
    {
      assert data[..i + 1][..i] == data[..i];
      tensorKeys, arrayKeys := tensorKeys + data[i].batch.Keys, arrayKeys + data[i].nonTensor.Keys;
      size := size + data[i].size;
    }
    assert data[..|data|] == data;
    var batch := ConcatTensors(data, tensorKeys);
    if batch.None? {
      return Err(ShapeMismatch);
    }
    var nonTensor := ConcatArrays(data, arrayKeys);
    r := Ok(DataProto(size, batch.value, nonTensor));
    assert batch.value == ConcatAll(data).value.batch && nonTensor == ConcatAll(data).value.nonTensor;
  }

  method ConcatTensors(data: seq<DataProto>, keys: set<string>) returns (r: Option<map<string, TensorCol>>)
    requires keys == TensorKeys(data)
    ensures r.Some? <==> ShapesAgree(data)
    ensures r.Some? ==> r.value.Keys == keys && forall k :: k in keys ==> TensorColumn(data, k) == Column(r.value[k])
  {
    hide ConcatTensor, TensorKeys;
    var batch: map<string, TensorCol> := map[];
    var todo := keys;
    while todo != {}
      invariant todo <= keys && batch.Keys == keys - todo
      invariant forall k :: k in batch ==> TensorColumn(data, k) == Column(batch[k])
      decreases |todo|
    {
      var k :| k in todo;
      todo := todo - {k};
      var col := ConcatTensorColumn(data, k);
      if !col.Column? {
        ColumnPresent(data, k);
        return None;
      }
      batch := batch[k := col.col];
    }
    return Some(batch);
  }

  method ConcatArrays(data: seq<DataProto>, keys: set<string>) returns (nonTensor: map<string, ArrayCol>)
    requires keys == ArrayKeys(data)
    ensures nonTensor.Keys == keys && forall k :: k in keys ==> nonTensor[k] == ArrayColumn(data, k)
  {
    hide ConcatCol, ArrayKeys;
    nonTensor := map[];
    var todo := keys;
    while todo != {}
      invariant todo <= keys && nonTensor.Keys == keys - todo
      invariant forall k :: k in nonTensor ==> nonTensor[k] == ArrayColumn(data, k)
      decreases |todo|
    {
      var k :| k in todo;
      todo := todo - {k};
      var col := ConcatArrayColumn(data, k);
      nonTensor := nonTensor[k := col];
    }
  }

  lemma {:induction false} ColumnPresent(data: seq<DataProto>, k: string)
    requires k in TensorKeys(data) && !TensorColumn(data, k).Column?
    ensures !ShapesAgree(data)
  {}

  // ---------- padding ----------

  /** Indices 0, 1, ..., size - 1, 0, 1, ... up to a given length. */
  function Wrapped(size: nat, length: nat): (r: seq<nat>)
    requires size > 0
    ensures |r| == length && forall i :: 0 <= i < length ==> r[i] == i % size && r[i] < size
  {
    seq(length, i requires 0 <= i => i % size)
  }

  function PadSize(size: nat, divisor: nat): (pad: nat)
    requires divisor > 0
    ensures pad < divisor
  {
    if size % divisor == 0 then 0 else divisor - size % divisor
  }

  lemma {:induction false} PadDivides(size: nat, divisor: nat)
    requires divisor > 0
    ensures (size + PadSize(size, divisor)) % divisor == 0
  {
    var q, r := size / divisor, size % divisor;
    assert size == q * divisor + r;
    if r != 0 {
      MulOne(q, divisor);
      DivUnique(size + PadSize(size, divisor), q + 1, 0, divisor);
    }
  }

  /** Another copy of the first rows continues the wrapping. */
  lemma {:induction false} WrapMore(size: nat, length: nat, take: nat)
    requires size > 0 && length % size == 0 && take <= size
    ensures Wrapped(size, length) + Range(0, take) == Wrapped(size, length + take)
    ensures take == size ==> (length + take) % size == 0
  {
    var q := length / size;
    assert length == q * size;
    forall i | length <= i < length + take
      ensures i % size == i - length
    {
      if i - length < size {
        DivUnique(i, q, i - length, size);
      }
    }
    if take == size {
      MulOne(q, size);
      DivUnique(length + take, q + 1, 0, size);
    }
  }

  /** `pad_dataproto_to_divisor`: row i of the padded batch is row i mod len of the batch; the pad is
      smaller than the divisor and makes the length divisible. */
  method PadToDivisor(d: DataProto, divisor: nat) returns (padded: DataProto, pad: nat)
    requires Valid(d) && divisor > 0
    ensures pad == PadSize(d.size, divisor) < divisor && (d.size + pad) % divisor == 0
    ensures d.size > 0 ==> padded == Select(d, Wrapped(d.size, d.size + pad))
    ensures d.size == 0 ==> padded == d
  {
    hide Select, Join, ConcatAll;
    PadDivides(d.size, divisor);
    if d.size % divisor == 0 {
      pad, padded := 0, d;
      if d.size > 0 {
        WrapNothing(d);
      }
      return;
    }
    pad := divisor - d.size % divisor;
    var parts := PaddingParts(d, pad);
    var r := Concat(parts);
    padded := r.value;
  }

  /** The batch followed by as many copies of its first rows as the pad needs. */
  method PaddingParts(d: DataProto, pad: nat) returns (parts: seq<DataProto>)
    requires Valid(d) && d.size > 0
    ensures ConcatAll(parts) == Ok(Select(d, Wrapped(d.size, d.size + pad)))
  {
    hide Select, Join, Slice, ConcatAll;
    StartWrap(d);
    parts := [d];
    ghost var idxs := [Range(0, d.size)];
    var remaining := pad;
    while remaining > 0
      invariant 0 <= remaining <= pad && |idxs| > 0 && AllBelow(idxs, d.size)
      invariant parts == Selections(d, idxs)
      invariant Join(idxs) == Wrapped(d.size, d.size + (pad - remaining))
      invariant remaining > 0 ==> (d.size + (pad - remaining)) % d.size == 0
    {
      var take := if remaining <= d.size then remaining else d.size;
      WrapMore(d.size, d.size + (pad - remaining), take);
      AddSelection(d, idxs, take);
      parts := parts + [Take(d, take)];
      idxs := idxs + [Range(0, take)];
      remaining := remaining - take;
    }
    ConcatSelections(d, idxs);
  }

  lemma {:induction false} WrapNothing(d: DataProto)
    requires Valid(d) && d.size > 0
    ensures d == Select(d, Wrapped(d.size, d.size))
  {
    assert Wrapped(d.size, d.size) == Range(0, d.size) by {
      forall i | 0 <= i < d.size
        ensures i % d.size == i
      {
        DivUnique(i, 0, i, d.size);
      }
    }
    SelectAll(d);
  }

  lemma {:induction false} StartWrap(d: DataProto)
    requires Valid(d) && d.size > 0
    ensures [d] == Selections(d, [Range(0, d.size)])
    ensures Join([Range(0, d.size)]) == Wrapped(d.size, d.size)
    ensures d.size % d.size == 0
  {
    SelectAll(d);
    assert [Range(0, d.size)][..0] == [];
    assert Join([Range(0, d.size)]) == [] + Range(0, d.size);
    forall i | 0 <= i < d.size
      ensures i % d.size == i
    {
      DivUnique(i, 0, i, d.size);
    }
    DivUnique(d.size, 1, 0, d.size);
  }

  lemma {:induction false} AddSelection(d: DataProto, idxs: seq<seq<nat>>, take: nat)
    requires Valid(d) && AllBelow(idxs, d.size) && take <= d.size
    ensures AllBelow(idxs + [Range(0, take)], d.size)
    ensures Selections(d, idxs) + [Take(d, take)] == Selections(d, idxs + [Range(0, take)])
    ensures Join(idxs + [Range(0, take)]) == Join(idxs) + Range(0, take)
  {
    SliceIsSelect(d, 0, take);
    assert (idxs + [Range(0, take)])[..|idxs|] == idxs;
  }

  // ---------- chunking ----------

  datatype ChunkError = UnequalChunks

  /** Block i of a batch of the given number of rows per chunk. */
  function BlockOf(d: DataProto, rows: nat, i: nat): DataProto
    requires Valid(d) && (i + 1) * rows <= d.size
  {
    MulOne(i, rows);
    Slice(d, i * rows, (i + 1) * rows)
  }

  lemma {:induction false} BlocksFit(size: nat, chunks: nat, i: nat)
    requires chunks > 0 && size % chunks == 0 && i < chunks
    ensures (i + 1) * (size / chunks) <= size
  {
    MulMono(i + 1, chunks, size / chunks);
    assert chunks * (size / chunks) == size;
  }

  /** `chunk` without auto padding, on a non-empty batch: equal consecutive blocks, or an error. */
  method Chunk(d: DataProto, chunks: nat) returns (r: Result<seq<DataProto>, ChunkError>)
    requires Valid(d) && d.size > 0 && chunks > 0
    ensures r.Ok? <==> d.size % chunks == 0
    ensures r.Ok? ==> r.value == Blocks(d, chunks)
  {
    if d.size % chunks != 0 {
      return Err(UnequalChunks);
    }
    var rows := d.size / chunks;
    var out: seq<DataProto> := [];
    for i := 0 to chunks
      invariant |out| == i && forall j :: 0 <= j < i ==> out[j] == Blocks(d, chunks)[j]
    {
      BlocksFit(d.size, chunks, i);
      MulOne(i, rows);
      out := out + [Slice(d, i * rows, (i + 1) * rows)];
    }
    return Ok(out);
  }

  function Blocks(d: DataProto, chunks: nat): (r: seq<DataProto>)
    requires Valid(d) && chunks > 0 && d.size % chunks == 0
    ensures |r| == chunks
  {
    seq(chunks, i requires 0 <= i < chunks => BlocksFit(d.size, chunks, i); BlockOf(d, d.size / chunks, i))
  }

  // ---------- the round trip ----------

  /** A worker that treats every row by itself: it keeps the number of rows, and selecting rows before or
      after it makes no difference. */
  ghost predicate RowWise(f: DataProto -> DataProto) {
    forall d, idxs: seq<nat> :: Valid(d) && Below(idxs, d.size) ==>
      Valid(f(d)) && f(d).size == d.size && f(Select(d, idxs)) == Select(f(d), idxs)
  }

  function MapAll(f: DataProto -> DataProto, data: seq<DataProto>): (r: seq<DataProto>)
    ensures |r| == |data| && forall i :: 0 <= i < |r| ==> r[i] == f(data[i])
  {
    seq(|data|, i requires 0 <= i < |data| => f(data[i]))
  }

  /** The indices of block i into the original batch. */
  function BlockIndices(size: nat, rows: nat, i: nat): (r: seq<nat>)
    requires size > 0
    ensures Below(r, size)
  {
    seq(rows, j requires 0 <= j => (i * rows + j) % size)
  }

  function BlockLists(size: nat, rows: nat, chunks: nat): (r: seq<seq<nat>>)
    requires size > 0
    ensures |r| == chunks && forall i :: 0 <= i < chunks ==> r[i] == BlockIndices(size, rows, i)
  {
    seq(chunks, i requires 0 <= i => BlockIndices(size, rows, i))
  }

  lemma {:induction false} JoinBlocks(size: nat, rows: nat, chunks: nat)
    requires size > 0
    ensures Join(BlockLists(size, rows, chunks)) == Wrapped(size, chunks * rows)
  {
    if chunks > 0 {
      JoinBlocks(size, rows, chunks - 1);
      MulOne(chunks - 1, rows);
      assert BlockLists(size, rows, chunks)[..chunks - 1] == BlockLists(size, rows, chunks - 1);
      assert Wrapped(size, chunks * rows)
          == Wrapped(size, (chunks - 1) * rows) + BlockIndices(size, rows, chunks - 1);
    }
  }

  lemma {:induction false} BlockIsSelection(d: DataProto, length: nat, chunks: nat, i: nat)
    requires Valid(d) && d.size > 0 && chunks > 0 && length % chunks == 0 && i < chunks
    ensures Valid(Select(d, Wrapped(d.size, length)))
    ensures Blocks(Select(d, Wrapped(d.size, length)), chunks)[i]
         == Select(d, BlockIndices(d.size, length / chunks, i))
  {
    hide Select;
    var w, rows := Wrapped(d.size, length), length / chunks;
    SelectValid(d, w);
    SelectSize(d, w);
    var padded := Select(d, w);
    BlocksFit(length, chunks, i);
    MulOne(i, rows);
    SliceIsSelect(padded, i * rows, (i + 1) * rows);
    SelectSelect(d, w, Range(i * rows, (i + 1) * rows));
    assert Pick(w, Range(i * rows, (i + 1) * rows)) == BlockIndices(d.size, rows, i);
  }

  lemma {:induction false} SelectSize(d: DataProto, idxs: seq<nat>)
    requires Valid(d) && Below(idxs, d.size)
    ensures Select(d, idxs).size == |idxs|
  {}

  function Padded(d: DataProto, chunks: nat): (r: DataProto)
    requires Valid(d) && d.size > 0 && chunks > 0
    ensures Valid(r) && r.size % chunks == 0
  {
    PadDivides(d.size, chunks);
    SelectValid(d, Wrapped(d.size, d.size + PadSize(d.size, chunks)));
    Select(d, Wrapped(d.size, d.size + PadSize(d.size, chunks)))
  }

  /** Pad, chunk, let the worker treat every chunk, concatenate. */
  function Gathered(d: DataProto, chunks: nat, f: DataProto -> DataProto): Result<DataProto, ConcatError>
    requires Valid(d) && d.size > 0 && chunks > 0
  {
    ConcatAll(MapAll(f, Blocks(Padded(d, chunks), chunks)))
  }

  /** Padding, chunking, treating every chunk by a row-wise worker, concatenating and unpadding is the same
      as treating the batch itself. */
  lemma {:induction false} DispatchRoundTrip(d: DataProto, chunks: nat, f: DataProto -> DataProto)
    requires Valid(d) && d.size > 0 && chunks > 0 && RowWise(f)
    ensures Gathered(d, chunks, f).Ok? && Valid(Gathered(d, chunks, f).value)
    ensures Unpad(Gathered(d, chunks, f).value, PadSize(d.size, chunks)) == f(d)
  {
    hide Select, Join, ConcatAll, Slice, RowWise, Valid, Blocks;
    var pad := PadSize(d.size, chunks);
    PadDivides(d.size, chunks);
    ChunkResults(d, d.size + pad, chunks, f);
    UnpadWrapped(f(d), pad);
  }

  lemma {:induction false} RowWiseAt(f: DataProto -> DataProto, d: DataProto, idxs: seq<nat>)
    requires RowWise(f) && Valid(d) && Below(idxs, d.size)
    ensures Valid(f(d)) && f(d).size == d.size && f(Select(d, idxs)) == Select(f(d), idxs)
  {}

  /** The chunk results, concatenated, are the padded result. */
  lemma {:induction false} ChunkResults(d: DataProto, length: nat, chunks: nat, f: DataProto -> DataProto)
    requires Valid(d) && d.size > 0 && chunks > 0 && length % chunks == 0 && RowWise(f)
    ensures Valid(f(d)) && f(d).size == d.size
    ensures Valid(Select(d, Wrapped(d.size, length))) && Select(d, Wrapped(d.size, length)).size == length
    ensures ConcatAll(MapAll(f, Blocks(Select(d, Wrapped(d.size, length)), chunks))) == Ok(Select(f(d), Wrapped(d.size, length)))
  {
    hide Select, Join, ConcatAll, Slice, RowWise, Valid, Blocks;
    var rows := length / chunks;
    var w := Wrapped(d.size, length);
    SelectValid(d, w);
    SelectSize(d, w);
    RowWiseAt(f, d, w);
    var padded := Select(d, w);
    var idxs := BlockLists(d.size, rows, chunks);
    forall i | 0 <= i < chunks
      ensures f(Blocks(padded, chunks)[i]) == Select(f(d), idxs[i])
    {
      BlockIsSelection(d, length, chunks, i);
      RowWiseAt(f, d, idxs[i]);
    }
    assert MapAll(f, Blocks(padded, chunks)) == Selections(f(d), idxs);
    ConcatSelections(f(d), idxs);
    JoinBlocks(d.size, rows, chunks);
    assert chunks * rows == length;
  }

  lemma {:induction false} UnpadWrapped(d: DataProto, pad: nat)
    requires Valid(d) && d.size > 0
    ensures Valid(Select(d, Wrapped(d.size, d.size + pad)))
    ensures Unpad(Select(d, Wrapped(d.size, d.size + pad)), pad) == d
  {
    hide Select, Slice;
    var w := Wrapped(d.size, d.size + pad);
    SelectValid(d, w);
    SelectSize(d, w);
    if pad == 0 {
      WrapNothing(d);
    } else {
      SliceIsSelect(Select(d, w), 0, d.size);
      SelectSelect(d, w, Range(0, d.size));
      assert Pick(w, Range(0, d.size)) == Wrapped(d.size, d.size);
      WrapNothing(d);
    }
  }
}
