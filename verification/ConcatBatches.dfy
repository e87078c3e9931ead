/** `DataProto.concat` (verl/protocol.py:944-1022) on whole batches, flat and folded pairwise. */
module ConcatBatches {
  import opened Wrappers
  import opened RowTable
  import opened ConcatColumns

  datatype ConcatError = EmptyList | ShapeMismatch

  function TensorPart(d: DataProto, k: string): Part<TensorCol> {
    Part(d.size, if k in d.batch then Some(d.batch[k]) else None)
  }

  function ArrayPart(d: DataProto, k: string): Part<ArrayCol> {
    Part(d.size, if k in d.nonTensor then Some(d.nonTensor[k]) else None)
  }

  function TensorParts(data: seq<DataProto>, k: string): (r: seq<Part<TensorCol>>)
    ensures |r| == |data| && forall i :: 0 <= i < |r| ==> r[i] == TensorPart(data[i], k)
  {
    seq(|data|, i requires 0 <= i < |data| => TensorPart(data[i], k))
  }

  function ArrayParts(data: seq<DataProto>, k: string): (r: seq<Part<ArrayCol>>)
    ensures |r| == |data| && forall i :: 0 <= i < |r| ==> r[i] == ArrayPart(data[i], k)
  {
    seq(|data|, i requires 0 <= i < |data| => ArrayPart(data[i], k))
  }

  function TensorKeys(data: seq<DataProto>): set<string> {
    if data == [] then {} else TensorKeys(data[..|data| - 1]) + data[|data| - 1].batch.Keys
  }

  function ArrayKeys(data: seq<DataProto>): set<string> {
    if data == [] then {} else ArrayKeys(data[..|data| - 1]) + data[|data| - 1].nonTensor.Keys
  }

  function TotalSize(data: seq<DataProto>): nat {
    if data == [] then 0 else TotalSize(data[..|data| - 1]) + data[|data| - 1].size
  }

  lemma {:induction false} PartsSnoc(data: seq<DataProto>, k: string)
    requires data != []
    ensures var n := |data| - 1;
            && TensorParts(data, k)[..n] == TensorParts(data[..n], k) && TensorParts(data, k)[n] == TensorPart(data[n], k)
            && ArrayParts(data, k)[..n] == ArrayParts(data[..n], k) && ArrayParts(data, k)[n] == ArrayPart(data[n], k)
  {}

  /** A key is in the union exactly when some part has the column. */
  lemma {:induction false} KeysAreHas(data: seq<DataProto>, k: string)
    ensures k in TensorKeys(data) <==> Has(TensorParts(data, k))
    ensures k in ArrayKeys(data) <==> Has(ArrayParts(data, k))
    ensures Total(TensorParts(data, k)) == Total(ArrayParts(data, k)) == TotalSize(data)
  {
    if data != [] {
      KeysAreHas(data[..|data| - 1], k);
      PartsSnoc(data, k);
    }
  }

  function TensorColumn(data: seq<DataProto>, k: string): Column {
    ConcatTensor(TensorParts(data, k))
  }

  predicate ShapesAgree(data: seq<DataProto>) {
    forall k :: k in TensorKeys(data) ==> TensorColumn(data, k).Column?
  }

  function ArrayColumn(data: seq<DataProto>, k: string): ArrayCol
    requires k in ArrayKeys(data)
  {
    KeysAreHas(data, k);
    ConcatCol(ArrayParts(data, k)).value
  }

  /** The flat concatenation of a list of batches. */
  function ConcatAll(data: seq<DataProto>): Result<DataProto, ConcatError> {
    if data == [] then Err(EmptyList)
    else if !ShapesAgree(data) then Err(ShapeMismatch)
    else Ok(DataProto(TotalSize(data),
                      map k | k in TensorKeys(data) :: TensorColumn(data, k).col,
                      map k | k in ArrayKeys(data) :: ArrayColumn(data, k)))
  }

  /** `batch = concat([batch, new_batch])` again and again. */
  function FoldConcat(data: seq<DataProto>): Result<DataProto, ConcatError>
    requires data != []
  {
    if |data| == 1 then Ok(data[0])
    else
      var acc := FoldConcat(data[..|data| - 1]);
      if acc.Err? then acc else ConcatAll([acc.value, data[|data| - 1]])
  }

  // ---------- the fold, column by column ----------

  ghost predicate IsFold(acc: DataProto, data: seq<DataProto>)
    requires data != []
  {
    && acc.size == TotalSize(data)
    && acc.batch.Keys == TensorKeys(data)
    && acc.nonTensor.Keys == ArrayKeys(data)
    && (forall k :: k in acc.batch ==> FoldTensor(TensorParts(data, k)) == Column(acc.batch[k]))
    && (forall k :: k in acc.nonTensor ==> FoldCol(ArrayParts(data, k)) == Part(acc.size, Some(acc.nonTensor[k])))
  }

  lemma {:induction false} TwoKeys(a: DataProto, b: DataProto)
    ensures TensorKeys([a, b]) == a.batch.Keys + b.batch.Keys
    ensures ArrayKeys([a, b]) == a.nonTensor.Keys + b.nonTensor.Keys
    ensures TotalSize([a, b]) == a.size + b.size
  {
    assert [a, b][..1] == [a] && [a][..0] == [];
    assert TensorKeys([a]) == TensorKeys([a][..0]) + a.batch.Keys;
    assert ArrayKeys([a]) == ArrayKeys([a][..0]) + a.nonTensor.Keys;
    assert TotalSize([a]) == TotalSize([a][..0]) + a.size;
  }

  lemma {:induction false} OneBatch(d: DataProto)
    ensures IsFold(d, [d])
  {
    assert [d][..0] == [];
    assert TensorKeys([d]) == TensorKeys([d][..0]) + d.batch.Keys;
    assert ArrayKeys([d]) == ArrayKeys([d][..0]) + d.nonTensor.Keys;
    assert TotalSize([d]) == TotalSize([d][..0]) + d.size;
  }

  /** The column of a pairwise concatenation is one more step of the column's fold. */
  lemma {:induction false} FoldTensorStep(acc: DataProto, data: seq<DataProto>, k: string)
    requires |data| > 1 && IsFold(acc, data[..|data| - 1])
    ensures k in TensorKeys([acc, data[|data| - 1]]) <==> k in TensorKeys(data)
    ensures FoldTensor(TensorParts(data, k)) == TensorColumn([acc, data[|data| - 1]], k)
  {
    hide IsFold;
    var init, last := data[..|data| - 1], data[|data| - 1];
    FoldParts(acc, init, k);
    PartsSnoc(data, k);
    TwoKeys(acc, last);
    KeysAreHas(init, k);
    assert TensorParts([acc, last], k) == [TensorPart(acc, k), TensorPart(last, k)];
    assert FoldTensor(TensorParts(data, k))
        == AddTensor(Total(TensorParts(init, k)), FoldTensor(TensorParts(init, k)), TensorPart(last, k));
  }

  /** What IsFold says about one key, present or absent. */
  lemma {:induction false} FoldParts(acc: DataProto, data: seq<DataProto>, k: string)
    requires data != [] && IsFold(acc, data)
    ensures acc.size == TotalSize(data) && acc.batch.Keys == TensorKeys(data) && acc.nonTensor.Keys == ArrayKeys(data)
    ensures FoldTensor(TensorParts(data, k)) == if k in acc.batch then Column(acc.batch[k]) else Absent
    ensures FoldCol(ArrayParts(data, k)) == ArrayPart(acc, k)
  {
    KeysAreHas(data, k);
    FoldTensorIsFlat(TensorParts(data, k));
    FoldColExplicit(ArrayParts(data, k));
  }

  lemma {:induction false} FoldArrayStep(acc: DataProto, data: seq<DataProto>, k: string)
    requires |data| > 1 && IsFold(acc, data[..|data| - 1])
    ensures k in ArrayKeys([acc, data[|data| - 1]]) <==> k in ArrayKeys(data)
    ensures FoldCol(ArrayParts(data, k)) == Part(TotalSize(data), ConcatCol(ArrayParts([acc, data[|data| - 1]], k)))
  {
    hide IsFold;
    var init, last := data[..|data| - 1], data[|data| - 1];
    FoldParts(acc, init, k);
    PartsSnoc(data, k);
    TwoKeys(acc, last);
    assert ArrayParts([acc, last], k) == [ArrayPart(acc, k), ArrayPart(last, k)];
  }

  /** Folding fails exactly when some column's shapes disagree, and otherwise folds every column. */
  lemma {:induction false} FoldIsFold(data: seq<DataProto>)
    requires data != []
    ensures FoldConcat(data).Ok? <==> ShapesAgree(data)
    ensures FoldConcat(data).Err? ==> FoldConcat(data).error == ShapeMismatch
    ensures FoldConcat(data).Ok? ==> IsFold(FoldConcat(data).value, data)
    decreases |data|
  {
    hide FoldTensor, ConcatTensor, FoldCol, ConcatCol, IsFold;
    if |data| == 1 {
      OneBatch(data[0]);
      assert data == [data[0]];
      SingleAgrees(data);
    } else {
      var init, last := data[..|data| - 1], data[|data| - 1];
      FoldIsFold(init);
      if FoldConcat(init).Ok? {
        FoldOnce(FoldConcat(init).value, data);
      } else {
        MismatchStays(data);
      }
    }
  }

  lemma {:induction false} SingleAgrees(data: seq<DataProto>)
    requires |data| == 1 && IsFold(data[0], data)
    ensures ShapesAgree(data)
  {
    forall k | k in TensorKeys(data)
      ensures TensorColumn(data, k).Column?
    {
      FoldTensorIsFlat(TensorParts(data, k));
      FoldParts(data[0], data, k);
    }
  }

  lemma {:induction false} MismatchStays(data: seq<DataProto>)
    requires |data| > 1 && !ShapesAgree(data[..|data| - 1])
    ensures !ShapesAgree(data)
  {
    var init := data[..|data| - 1];
    var k :| k in TensorKeys(init) && !TensorColumn(init, k).Column?;
    KeysAreHas(init, k);
    KeysAreHas(data, k);
    PartsSnoc(data, k);
    FoldTensorIsFlat(TensorParts(init, k));
    FoldTensorIsFlat(TensorParts(data, k));
    assert FoldTensor(TensorParts(data, k)) == Mismatch;
    assert k in TensorKeys(data) && !TensorColumn(data, k).Column?;
  }

  lemma {:induction false} FoldOnce(acc: DataProto, data: seq<DataProto>)
    requires |data| > 1 && IsFold(acc, data[..|data| - 1])
    ensures var r := ConcatAll([acc, data[|data| - 1]]);
            && (r.Ok? <==> ShapesAgree(data)) && (r.Ok? ==> IsFold(r.value, data))
            && (r.Err? ==> r.error == ShapeMismatch)
  {
    hide FoldTensor, ConcatTensor, FoldCol, ConcatCol;
    var init, last := data[..|data| - 1], data[|data| - 1];
    var two := [acc, last];
    forall k
      ensures k in TensorKeys(two) <==> k in TensorKeys(data)
      ensures TensorColumn(data, k) == TensorColumn(two, k) == FoldTensor(TensorParts(data, k))
    {
      FoldTensorStep(acc, data, k);
      FoldTensorIsFlat(TensorParts(data, k));
    }
    forall k
      ensures k in ArrayKeys(two) <==> k in ArrayKeys(data)
      ensures FoldCol(ArrayParts(data, k)) == Part(TotalSize(data), ConcatCol(ArrayParts(two, k)))
      ensures k in ArrayKeys(two) <==> ConcatCol(ArrayParts(two, k)).Some?
    {
      FoldArrayStep(acc, data, k);
      KeysAreHas(two, k);
      ConcatColPresent(ArrayParts(two, k));
    }
    TwoKeys(acc, last);
    assert TotalSize(two) == TotalSize(data);
  }

  lemma {:induction false} ConcatColPresent(parts: seq<Part<ArrayCol>>)
    ensures ConcatCol(parts).Some? <==> Has(parts)
  {}

  ghost predicate AllValid(data: seq<DataProto>) {
    forall i :: 0 <= i < |data| ==> Valid(data[i])
  }

  lemma {:induction false} PartsOk(data: seq<DataProto>, k: string)
    requires AllValid(data)
    ensures Aligned(ArrayParts(data, k)) && RowsOk(TensorParts(data, k))
  {}

  /** Folding pairwise from the left, as the sampling loop does, gives the flat concatenation - result or
      error - if and only if the shapes disagree anyway or no numpy column is misfilled. */
  lemma {:induction false} FoldIsFlat(data: seq<DataProto>)
    requires data != [] && AllValid(data)
    ensures FoldConcat(data) == ConcatAll(data)
       <==> (ShapesAgree(data) ==> forall k :: k in ArrayKeys(data) ==> !Misfilled(ArrayParts(data, k)))
  {
    hide FoldTensor, ConcatTensor, FoldCol, ConcatCol, Misfilled;
    FoldIsFold(data);
    if ShapesAgree(data) {
      var a, b := FoldConcat(data).value, ConcatAll(data).value;
      forall k | k in TensorKeys(data)
        ensures a.batch[k] == b.batch[k]
      {
        FoldTensorIsFlat(TensorParts(data, k));
      }
      assert a.batch == b.batch;
      forall k | k in ArrayKeys(data)
        ensures a.nonTensor[k] == b.nonTensor[k] <==> !Misfilled(ArrayParts(data, k))
      {
        ArrayColumnFold(a, data, k);
      }
      if forall k :: k in ArrayKeys(data) ==> !Misfilled(ArrayParts(data, k)) {
        assert a.nonTensor == b.nonTensor;
      } else {
        var k :| k in ArrayKeys(data) && Misfilled(ArrayParts(data, k));
        assert a.nonTensor[k] != b.nonTensor[k];
      }
    }
  }

  lemma {:induction false} ArrayColumnFold(acc: DataProto, data: seq<DataProto>, k: string)
    requires data != [] && AllValid(data) && IsFold(acc, data) && k in ArrayKeys(data)
    ensures acc.nonTensor[k] == ArrayColumn(data, k) <==> !Misfilled(ArrayParts(data, k))
  {
    hide FoldCol, ConcatCol, Misfilled;
    PartsOk(data, k);
    KeysAreHas(data, k);
    ConcatColPresent(ArrayParts(data, k));
    FoldColIsFlat(ArrayParts(data, k));
  }

  /** All batches that have a column agree on its dtype. */
  predicate KindsAgree(data: seq<DataProto>) {
    forall i, j, k :: 0 <= i < |data| && 0 <= j < |data| && k in data[i].nonTensor && k in data[j].nonTensor ==>
      data[i].nonTensor[k].kind == data[j].nonTensor[k].kind
  }

  /** With one dtype per key the two ways of concatenating always agree. */
  lemma {:induction false} OneDtypeFoldIsFlat(data: seq<DataProto>)
    requires data != [] && AllValid(data) && KindsAgree(data)
    ensures FoldConcat(data) == ConcatAll(data)
  {
    forall k | k in ArrayKeys(data)
      ensures !Misfilled(ArrayParts(data, k))
    {
      KeysAreHas(data, k);
      var i := PresentFirst(ArrayParts(data, k));
      OneKindNotMisfilled(ArrayParts(data, k), data[i].nonTensor[k].kind);
    }
    FoldIsFlat(data);
  }

  /** Two dtypes for one key break it: the row that lacks the key is NaN in one, None in the other. */
  lemma {:induction false} MixedDtypesDiffer()
    ensures var f := ArrayCol(Floating, [Num(1.0)]);
            var o := ArrayCol(Object, [Id(7)]);
            var data := [DataProto(1, map[], map["score" := f]), DataProto(1, map[], map["score" := o]), DataProto(1, map[], map[])];
            FoldConcat(data) != ConcatAll(data)
  {
    var f := ArrayCol(Floating, [Num(1.0)]);
    var o := ArrayCol(Object, [Id(7)]);
    var data := [DataProto(1, map[], map["score" := f]), DataProto(1, map[], map["score" := o]), DataProto(1, map[], map[])];
    var parts := ArrayParts(data, "score");
    assert parts == [Part(1, Some(f)), Part(1, Some(o)), Part(1, None)];
    assert parts[..2] == [Part(1, Some(f)), Part(1, Some(o))];
    Pair(Part(1, Some(f)), Part(1, Some(o)));
    assert Misfilled(parts);
    KeysAreHas(data, "score");
    assert TensorKeys(data) == {} by {
      assert data[..2][..1][..0] == [];
      assert TensorKeys(data[..2][..1]) == TensorKeys(data[..2][..1][..0]) + {};
      assert TensorKeys(data[..2]) == TensorKeys(data[..2][..1]) + {};
    }
    FoldIsFlat(data);
  }

  // ---------- where the rows end up ----------

  lemma {:induction false} TotalTake(data: seq<DataProto>, k: string, i: nat)
    requires i <= |data|
    ensures Total(TensorParts(data, k)[..i]) == Total(ArrayParts(data, k)[..i]) == TotalSize(data[..i])
  {
    assert TensorParts(data, k)[..i] == TensorParts(data[..i], k);
    assert ArrayParts(data, k)[..i] == ArrayParts(data[..i], k);
    KeysAreHas(data[..i], k);
  }

  /** The result is aligned, has the union of the keys and the summed length. */
  lemma {:induction false} ConcatAligned(data: seq<DataProto>)
    requires AllValid(data) && ConcatAll(data).Ok?
    ensures var r := ConcatAll(data).value;
            Valid(r) && r.size == TotalSize(data) && r.batch.Keys == TensorKeys(data) && r.nonTensor.Keys == ArrayKeys(data)
  {
    hide AllRows, AllCells;
    var r := ConcatAll(data).value;
    forall k | k in r.batch
      ensures TensorOk(r.batch[k], r.size)
    {
      PartsOk(data, k);
      KeysAreHas(data, k);
      AllRowsWide(TensorParts(data, k), First(TensorParts(data, k)).width);
    }
    forall k | k in r.nonTensor
      ensures |r.nonTensor[k].cells| == r.size
    {
      PartsOk(data, k);
      KeysAreHas(data, k);
      AllCellsLength(ArrayParts(data, k), Filler(First(ArrayParts(data, k)).kind));
    }
  }

  /** The tensor rows of part i are in the segment behind the earlier parts, unchanged; where the part
      lacks the key the segment is zero. */
  lemma {:induction false} TensorProvenance(data: seq<DataProto>, i: nat, k: string)
    requires AllValid(data) && ConcatAll(data).Ok? && i < |data| && k in TensorKeys(data)
    ensures var c, lo := ConcatAll(data).value.batch[k], TotalSize(data[..i]);
            && lo + data[i].size <= |c.rows|
            && (k in data[i].batch ==> c.width == data[i].batch[k].width)
            && c.rows[lo..lo + data[i].size]
               == if k in data[i].batch then data[i].batch[k].rows else Copies(Copies(0, c.width), data[i].size)
  {
    hide AllRows;
    PartsOk(data, k);
    KeysAreHas(data, k);
    TotalTake(data, k, i);
    RowSegment(TensorParts(data, k), First(TensorParts(data, k)).width, i);
  }

  /** The batch that decides how numpy gaps are filled: the first one that has the key. */
  ghost predicate FirstWith(data: seq<DataProto>, k: string, i: nat) {
    i < |data| && k in data[i].nonTensor && forall j :: 0 <= j < i ==> k !in data[j].nonTensor
  }

  lemma {:induction false} FirstWithIsFirst(data: seq<DataProto>, k: string, i: nat)
    requires FirstWith(data, k, i)
    ensures Has(ArrayParts(data, k)) && First(ArrayParts(data, k)) == data[i].nonTensor[k]
  {
    FirstIs(ArrayParts(data, k), i);
  }

  /** The same for numpy columns, where a gap is NaN if the first batch that has the key has floats, and None
      otherwise. The column holds floats only if no batch has objects. */
  lemma {:induction false} ArrayProvenance(data: seq<DataProto>, i: nat, k: string, first: nat)
    requires AllValid(data) && ConcatAll(data).Ok? && i < |data| && FirstWith(data, k, first)
    ensures k in ConcatAll(data).value.nonTensor
    ensures var c, lo := ConcatAll(data).value.nonTensor[k], TotalSize(data[..i]);
            var gap := if data[first].nonTensor[k].kind.Floating? then NaN else Nothing;
            && lo + data[i].size <= |c.cells|
            && c.cells[lo..lo + data[i].size]
               == (if k in data[i].nonTensor then data[i].nonTensor[k].cells else Copies(gap, data[i].size))
            && (c.kind.Floating? <==>
                  forall j :: 0 <= j < |data| && k in data[j].nonTensor ==> data[j].nonTensor[k].kind.Floating?)
  {
    FirstWithIsFirst(data, k, first);
    KeysAreHas(data, k);
    ColumnOf(data, k);
    ColumnKind(data, k);
    hide ConcatAll, ArrayColumn;
    ColumnSegment(data, i, k, first);
  }

  lemma {:induction false} ColumnOf(data: seq<DataProto>, k: string)
    requires ConcatAll(data).Ok? && k in ArrayKeys(data)
    ensures Has(ArrayParts(data, k)) && k in ConcatAll(data).value.nonTensor
    ensures ConcatAll(data).value.nonTensor[k] == ArrayColumn(data, k)
  {
    KeysAreHas(data, k);
    hide ArrayColumn;
  }

  lemma {:induction false} ColumnKind(data: seq<DataProto>, k: string)
    requires k in ArrayKeys(data) && Has(ArrayParts(data, k))
    ensures ArrayColumn(data, k).kind.Floating? <==>
              forall j :: 0 <= j < |data| && k in data[j].nonTensor ==> data[j].nonTensor[k].kind.Floating?
  {
    hide AllCells, ResultKind;
    ResultKindIs(ArrayParts(data, k));
    FloatingParts(data, k);
  }

  lemma {:induction false} ColumnSegment(data: seq<DataProto>, i: nat, k: string, first: nat)
    requires AllValid(data) && i < |data| && FirstWith(data, k, first)
    requires k in ArrayKeys(data) && Has(ArrayParts(data, k))
    ensures var c, lo := ArrayColumn(data, k), TotalSize(data[..i]);
            var gap := if data[first].nonTensor[k].kind.Floating? then NaN else Nothing;
            && lo + data[i].size <= |c.cells|
            && c.cells[lo..lo + data[i].size]
               == if k in data[i].nonTensor then data[i].nonTensor[k].cells else Copies(gap, data[i].size)
  {
    hide AllCells, ResultKind;
    PartsOk(data, k);
    FirstWithIsFirst(data, k, first);
    TotalTake(data, k, i);
    CellSegment(ArrayParts(data, k), Filler(First(ArrayParts(data, k)).kind), i);
  }

  lemma {:induction false} FloatingParts(data: seq<DataProto>, k: string)
    ensures (forall j :: 0 <= j < |data| && k in data[j].nonTensor ==> data[j].nonTensor[k].kind.Floating?)
       <==> AllFloating(ArrayParts(data, k))
  {
    if AllFloating(ArrayParts(data, k)) {
      forall j | 0 <= j < |data| && k in data[j].nonTensor
        ensures data[j].nonTensor[k].kind.Floating?
      {
        assert ArrayParts(data, k)[j].col.Some?;
      }
    }
  }

  ghost predicate WidthsDiffer(data: seq<DataProto>, k: string, i: nat, j: nat) {
    && i < |data| && j < |data| && k in data[i].batch && k in data[j].batch
    && data[i].batch[k].width != data[j].batch[k].width
  }

  lemma {:induction false} MismatchFound(data: seq<DataProto>, k: string) returns (i: nat, j: nat)
    requires k in TensorKeys(data) && !TensorColumn(data, k).Column?
    ensures WidthsDiffer(data, k, i, j)
  {
    hide AllRows;
    KeysAreHas(data, k);
    i := PresentFirst(TensorParts(data, k));
    j :| 0 <= j < |data| && TensorParts(data, k)[j].col.Some?
         && TensorParts(data, k)[j].col.value.width != First(TensorParts(data, k)).width;
  }

  lemma {:induction false} MismatchFails(data: seq<DataProto>, k: string, i: nat, j: nat)
    requires WidthsDiffer(data, k, i, j)
    ensures k in TensorKeys(data) && !TensorColumn(data, k).Column?
  {
    hide AllRows;
    HasPart(TensorParts(data, k), i);
    KeysAreHas(data, k);
    assert TensorParts(data, k)[i].col.Some? && TensorParts(data, k)[j].col.Some?;
  }

  /** Concatenation fails exactly on an empty list and on tensors of one key with rows of different shapes. */
  lemma {:induction false} ConcatFails(data: seq<DataProto>)
    ensures ConcatAll(data) == Err(EmptyList) <==> data == []
    ensures ConcatAll(data) == Err(ShapeMismatch) <==> exists k, i, j :: WidthsDiffer(data, k, i, j)
  {
    hide ConcatAll, TensorColumn, TensorKeys, WidthsDiffer;
    ConcatErrors(data);
    if !ShapesAgree(data) {
      var k :| k in TensorKeys(data) && !TensorColumn(data, k).Column?;
      var i, j := MismatchFound(data, k);
    }
    if k, i, j :| WidthsDiffer(data, k, i, j) {
      MismatchFails(data, k, i, j);
    }
  }

  lemma {:induction false} ConcatErrors(data: seq<DataProto>)
    ensures ConcatAll(data) == Err(EmptyList) <==> data == []
    ensures ConcatAll(data) == Err(ShapeMismatch) <==> !ShapesAgree(data)
  {}

  // ---------- where the rows of a fold end up ----------

  lemma {:induction false} FoldValid(data: seq<DataProto>)
    requires data != [] && AllValid(data) && FoldConcat(data).Ok?
    ensures Valid(FoldConcat(data).value) && FoldConcat(data).value.size == TotalSize(data)
    decreases |data|
  {
    hide ConcatAll;
    FoldIsFold(data);
    if |data| > 1 {
      var init, last := data[..|data| - 1], data[|data| - 1];
      FoldValid(init);
      ConcatAligned([FoldConcat(init).value, last]);
    }
  }

  /** One more batch behind an accumulated one, one key at a time. */
  ghost predicate TensorJoined(acc: DataProto, last: DataProto, r: DataProto, k: string) {
    && (k in acc.batch ==>
          k in r.batch && r.batch[k].width == acc.batch[k].width && acc.batch[k].rows <= r.batch[k].rows)
    && (k in last.batch ==>
          && k in r.batch && r.batch[k].width == last.batch[k].width && acc.size + last.size <= |r.batch[k].rows|
          && r.batch[k].rows[acc.size..acc.size + last.size] == last.batch[k].rows)
  }

  ghost predicate ArrayJoined(acc: DataProto, last: DataProto, r: DataProto, k: string) {
    && (k in acc.nonTensor ==> k in r.nonTensor && acc.nonTensor[k].cells <= r.nonTensor[k].cells)
    && (k in last.nonTensor ==>
          && k in r.nonTensor && acc.size + last.size <= |r.nonTensor[k].cells|
          && r.nonTensor[k].cells[acc.size..acc.size + last.size] == last.nonTensor[k].cells)
  }

  lemma {:induction false} TensorSegments(acc: DataProto, last: DataProto, k: string)
    requires Valid(acc) && Valid(last) && ConcatAll([acc, last]).Ok?
    ensures TensorJoined(acc, last, ConcatAll([acc, last]).value, k)
  {
    hide ConcatAll, TensorKeys;
    var two := [acc, last];
    TwoKeys(acc, last);
    ConcatAligned(two);
    assert two[..0] == [] && two[..1] == [acc];
    OneBatchSize(acc);
    if k in acc.batch || k in last.batch {
      TensorProvenance(two, 0, k);
      TensorProvenance(two, 1, k);
    }
  }

  lemma {:induction false} ArraySegments(acc: DataProto, last: DataProto, k: string)
    requires Valid(acc) && Valid(last) && ConcatAll([acc, last]).Ok?
    ensures ArrayJoined(acc, last, ConcatAll([acc, last]).value, k)
  {
    hide ConcatAll, FirstWith;
    var two := [acc, last];
    assert two[..0] == [] && two[..1] == [acc];
    OneBatchSize(acc);
    if k in acc.nonTensor || k in last.nonTensor {
      FirstOfTwo(acc, last, k);
      var first := if k in acc.nonTensor then 0 else 1;
      ArrayProvenance(two, 0, k, first);
      ArrayProvenance(two, 1, k, first);
    }
  }

  lemma {:induction false} FirstOfTwo(a: DataProto, b: DataProto, k: string)
    requires k in a.nonTensor || k in b.nonTensor
    ensures FirstWith([a, b], k, if k in a.nonTensor then 0 else 1)
  {}

  lemma {:induction false} OneBatchSize(d: DataProto)
    ensures TotalSize([]) == 0 && TotalSize([d]) == d.size
  {
    assert [d][..0] == [];
    assert TotalSize([d]) == TotalSize([d][..0]) + d.size;
  }

  /** The columns of batch g sit unchanged in the fold, behind the rows of the earlier batches. */
  ghost predicate SitsAt(d: DataProto, all: DataProto, lo: nat) {
    && (forall k :: k in d.batch ==>
          && k in all.batch && all.batch[k].width == d.batch[k].width && lo + d.size <= |all.batch[k].rows|
          && all.batch[k].rows[lo..lo + d.size] == d.batch[k].rows)
    && (forall k :: k in d.nonTensor ==>
          && k in all.nonTensor && lo + d.size <= |all.nonTensor[k].cells|
          && all.nonTensor[k].cells[lo..lo + d.size] == d.nonTensor[k].cells)
  }

  lemma {:induction false} SitsStill(d: DataProto, acc: DataProto, last: DataProto, lo: nat)
    requires Valid(acc) && Valid(last) && ConcatAll([acc, last]).Ok? && SitsAt(d, acc, lo)
    ensures SitsAt(d, ConcatAll([acc, last]).value, lo)
  {
    hide ConcatAll;
    var r := ConcatAll([acc, last]).value;
    forall k | k in d.batch
      ensures k in r.batch && r.batch[k].width == d.batch[k].width && lo + d.size <= |r.batch[k].rows|
      ensures r.batch[k].rows[lo..lo + d.size] == d.batch[k].rows
    {
      TensorSegments(acc, last, k);
      assert r.batch[k].rows[lo..lo + d.size] == acc.batch[k].rows[lo..lo + d.size];
    }
    forall k | k in d.nonTensor
      ensures k in r.nonTensor && lo + d.size <= |r.nonTensor[k].cells|
      ensures r.nonTensor[k].cells[lo..lo + d.size] == d.nonTensor[k].cells
    {
      ArraySegments(acc, last, k);
      assert r.nonTensor[k].cells[lo..lo + d.size] == acc.nonTensor[k].cells[lo..lo + d.size];
    }
  }

  /** Folding pairwise leaves the columns of every batch where they are. */
  lemma {:induction false} FoldProvenance(data: seq<DataProto>, g: nat)
    requires data != [] && AllValid(data) && FoldConcat(data).Ok? && g < |data|
    ensures SitsAt(data[g], FoldConcat(data).value, TotalSize(data[..g]))
    decreases |data|
  {
    hide ConcatAll, SitsAt;
    if |data| == 1 {
      assert data[..0] == [];
      SitsAlone(data[0]);
    } else {
      var m := |data| - 1;
      var init := data[..m];
      FoldValid(init);
      if g < m {
        FoldProvenance(init, g);
        assert init[..g] == data[..g];
        SitsStill(data[g], FoldConcat(init).value, data[m], TotalSize(data[..g]));
      } else {
        SitsBehind(FoldConcat(init).value, data[m]);
      }
    }
  }

  lemma {:induction false} SitsAlone(d: DataProto)
    requires Valid(d)
    ensures SitsAt(d, d, 0)
  {}

  lemma {:induction false} SitsBehind(acc: DataProto, last: DataProto)
    requires Valid(acc) && Valid(last) && ConcatAll([acc, last]).Ok?
    ensures SitsAt(last, ConcatAll([acc, last]).value, acc.size)
  {
    hide ConcatAll;
    var r := ConcatAll([acc, last]).value;
    forall k | k in last.batch
      ensures TensorJoined(acc, last, r, k)
    {
      TensorSegments(acc, last, k);
    }
    forall k | k in last.nonTensor
      ensures ArrayJoined(acc, last, r, k)
    {
      ArraySegments(acc, last, k);
    }
  }

  // ---------- concatenating selections of one batch ----------

  ghost predicate AllBelow(idxs: seq<seq<nat>>, n: nat) {
    forall i :: 0 <= i < |idxs| ==> Below(idxs[i], n)
  }

  function Selections(d: DataProto, idxs: seq<seq<nat>>): (r: seq<DataProto>)
    requires Valid(d) && AllBelow(idxs, d.size)
    ensures |r| == |idxs| && forall i :: 0 <= i < |r| ==> r[i] == Select(d, idxs[i])
  {
    seq(|idxs|, i requires 0 <= i < |idxs| => Select(d, idxs[i]))
  }

  lemma {:induction false} JoinBelow(idxs: seq<seq<nat>>, n: nat)
    requires AllBelow(idxs, n)
    ensures Below(Join(idxs), n)
  {
    if idxs != [] {
      JoinBelow(idxs[..|idxs| - 1], n);
    }
  }

  lemma {:induction false} SelectionKeys(d: DataProto, idxs: seq<seq<nat>>)
    requires Valid(d) && AllBelow(idxs, d.size) && idxs != []
    ensures TensorKeys(Selections(d, idxs)) == d.batch.Keys && ArrayKeys(Selections(d, idxs)) == d.nonTensor.Keys
    ensures TotalSize(Selections(d, idxs)) == |Join(idxs)|
  {
    var n := |idxs| - 1;
    var r := Selections(d, idxs);
    assert r[..n] == Selections(d, idxs[..n]);
    if n > 0 {
      SelectionKeys(d, idxs[..n]);
    } else {
      assert r[..0] == [] && idxs[..0] == [];
    }
  }

  lemma {:induction false} SelectionTensor(d: DataProto, idxs: seq<seq<nat>>, k: string)
    requires Valid(d) && AllBelow(idxs, d.size) && idxs != [] && k in d.batch
    ensures Below(Join(idxs), d.size)
    ensures TensorColumn(Selections(d, idxs), k) == Column(TensorCol(d.batch[k].width, Pick(d.batch[k].rows, Join(idxs))))
  {
    hide AllRows, First, Join, TensorKeys;
    var r, w := Selections(d, idxs), d.batch[k].width;
    var parts := TensorParts(r, k);
    SelectionKeys(d, idxs);
    KeysAreHas(r, k);
    assert OneWidth(parts, w);
    OneWidthFirst(parts, w);
    PickedRows(parts, w, d.batch[k].rows, idxs);
  }

  lemma {:induction false} SelectionArray(d: DataProto, idxs: seq<seq<nat>>, k: string)
    requires Valid(d) && AllBelow(idxs, d.size) && idxs != [] && k in d.nonTensor
    ensures Below(Join(idxs), d.size)
    ensures ConcatCol(ArrayParts(Selections(d, idxs), k))
         == Some(ArrayCol(d.nonTensor[k].kind, Pick(d.nonTensor[k].cells, Join(idxs))))
  {
    hide AllCells, First, Join, ArrayKeys, ResultKind, Misfilled;
    var r, kind := Selections(d, idxs), d.nonTensor[k].kind;
    var parts := ArrayParts(r, k);
    SelectionKeys(d, idxs);
    KeysAreHas(r, k);
    OneKindNotMisfilled(parts, kind);
    PickedCells(parts, Filler(kind), d.nonTensor[k].cells, idxs);
  }

  /** Concatenating selections of one batch selects the joined indices. */
  lemma {:induction false} ConcatSelections(d: DataProto, idxs: seq<seq<nat>>)
    requires Valid(d) && AllBelow(idxs, d.size) && idxs != []
    ensures Below(Join(idxs), d.size)
    ensures ConcatAll(Selections(d, idxs)) == Ok(Select(d, Join(idxs)))
  {
    hide ConcatTensor, ConcatCol;
    var r := Selections(d, idxs);
    JoinBelow(idxs, d.size);
    SelectionKeys(d, idxs);
    forall k | k in d.batch
      ensures TensorColumn(r, k) == Column(Select(d, Join(idxs)).batch[k])
    {
      SelectionTensor(d, idxs, k);
    }
    forall k | k in d.nonTensor
      ensures ArrayColumn(r, k) == Select(d, Join(idxs)).nonTensor[k]
    {
      SelectionArray(d, idxs, k);
    }
    assert ConcatAll(r).value.batch == Select(d, Join(idxs)).batch;
    assert ConcatAll(r).value.nonTensor == Select(d, Join(idxs)).nonTensor;
  }
}
