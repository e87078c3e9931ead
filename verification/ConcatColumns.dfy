/** One column of `DataProto.concat` (verl/protocol.py:944-1022): parts that lack the column are filled,
    numpy columns with NaN or None, tensor columns with zero rows. */
module ConcatColumns {
  import opened Wrappers
  import opened RowTable

  /** What one batch of the list contributes to a column: its number of rows, and the column if present. */
  datatype Part<+C> = Part(size: nat, col: Option<C>)

  function Total<C>(parts: seq<Part<C>>): nat {
    if parts == [] then 0 else Total(parts[..|parts| - 1]) + parts[|parts| - 1].size
  }

  predicate Has<C>(parts: seq<Part<C>>) {
    parts != [] && (Has(parts[..|parts| - 1]) || parts[|parts| - 1].col.Some?)
  }

  function First<C>(parts: seq<Part<C>>): C
    requires Has(parts)
  {
    if Has(parts[..|parts| - 1]) then First(parts[..|parts| - 1]) else parts[|parts| - 1].col.value
  }

  // ---------- numpy columns ----------

  ghost predicate Aligned(parts: seq<Part<ArrayCol>>) {
    forall i :: 0 <= i < |parts| && parts[i].col.Some? ==> |parts[i].col.value.cells| == parts[i].size
  }

  /** Missing rows become NaN next to a floating reference, None otherwise. */
  function Filler(kind: Kind): Cell {
    if kind.Floating? then NaN else Nothing
  }

  /** Concatenating arrays of objects and floats gives an array of objects. */
  function ResultKind(parts: seq<Part<ArrayCol>>): Kind {
    if parts == [] then Floating
    else if parts[|parts| - 1].col.Some? && parts[|parts| - 1].col.value.kind.Object? then Object
    else ResultKind(parts[..|parts| - 1])
  }

  function CellsOf(p: Part<ArrayCol>, fill: Cell): seq<Cell> {
    if p.col.Some? then p.col.value.cells else Copies(fill, p.size)
  }

  function AllCells(parts: seq<Part<ArrayCol>>, fill: Cell): seq<Cell> {
    if parts == [] then [] else AllCells(parts[..|parts| - 1], fill) + CellsOf(parts[|parts| - 1], fill)
  }

  /** The column of the concatenation; the reference for filling is the first part that has the key. */
  function ConcatCol(parts: seq<Part<ArrayCol>>): Option<ArrayCol> {
    if !Has(parts) then None
    else Some(ArrayCol(ResultKind(parts), AllCells(parts, Filler(First(parts).kind))))
  }

  /** Concatenating pairwise from the left, as the sampling loop does. */
  function FoldCol(parts: seq<Part<ArrayCol>>): Part<ArrayCol>
    requires parts != []
  {
    if |parts| == 1 then parts[0]
    else
      var acc, last := FoldCol(parts[..|parts| - 1]), parts[|parts| - 1];
      Part(acc.size + last.size, ConcatCol([acc, last]))
  }

  /** A part with rows but without the key comes after both a floating first part and an object part. */
  predicate Misfilled(parts: seq<Part<ArrayCol>>) {
    parts != [] &&
    var init, last := parts[..|parts| - 1], parts[|parts| - 1];
    || Misfilled(init)
    || (last.col.None? && last.size > 0 && Has(init) && First(init).kind.Floating? && ResultKind(init).Object?)
  }

  lemma {:induction false} AllCellsLength(parts: seq<Part<ArrayCol>>, fill: Cell)
    requires Aligned(parts)
    ensures |AllCells(parts, fill)| == Total(parts)
  {
    if parts != [] {
      AllCellsLength(parts[..|parts| - 1], fill);
      CopiesAt(fill, parts[|parts| - 1].size);
    }
  }

  lemma {:induction false} CopiesAdd<T>(x: T, a: nat, b: nat)
    ensures Copies(x, a + b) == Copies(x, a) + Copies(x, b)
  {
    if a > 0 {
      CopiesAdd(x, a - 1, b);
    }
  }

  /** When no part has the key, its rows are all filler. */
  lemma {:induction false} AllFiller(parts: seq<Part<ArrayCol>>, fill: Cell)
    requires !Has(parts)
    ensures AllCells(parts, fill) == Copies(fill, Total(parts))
  {
    if parts != [] {
      AllFiller(parts[..|parts| - 1], fill);
      CopiesAdd(fill, Total(parts[..|parts| - 1]), parts[|parts| - 1].size);
    }
  }

  lemma {:induction false} Single<C>(a: Part<C>)
    ensures [a][..0] == [] && [a][..|[a]| - 1] == []
    ensures Has([a]) == a.col.Some? && Total([a]) == a.size
    ensures a.col.Some? ==> First([a]) == a.col.value
  {
    assert [a][..|[a]| - 1] == [];
  }

  lemma {:induction false} Pair<C>(a: Part<C>, b: Part<C>)
    ensures [a, b][..|[a, b]| - 1] == [a] && [a, b][|[a, b]| - 1] == b
    ensures Has([a, b]) == (a.col.Some? || b.col.Some?)
    ensures Has([a, b]) ==> First([a, b]) == if a.col.Some? then a.col.value else b.col.value
  {
    assert [a, b][..|[a, b]| - 1] == [a];
    Single(a);
  }

  /** The pairwise concatenation of two parts, spelled out. */
  lemma {:induction false} ConcatTwo(a: Part<ArrayCol>, b: Part<ArrayCol>)
    ensures a.col.None? && b.col.None? ==> ConcatCol([a, b]) == None
    ensures a.col.Some? || b.col.Some? ==>
              var ref := if a.col.Some? then a.col.value else b.col.value;
              var fill := Filler(ref.kind);
              ConcatCol([a, b]) ==
                Some(ArrayCol(if (a.col.Some? && a.col.value.kind.Object?) || (b.col.Some? && b.col.value.kind.Object?)
                              then Object else Floating,
                              CellsOf(a, fill) + CellsOf(b, fill)))
  {
    Single(a);
    Pair(a, b);
    if a.col.Some? || b.col.Some? {
      var fill := Filler((if a.col.Some? then a.col.value else b.col.value).kind);
      assert AllCells([a], fill) == [] + CellsOf(a, fill) == CellsOf(a, fill);
      assert AllCells([a, b], fill) == AllCells([a], fill) + CellsOf(b, fill);
      assert ResultKind([a]) == if a.col.Some? && a.col.value.kind.Object? then Object else Floating;
      assert ResultKind([a, b]) == if b.col.Some? && b.col.value.kind.Object? then Object else ResultKind([a]);
    }
  }

  /** The cells of a folded column: each gap is filled by what has been accumulated before it. */
  function FoldCells(parts: seq<Part<ArrayCol>>): seq<Cell> {
    if !Has(parts) then []
    else
      var init, last := parts[..|parts| - 1], parts[|parts| - 1];
      if Has(init) then FoldCells(init) + CellsOf(last, Filler(ResultKind(init)))
      else Copies(Filler(last.col.value.kind), Total(init)) + last.col.value.cells
  }

  lemma {:induction false} NoObject(parts: seq<Part<ArrayCol>>)
    requires !Has(parts)
    ensures ResultKind(parts) == Floating && !Misfilled(parts)
  {
    if parts != [] {
      NoObject(parts[..|parts| - 1]);
    }
  }

  lemma {:induction false} FoldColExplicit(parts: seq<Part<ArrayCol>>)
    requires parts != []
    ensures FoldCol(parts) == Part(Total(parts), if Has(parts) then Some(ArrayCol(ResultKind(parts), FoldCells(parts))) else None)
  {
    var init, last := parts[..|parts| - 1], parts[|parts| - 1];
    NoObjectIfAbsent(init);
    if init == [] {
      assert parts == [last];
      Single(last);
      if last.col.Some? {
        assert FoldCells(parts) == [] + last.col.value.cells == last.col.value.cells;
      }
    } else {
      FoldColExplicit(init);
      ConcatTwo(FoldCol(init), last);
    }
  }

  lemma {:induction false} NoObjectIfAbsent(parts: seq<Part<ArrayCol>>)
    ensures !Has(parts) ==> ResultKind(parts) == Floating
  {
    if !Has(parts) {
      NoObject(parts);
    }
  }

  lemma {:induction false} FoldCellsLength(parts: seq<Part<ArrayCol>>)
    requires Aligned(parts) && Has(parts)
    ensures |FoldCells(parts)| == Total(parts)
  {
    var init, last := parts[..|parts| - 1], parts[|parts| - 1];
    CopiesAt(Filler(ResultKind(init)), last.size);
    if Has(init) {
      FoldCellsLength(init);
    } else {
      CopiesAt(Filler(last.col.value.kind), Total(init));
    }
  }

  lemma {:induction false} SplitEqual<T>(a: seq<T>, b: seq<T>, c: seq<T>, d: seq<T>)
    requires |a| == |c| && a + b == c + d
    ensures a == c && b == d
  {
    assert (a + b)[..|a|] == a && (c + d)[..|c|] == c;
    assert (a + b)[|a|..] == b && (c + d)[|c|..] == d;
  }

  /** The folded cells are the flat cells if and only if no part is misfilled. */
  lemma {:induction false} FoldCellsAreFlat(parts: seq<Part<ArrayCol>>)
    requires Aligned(parts) && Has(parts)
    ensures FoldCells(parts) == AllCells(parts, Filler(First(parts).kind)) <==> !Misfilled(parts)
  {
    var init, last := parts[..|parts| - 1], parts[|parts| - 1];
    if Has(init) {
      FoldCellsAreFlat(init);
      if First(init).kind.Object? {
        FirstObject(init);
      }
      FoldCellsLength(init);
      var flat := Filler(First(init).kind);
      AllCellsLength(init, flat);
      CopiesAt(flat, last.size);
      CopiesAt(Filler(ResultKind(init)), last.size);
      var mine, theirs := CellsOf(last, Filler(ResultKind(init))), CellsOf(last, flat);
      if last.col.None? && last.size > 0 {
        assert mine[0] == Filler(ResultKind(init)) && theirs[0] == flat;
      }
      assert mine == theirs <==> !(last.col.None? && last.size > 0 && First(init).kind.Floating? && ResultKind(init).Object?);
      assert FoldCells(parts) == FoldCells(init) + mine && AllCells(parts, flat) == AllCells(init, flat) + theirs;
      if FoldCells(parts) == AllCells(parts, flat) {
        SplitEqual(FoldCells(init), mine, AllCells(init, flat), theirs);
      }
    } else {
      NoObject(init);
      AllFiller(init, Filler(last.col.value.kind));
    }
  }

  /** An object reference makes the whole column an object column. */
  lemma {:induction false} FirstObject(parts: seq<Part<ArrayCol>>)
    requires Has(parts) && First(parts).kind.Object?
    ensures ResultKind(parts) == Object
  {
    if Has(parts[..|parts| - 1]) {
      FirstObject(parts[..|parts| - 1]);
    }
  }

  /** Folding pairwise gives the flat column if and only if no part is misfilled; in particular whenever
      all parts that have the column agree on its dtype. */
  lemma {:induction false} FoldColIsFlat(parts: seq<Part<ArrayCol>>)
    requires parts != [] && Aligned(parts)
    ensures FoldCol(parts) == Part(Total(parts), ConcatCol(parts)) <==> !Misfilled(parts)
  {
    hide FoldCol;
    FoldColExplicit(parts);
    if Has(parts) {
      FoldCellsAreFlat(parts);
    } else {
      NoObject(parts);
    }
  }

  predicate OneKind(parts: seq<Part<ArrayCol>>, kind: Kind) {
    forall i :: 0 <= i < |parts| && parts[i].col.Some? ==> parts[i].col.value.kind == kind
  }

  lemma {:induction false} OneKindNotMisfilled(parts: seq<Part<ArrayCol>>, kind: Kind)
    requires OneKind(parts, kind)
    ensures !Misfilled(parts)
    ensures Has(parts) ==> First(parts).kind == ResultKind(parts) == kind
  {
    if parts != [] {
      OneKindNotMisfilled(parts[..|parts| - 1], kind);
      NoObjectIfAbsent(parts[..|parts| - 1]);
    }
  }

  lemma {:induction false} CellsPrefix(parts: seq<Part<ArrayCol>>, fill: Cell, i: nat)
    requires i <= |parts|
    ensures AllCells(parts[..i], fill) <= AllCells(parts, fill)
    decreases |parts|
  {
    if i < |parts| {
      CellsPrefix(parts[..|parts| - 1], fill, i);
      assert parts[..|parts| - 1][..i] == parts[..i];
    } else {
      assert parts[..i] == parts;
    }
  }

  lemma {:induction false} SegmentOf<T>(a: seq<T>, b: seq<T>, all: seq<T>)
    requires a + b <= all
    ensures |a| + |b| <= |all| && all[|a|..|a| + |b|] == b
  {
    assert all[..|a + b|] == a + b;
    assert all[|a|..|a| + |b|] == all[..|a + b|][|a|..];
  }

  /** The rows of part i sit unchanged in their own segment, behind those of the earlier parts. */
  lemma {:induction false} CellSegment(parts: seq<Part<ArrayCol>>, fill: Cell, i: nat)
    requires Aligned(parts) && i < |parts|
    ensures |CellsOf(parts[i], fill)| == parts[i].size
    ensures Total(parts[..i]) + parts[i].size <= |AllCells(parts, fill)|
    ensures AllCells(parts, fill)[Total(parts[..i])..Total(parts[..i]) + parts[i].size] == CellsOf(parts[i], fill)
  {
    CopiesAt(fill, parts[i].size);
    AllCellsLength(parts[..i], fill);
    CellsPrefix(parts, fill, i + 1);
    assert parts[..i + 1][..i] == parts[..i];
    SegmentOf(AllCells(parts[..i], fill), CellsOf(parts[i], fill), AllCells(parts, fill));
  }

  ghost predicate AllFloating(parts: seq<Part<ArrayCol>>) {
    forall i :: 0 <= i < |parts| && parts[i].col.Some? ==> parts[i].col.value.kind.Floating?
  }

  /** One array of objects makes the column an array of objects. */
  lemma {:induction false} ResultKindIs(parts: seq<Part<ArrayCol>>)
    ensures ResultKind(parts) == Floating <==> AllFloating(parts)
  {
    if parts != [] {
      var m := |parts| - 1;
      ResultKindIs(parts[..m]);
      assert forall i :: 0 <= i < m ==> parts[i] == parts[..m][i];
    }
  }

  lemma {:induction false} HasPart<C>(parts: seq<Part<C>>, i: nat)
    requires i < |parts| && parts[i].col.Some?
    ensures Has(parts)
  {
    if i < |parts| - 1 {
      HasPart(parts[..|parts| - 1], i);
    }
  }

  /** The reference is the column of the first part that has one. */
  lemma {:induction false} FirstIs<C>(parts: seq<Part<C>>, i: nat)
    requires i < |parts| && parts[i].col.Some? && forall j :: 0 <= j < i ==> parts[j].col.None?
    ensures Has(parts) && First(parts) == parts[i].col.value
  {
    var m := |parts| - 1;
    if i < m {
      FirstIs(parts[..m], i);
    } else {
      NoneHas(parts[..m]);
    }
  }

  lemma {:induction false} NoneHas<C>(parts: seq<Part<C>>)
    requires forall j :: 0 <= j < |parts| ==> parts[j].col.None?
    ensures !Has(parts)
  {
    if parts != [] {
      NoneHas(parts[..|parts| - 1]);
    }
  }

  lemma {:induction false} PresentFirst<C>(parts: seq<Part<C>>) returns (i: nat)
    requires Has(parts)
    ensures i < |parts| && parts[i].col.Some? && parts[i].col.value == First(parts)
  {
    var m := |parts| - 1;
    if Has(parts[..m]) {
      i := PresentFirst(parts[..m]);
    } else {
      i := m;
    }
  }

  /** Parts that were picked from one column join to one pick. */
  lemma {:induction false} PickedCells(parts: seq<Part<ArrayCol>>, fill: Cell, cells: seq<Cell>, idxs: seq<seq<nat>>)
    requires |parts| == |idxs| && forall i :: 0 <= i < |idxs| ==> Below(idxs[i], |cells|)
    requires forall i :: 0 <= i < |parts| ==> CellsOf(parts[i], fill) == Pick(cells, idxs[i])
    ensures Below(Join(idxs), |cells|) && AllCells(parts, fill) == Pick(cells, Join(idxs))
  {
    if parts != [] {
      var n := |parts| - 1;
      PickedCells(parts[..n], fill, cells, idxs[..n]);
      PickAdd(cells, Join(idxs[..n]), idxs[n]);
    }
  }

  function Join(idxs: seq<seq<nat>>): seq<nat> {
    if idxs == [] then [] else Join(idxs[..|idxs| - 1]) + idxs[|idxs| - 1]
  }

  lemma {:induction false} PickAdd<T>(s: seq<T>, a: seq<nat>, b: seq<nat>)
    requires Below(a, |s|) && Below(b, |s|)
    ensures Below(a + b, |s|) && Pick(s, a + b) == Pick(s, a) + Pick(s, b)
  {}

  // ---------- tensor columns ----------

  ghost predicate RowsOk(parts: seq<Part<TensorCol>>) {
    forall i :: 0 <= i < |parts| && parts[i].col.Some? ==> TensorOk(parts[i].col.value, parts[i].size)
  }

  /** `torch.cat` needs rows of one shape. */
  predicate OneWidth(parts: seq<Part<TensorCol>>, width: nat) {
    forall i :: 0 <= i < |parts| && parts[i].col.Some? ==> parts[i].col.value.width == width
  }

  function RowsOf(p: Part<TensorCol>, width: nat): seq<seq<int>> {
    if p.col.Some? then p.col.value.rows else Copies(Copies(0, width), p.size)
  }

  function AllRows(parts: seq<Part<TensorCol>>, width: nat): seq<seq<int>> {
    if parts == [] then [] else AllRows(parts[..|parts| - 1], width) + RowsOf(parts[|parts| - 1], width)
  }

  datatype Column = Absent | Mismatch | Column(col: TensorCol)

  /** The tensor column of the concatenation; absent keys become zero rows shaped like the first part
      that has the key. */
  function ConcatTensor(parts: seq<Part<TensorCol>>): Column {
    if !Has(parts) then Absent
    else if OneWidth(parts, First(parts).width)
    then Column(TensorCol(First(parts).width, AllRows(parts, First(parts).width)))
    else Mismatch
  }

  /** One more batch on the right of an accumulated column. */
  function AddTensor(size: nat, acc: Column, last: Part<TensorCol>): Column {
    match acc
    case Mismatch => Mismatch
    case Absent => ConcatTensor([Part(size, None), last])
    case Column(col) => ConcatTensor([Part(size, Some(col)), last])
  }

  function FoldTensor(parts: seq<Part<TensorCol>>): Column
    requires parts != []
  {
    if |parts| == 1 then (if parts[0].col.Some? then Column(parts[0].col.value) else Absent)
    else AddTensor(Total(parts[..|parts| - 1]), FoldTensor(parts[..|parts| - 1]), parts[|parts| - 1])
  }

  lemma {:induction false} ZeroRows(parts: seq<Part<TensorCol>>, width: nat)
    requires !Has(parts)
    ensures AllRows(parts, width) == Copies(Copies(0, width), Total(parts))
    ensures OneWidth(parts, width)
  {
    if parts != [] {
      ZeroRows(parts[..|parts| - 1], width);
      CopiesAdd(Copies(0, width), Total(parts[..|parts| - 1]), parts[|parts| - 1].size);
      assert forall i :: 0 <= i < |parts| - 1 ==> parts[i] == parts[..|parts| - 1][i];
    }
  }

  lemma {:induction false} TensorTwo(a: Part<TensorCol>, b: Part<TensorCol>)
    ensures a.col.None? && b.col.None? ==> ConcatTensor([a, b]) == Absent
    ensures a.col.Some? || b.col.Some? ==>
              var w := if a.col.Some? then a.col.value.width else b.col.value.width;
              ConcatTensor([a, b]) ==
                (if b.col.Some? && b.col.value.width != w then Mismatch
                 else Column(TensorCol(w, RowsOf(a, w) + RowsOf(b, w))))
  {
    Single(a);
    Pair(a, b);
    if a.col.Some? || b.col.Some? {
      var w := if a.col.Some? then a.col.value.width else b.col.value.width;
      assert AllRows([a], w) == AllRows([a][..0], w) + RowsOf(a, w);
      assert AllRows([a, b], w) == AllRows([a], w) + RowsOf(b, w);
      assert [a, b][0] == a && [a, b][1] == b;
    }
  }

  lemma {:induction false} OneWidthSnoc(parts: seq<Part<TensorCol>>, width: nat)
    requires parts != []
    ensures var last := parts[|parts| - 1];
            OneWidth(parts, width) <==> OneWidth(parts[..|parts| - 1], width) && (last.col.Some? ==> last.col.value.width == width)
  {
    assert forall i :: 0 <= i < |parts| - 1 ==> parts[i] == parts[..|parts| - 1][i];
  }

  /** Tensor columns fold to the flat column in every case, errors included. */
  lemma {:induction false} FoldTensorIsFlat(parts: seq<Part<TensorCol>>)
    requires parts != []
    ensures FoldTensor(parts) == ConcatTensor(parts)
  {
    var init, last := parts[..|parts| - 1], parts[|parts| - 1];
    if |parts| == 1 {
      assert parts == [last];
      Single(last);
      if last.col.Some? {
        assert AllRows(parts[..0], last.col.value.width) == [];
      }
    } else {
      FoldTensorIsFlat(init);
      var before := FoldTensor(init);
      TensorTwo(Part(Total(init), if before.Column? then Some(before.col) else None), last);
      if Has(init) {
        OneWidthSnoc(parts, First(init).width);
      } else if last.col.Some? {
        OneWidthSnoc(parts, last.col.value.width);
        ZeroRows(init, last.col.value.width);
      }
    }
  }

  lemma {:induction false} AllRowsLength(parts: seq<Part<TensorCol>>, width: nat)
    requires RowsOk(parts)
    ensures |AllRows(parts, width)| == Total(parts)
  {
    if parts != [] {
      AllRowsLength(parts[..|parts| - 1], width);
      CopiesAt(Copies(0, width), parts[|parts| - 1].size);
    }
  }

  lemma {:induction false} RowsPrefix(parts: seq<Part<TensorCol>>, width: nat, i: nat)
    requires i <= |parts|
    ensures AllRows(parts[..i], width) <= AllRows(parts, width)
    decreases |parts|
  {
    if i < |parts| {
      RowsPrefix(parts[..|parts| - 1], width, i);
      assert parts[..|parts| - 1][..i] == parts[..i];
    } else {
      assert parts[..i] == parts;
    }
  }

  lemma {:induction false} RowSegment(parts: seq<Part<TensorCol>>, width: nat, i: nat)
    requires RowsOk(parts) && i < |parts|
    ensures |RowsOf(parts[i], width)| == parts[i].size
    ensures Total(parts[..i]) + parts[i].size <= |AllRows(parts, width)|
    ensures AllRows(parts, width)[Total(parts[..i])..Total(parts[..i]) + parts[i].size] == RowsOf(parts[i], width)
  {
    CopiesAt(Copies(0, width), parts[i].size);
    AllRowsLength(parts[..i], width);
    RowsPrefix(parts, width, i + 1);
    assert parts[..i + 1][..i] == parts[..i];
    SegmentOf(AllRows(parts[..i], width), RowsOf(parts[i], width), AllRows(parts, width));
  }

  lemma {:induction false} PickedRows(parts: seq<Part<TensorCol>>, width: nat, rows: seq<seq<int>>, idxs: seq<seq<nat>>)
    requires |parts| == |idxs| && forall i :: 0 <= i < |idxs| ==> Below(idxs[i], |rows|)
    requires forall i :: 0 <= i < |parts| ==> RowsOf(parts[i], width) == Pick(rows, idxs[i])
    ensures Below(Join(idxs), |rows|) && AllRows(parts, width) == Pick(rows, Join(idxs))
  {
    if parts != [] {
      var n := |parts| - 1;
      PickedRows(parts[..n], width, rows, idxs[..n]);
      PickAdd(rows, Join(idxs[..n]), idxs[n]);
    }
  }

  /** Present columns of one width have that width as reference. */
  lemma {:induction false} OneWidthFirst(parts: seq<Part<TensorCol>>, width: nat)
    requires OneWidth(parts, width) && Has(parts)
    ensures First(parts).width == width
  {
    var n := |parts| - 1;
    OneWidthSnoc(parts, width);
    if Has(parts[..n]) {
      OneWidthFirst(parts[..n], width);
    }
  }

  /** All rows of an accepted column have the column's width. */
  lemma {:induction false} AllRowsWide(parts: seq<Part<TensorCol>>, width: nat)
    requires RowsOk(parts) && OneWidth(parts, width)
    ensures TensorOk(TensorCol(width, AllRows(parts, width)), Total(parts))
  {
    AllRowsLength(parts, width);
    if parts != [] {
      var last := parts[|parts| - 1];
      OneWidthSnoc(parts, width);
      AllRowsWide(parts[..|parts| - 1], width);
      AllRowsLength(parts[..|parts| - 1], width);
      CopiesAt(Copies(0, width), last.size);
      CopiesAt(0, width);
      assert forall j :: 0 <= j < last.size ==> |RowsOf(last, width)[j]| == width;
    }
  }
}
