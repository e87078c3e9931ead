/** Batches as aligned columns (verl/protocol.py): selecting, slicing, repeating and chunking rows. */
module RowTable {
  import opened Arith

  /** numpy dtypes as far as filling cares: floating, or an array of objects. */
  datatype Kind = Floating | Object

  datatype Cell = Num(x: real) | Id(id: nat) | NaN | Nothing

  /** A tensor column: one row of `width` numbers per batch element. */
  datatype TensorCol = TensorCol(width: nat, rows: seq<seq<int>>)

  datatype ArrayCol = ArrayCol(kind: Kind, cells: seq<Cell>)

  datatype DataProto = DataProto(size: nat, batch: map<string, TensorCol>, nonTensor: map<string, ArrayCol>)

  ghost predicate TensorOk(c: TensorCol, size: nat) {
    |c.rows| == size && forall i :: 0 <= i < size ==> |c.rows[i]| == c.width
  }

  /** All columns are aligned with the batch size. */
  ghost predicate Valid(d: DataProto) {
    && (forall k :: k in d.batch ==> TensorOk(d.batch[k], d.size))
    && (forall k :: k in d.nonTensor ==> |d.nonTensor[k].cells| == d.size)
  }

  // ---------- sequences of indices ----------

  predicate Below(idxs: seq<nat>, n: nat) {
    forall j :: 0 <= j < |idxs| ==> idxs[j] < n
  }

  function Pick<T>(s: seq<T>, idxs: seq<nat>): (r: seq<T>)
    requires Below(idxs, |s|)
    ensures |r| == |idxs| && forall j :: 0 <= j < |r| ==> r[j] == s[idxs[j]]
  {
    seq(|idxs|, j requires 0 <= j < |idxs| => s[idxs[j]])
  }

  function Range(lo: nat, hi: nat): (r: seq<nat>)
    requires lo <= hi
    ensures |r| == hi - lo && forall j :: 0 <= j < |r| ==> r[j] == lo + j
  {
    seq(hi - lo, j requires 0 <= j => lo + j)
  }

  // ---------- the row operations ----------

  /** `select_idxs`: the same indices into every column. */
  function Select(d: DataProto, idxs: seq<nat>): DataProto
    requires Valid(d) && Below(idxs, d.size)
  {
    DataProto(|idxs|,
              map k | k in d.batch :: TensorCol(d.batch[k].width, Pick(d.batch[k].rows, idxs)),
              map k | k in d.nonTensor :: ArrayCol(d.nonTensor[k].kind, Pick(d.nonTensor[k].cells, idxs)))
  }

  /** `data[lo:hi]` for bounds inside the batch. */
  function Slice(d: DataProto, lo: nat, hi: nat): DataProto
    requires Valid(d) && lo <= hi <= d.size
  {
    DataProto(hi - lo,
              map k | k in d.batch :: TensorCol(d.batch[k].width, d.batch[k].rows[lo..hi]),
              map k | k in d.nonTensor :: ArrayCol(d.nonTensor[k].kind, d.nonTensor[k].cells[lo..hi]))
  }

  /** `data[:hi]`: a bound behind the end is clipped. */
  function Take(d: DataProto, hi: nat): DataProto
    requires Valid(d)
  {
    Slice(d, 0, if hi <= d.size then hi else d.size)
  }

  /** `unpad_dataproto`: `data[:-pad]`, or everything when pad is 0. */
  function Unpad(d: DataProto, pad: nat): DataProto
    requires Valid(d)
  {
    if pad == 0 then d else Slice(d, 0, if pad <= d.size then d.size - pad else 0)
  }

  function Copies<T>(x: T, n: nat): seq<T> {
    if n == 0 then [] else [x] + Copies(x, n - 1)
  }

  /** `repeat_interleave` / `np.repeat`: every element n times in a row. */
  function RepeatEach<T>(s: seq<T>, n: nat): seq<T> {
    if s == [] then [] else Copies(s[0], n) + RepeatEach(s[1..], n)
  }

  /** `repeat(n, interleave=True)`. */
  function Repeat(d: DataProto, n: nat): DataProto {
    DataProto(d.size * n,
              map k | k in d.batch :: TensorCol(d.batch[k].width, RepeatEach(d.batch[k].rows, n)),
              map k | k in d.nonTensor :: ArrayCol(d.nonTensor[k].kind, RepeatEach(d.nonTensor[k].cells, n)))
  }

  // ---------- they all are selections ----------

  lemma {:induction false} SelectValid(d: DataProto, idxs: seq<nat>)
    requires Valid(d) && Below(idxs, d.size)
    ensures Valid(Select(d, idxs))
  {}

  lemma {:induction false} SliceIsPick<T>(s: seq<T>, lo: nat, hi: nat)
    requires lo <= hi <= |s|
    ensures Below(Range(lo, hi), |s|) && s[lo..hi] == Pick(s, Range(lo, hi))
  {}

  lemma {:induction false} SliceIsSelect(d: DataProto, lo: nat, hi: nat)
    requires Valid(d) && lo <= hi <= d.size
    ensures Slice(d, lo, hi) == Select(d, Range(lo, hi)) && Valid(Slice(d, lo, hi))
  {
    var a, b := Slice(d, lo, hi), Select(d, Range(lo, hi));
    forall k | k in d.batch
      ensures a.batch[k] == b.batch[k]
    {
      SliceIsPick(d.batch[k].rows, lo, hi);
    }
    forall k | k in d.nonTensor
      ensures a.nonTensor[k] == b.nonTensor[k]
    {
      SliceIsPick(d.nonTensor[k].cells, lo, hi);
    }
    assert a.batch == b.batch && a.nonTensor == b.nonTensor;
  }

  lemma {:induction false} SelectAll(d: DataProto)
    requires Valid(d)
    ensures Select(d, Range(0, d.size)) == d
  {
    var a := Select(d, Range(0, d.size));
    assert forall k :: k in d.batch ==> a.batch[k].rows == d.batch[k].rows;
    assert forall k :: k in d.nonTensor ==> a.nonTensor[k].cells == d.nonTensor[k].cells;
    assert a.batch == d.batch && a.nonTensor == d.nonTensor;
  }

  lemma {:induction false} PickPick<T>(s: seq<T>, a: seq<nat>, b: seq<nat>)
    requires Below(a, |s|) && Below(b, |a|)
    ensures Below(Pick(a, b), |s|) && Pick(Pick(s, a), b) == Pick(s, Pick(a, b))
  {}

  lemma {:induction false} SelectSelect(d: DataProto, a: seq<nat>, b: seq<nat>)
    requires Valid(d) && Below(a, d.size) && Below(b, |a|)
    ensures Valid(Select(d, a)) && Below(Pick(a, b), d.size)
    ensures Select(Select(d, a), b) == Select(d, Pick(a, b))
  {
    SelectValid(d, a);
    var x, y := Select(Select(d, a), b), Select(d, Pick(a, b));
    forall k | k in d.batch
      ensures x.batch[k] == y.batch[k]
    {
      PickPick(d.batch[k].rows, a, b);
    }
    forall k | k in d.nonTensor
      ensures x.nonTensor[k] == y.nonTensor[k]
    {
      PickPick(d.nonTensor[k].cells, a, b);
    }
    assert x.batch == y.batch && x.nonTensor == y.nonTensor;
  }

  lemma {:induction false} CopiesAt<T>(x: T, n: nat)
    ensures |Copies(x, n)| == n && forall j :: 0 <= j < n ==> Copies(x, n)[j] == x
  {
    if n > 0 {
      CopiesAt(x, n - 1);
    }
  }

  function SourceRow(j: nat, size: nat, n: nat): (r: nat)
    requires n > 0 && j < size * n
    ensures r == j / n && r < size
  {
    DivBelow(j, size, n);
    j / n
  }

  /** Which source row a repeated row comes from: row j is row j div n. */
  function Sources(size: nat, n: nat): (r: seq<nat>)
    requires n > 0
    ensures |r| == size * n && forall j :: 0 <= j < |r| ==> r[j] == j / n && r[j] < size
  {
    seq(size * n, j requires 0 <= j < size * n => SourceRow(j, size, n))
  }

  lemma {:induction false} RepeatBehind<T>(s: seq<T>, n: nat, j: nat)
    requires n > 0 && s != [] && n <= j < |s| * n && RepeatEach(s[1..], n) == Pick(s[1..], Sources(|s| - 1, n))
    ensures j < |RepeatEach(s, n)| && RepeatEach(s, n)[j] == s[Sources(|s|, n)[j]]
  {
    CopiesAt(s[0], n);
    MulOne(|s| - 1, n);
    DivShift(j, n);
    assert RepeatEach(s, n)[j] == RepeatEach(s[1..], n)[j - n];
  }

  lemma {:induction false} RepeatIsPick<T>(s: seq<T>, n: nat)
    requires n > 0
    ensures RepeatEach(s, n) == Pick(s, Sources(|s|, n))
  {
    if s != [] {
      var tail := s[1..];
      RepeatIsPick(tail, n);
      CopiesAt(s[0], n);
      MulOne(|tail|, n);
      forall j | 0 <= j < |s| * n
        ensures j < |RepeatEach(s, n)| && RepeatEach(s, n)[j] == s[Sources(|s|, n)[j]]
      {
        if j < n {
          DivUnique(j, 0, j, n);
        } else {
          RepeatBehind(s, n, j);
        }
      }
    }
  }

  lemma {:induction false} RepeatIsSelect(d: DataProto, n: nat)
    requires Valid(d) && n > 0
    ensures Repeat(d, n) == Select(d, Sources(d.size, n)) && Valid(Repeat(d, n))
  {
    var a, b := Repeat(d, n), Select(d, Sources(d.size, n));
    forall k | k in d.batch
      ensures a.batch[k] == b.batch[k]
    {
      RepeatIsPick(d.batch[k].rows, n);
    }
    forall k | k in d.nonTensor
      ensures a.nonTensor[k] == b.nonTensor[k]
    {
      RepeatIsPick(d.nonTensor[k].cells, n);
    }
    assert a.batch == b.batch && a.nonTensor == b.nonTensor;
  }
}
