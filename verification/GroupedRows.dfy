/** Batches whose rows come in complete groups of n rollouts per prompt, and what the DAPO loop's operations
    do to them: filtering, concatenating and truncating (recipe/dapo/dapo_ray_trainer_for_tar.py:354-409). */
module GroupedRows {
  import opened Arith
  import opened RowTable
  import opened ConcatColumns
  import opened ConcatBatches
  import opened GroupFilter

  /** A group that teaches something: its values differ, or it has only one. */
  ghost predicate Mixed(vals: seq<real>) {
    |vals| == 1 || !AllEqual(vals)
  }

  ghost predicate GroupMixed(metric: seq<real>, g: nat, n: nat) {
    g * n <= (g + 1) * n <= |metric| ==> Mixed(metric[g * n..(g + 1) * n])
  }

  /** Complete groups of n consecutive rows sharing a uid that no other group has, all of them mixed. */
  ghost predicate Grouped(uids: seq<nat>, metric: seq<real>, n: nat) {
    && |uids| == |metric| && InGroups(uids, n)
    && forall g: nat :: GroupMixed(metric, g, n)
  }

  lemma {:induction false} KeepsIsMixed(vals: seq<real>)
    ensures Keeps(vals) <==> vals != [] && Mixed(vals)
  {
    if vals != [] {
      PositiveSpread(vals);
    }
  }

  // ---------- filtering ----------

  ghost predicate Ascending(groups: seq<nat>, below: nat) {
    && (forall j :: 0 <= j < |groups| ==> groups[j] < below)
    && (forall i, j :: 0 <= i < j < |groups| ==> groups[i] < groups[j])
  }

  lemma {:induction false} KeptGroupsAscend(metric: seq<real>, g: nat, n: nat)
    requires g * n <= |metric|
    ensures Ascending(KeptGroups(metric, g, n), g)
  {
    hide Keeps;
    if g > 0 {
      MulOne(g - 1, n);
      KeptGroupsAscend(metric, g - 1, n);
    }
  }

  lemma {:induction false} RowsOfGroupsLength(groups: seq<nat>, n: nat)
    ensures |RowsOfGroups(groups, n)| == |groups| * n
  {
    if groups != [] {
      RowsOfGroupsLength(groups[..|groups| - 1], n);
      MulOne(|groups| - 1, n);
    }
  }

  /** Row g * n + k of the picked rows is row k of the g-th listed group. */
  lemma {:induction false} PickedAt(groups: seq<nat>, n: nat, g: nat, k: nat)
    requires g < |groups| && k < n
    ensures g * n + k < |RowsOfGroups(groups, n)| && RowsOfGroups(groups, n)[g * n + k] == groups[g] * n + k
  {
    var m := |groups| - 1;
    RowsOfGroupsLength(groups[..m], n);
    if g < m {
      PickedAt(groups[..m], n, g, k);
    } else {
      assert GroupRows(groups[m], n, n)[k] == groups[m] * n + k;
    }
  }

  /** Which group row j is in. */
  ghost function GroupOf(j: nat, n: nat): nat
    requires n > 0
  {
    j / n
  }

  /** A picked row stays in the block of its group. */
  lemma {:induction false} PickedRow(groups: seq<nat>, n: nat, size: nat, j: nat)
    requires n > 0 && Ascending(groups, size) && j < |groups| * n
    ensures j < |RowsOfGroups(groups, n)| && GroupOf(j, n) < |groups|
    ensures RowsOfGroups(groups, n)[j] < size * n && GroupOf(RowsOfGroups(groups, n)[j], n) == groups[GroupOf(j, n)]
  {
    hide RowsOfGroups;
    var g, k := j / n, j % n;
    DivBelow(j, |groups|, n);
    assert j == g * n + k;
    PickedAt(groups, n, g, k);
    BlockIndex(groups[g], k, size, n);
  }

  lemma {:induction false} RowsBelow(groups: seq<nat>, n: nat, size: nat)
    requires n > 0 && Ascending(groups, size)
    ensures Below(RowsOfGroups(groups, n), size * n)
  {
    hide RowsOfGroups;
    RowsOfGroupsLength(groups, n);
    forall j | 0 <= j < |groups| * n
      ensures RowsOfGroups(groups, n)[j] < size * n
    {
      PickedRow(groups, n, size, j);
      BlockIndex(groups[j / n], j % n, size, n);
    }
  }

  lemma {:induction false} SamePrompt(uids: seq<nat>, n: nat, x: nat, y: nat)
    requires InGroups(uids, n) && x < |uids| && y < |uids|
    ensures n > 0 && (uids[x] == uids[y] <==> GroupOf(x, n) == GroupOf(y, n))
  {}

  lemma {:induction false} AscendingInjective(groups: seq<nat>, below: nat, g: nat, h: nat)
    requires Ascending(groups, below) && g < |groups| && h < |groups|
    ensures groups[g] == groups[h] <==> g == h
  {}

  /** Two picked rows belong to one prompt exactly when they were picked for one group. */
  lemma {:induction false} PickedPair(uids: seq<nat>, groups: seq<nat>, n: nat, size: nat, i: nat, j: nat)
    requires InGroups(uids, n) && |uids| == size * n && Ascending(groups, size)
    requires i < |groups| * n && j < |groups| * n
    ensures var rows := RowsOfGroups(groups, n);
            && i < |rows| && j < |rows| && rows[i] < |uids| && rows[j] < |uids|
            && (uids[rows[i]] == uids[rows[j]] <==> GroupOf(i, n) == GroupOf(j, n))
  {
    GroupsPositive(uids, n);
    hide RowsOfGroups, InGroups, Ascending, GroupOf;
    PickedRow(groups, n, size, i);
    PickedRow(groups, n, size, j);
    var rows := RowsOfGroups(groups, n);
    SamePrompt(uids, n, rows[i], rows[j]);
    AscendingInjective(groups, size, GroupOf(i, n), GroupOf(j, n));
  }

  /** Picking whole groups keeps rows grouped by prompt. */
  lemma {:induction false} PickGroups(uids: seq<nat>, groups: seq<nat>, n: nat, size: nat)
    requires InGroups(uids, n) && |uids| == size * n && Ascending(groups, size)
    ensures Below(RowsOfGroups(groups, n), |uids|)
    ensures InGroups(Pick(uids, RowsOfGroups(groups, n)), n)
  {
    hide RowsOfGroups, Ascending;
    RowsBelow(groups, n, size);
    RowsOfGroupsLength(groups, n);
    var picked := Pick(uids, RowsOfGroups(groups, n));
    DivUnique(|picked|, |groups|, 0, n);
    forall i, j | 0 <= i < |picked| && 0 <= j < |picked|
      ensures picked[i] == picked[j] <==> i / n == j / n
    {
      PickedPair(uids, groups, n, size, i, j);
    }
  }

  /** The values of a picked group are the values it had. */
  lemma {:induction false} PickedGroup(metric: seq<real>, groups: seq<nat>, n: nat, size: nat, g: nat)
    requires n > 0 && |metric| == size * n && Ascending(groups, size) && g < |groups|
    requires Below(RowsOfGroups(groups, n), |metric|)
    ensures var picked, h := Pick(metric, RowsOfGroups(groups, n)), groups[g];
            && 0 <= g * n <= (g + 1) * n <= |picked| && 0 <= h * n <= (h + 1) * n <= |metric|
            && picked[g * n..(g + 1) * n] == metric[h * n..(h + 1) * n]
  {
    hide RowsOfGroups;
    var picked, h := Pick(metric, RowsOfGroups(groups, n)), groups[g];
    RowsOfGroupsLength(groups, n);
    GroupEnds(g, n, |groups|);
    GroupEnds(h, n, size);
    var mine, theirs := picked[g * n..(g + 1) * n], metric[h * n..(h + 1) * n];
    forall k | 0 <= k < n
      ensures mine[k] == theirs[k]
    {
      PickedAt(groups, n, g, k);
    }
    assert mine == theirs;
  }

  /** The rows that pass the filter are grouped: complete groups, each of them mixed. */
  lemma {:induction false} FilterGrouped(uids: seq<nat>, metric: seq<real>, n: nat, size: nat)
    requires InGroups(uids, n) && |uids| == |metric| == size * n
    ensures var rows := RowsOfGroups(KeptGroups(metric, size, n), n);
            Below(rows, |uids|) && Grouped(Pick(uids, rows), Pick(metric, rows), n)
  {
    hide RowsOfGroups, KeptGroups, InGroups, Mixed, Keeps;
    var groups := KeptGroups(metric, size, n);
    var rows := RowsOfGroups(groups, n);
    KeptGroupsAscend(metric, size, n);
    GroupsPositive(uids, n);
    PickGroups(uids, groups, n, size);
    RowsOfGroupsLength(groups, n);
    var picked := Pick(metric, rows);
    forall g: nat
      ensures GroupMixed(picked, g, n)
    {
      if (g + 1) * n <= |picked| {
        if g >= |groups| {
          MulMono(|groups| + 1, g + 1, n);
          MulOne(|groups|, n);
          assert false;
        }
        PickedGroup(metric, groups, n, size, g);
        assert groups[g] in groups;
        KeptGroupsMember(metric, groups[g], size, n);
        KeepsIsMixed(metric[groups[g] * n..(groups[g] + 1) * n]);
      }
    }
  }

  lemma {:induction false} GroupsPositive(uids: seq<nat>, n: nat)
    requires InGroups(uids, n)
    ensures n > 0 && |uids| % n == 0 && (|uids| / n) * n == |uids|
  {}

  // ---------- concatenating and truncating ----------

  lemma {:induction false} DivAdd(a: nat, j: nat, n: nat)
    requires n > 0 && a % n == 0
    ensures (a + j) / n == a / n + j / n && (a + j) % n == j % n
  {
    var q := a / n;
    assert a == q * n && j == (j / n) * n + j % n;
    Distribute(q, j / n, n);
    DivUnique(a + j, q + j / n, j % n, n);
  }

  ghost predicate Disjoint(a: seq<nat>, b: seq<nat>) {
    forall i, j :: 0 <= i < |a| && 0 <= j < |b| ==> a[i] != b[j]
  }

  lemma {:induction false} InGroupsAppend(a: seq<nat>, b: seq<nat>, n: nat)
    requires InGroups(a, n) && InGroups(b, n) && Disjoint(a, b)
    ensures InGroups(a + b, n)
  {
    var all := a + b;
    DivAdd(|a|, |b|, n);
    forall i, j | 0 <= i < |all| && 0 <= j < |all|
      ensures all[i] == all[j] <==> i / n == j / n
    {
      var q := |a| / n;
      assert |a| == q * n;
      BlockOf(i, |a|, q, n);
      BlockOf(j, |a|, q, n);
      assert i < |a| && j < |a| ==> all[i] == a[i] && all[j] == a[j];
      assert i >= |a| && j >= |a| ==> all[i] == b[i - |a|] && all[j] == b[j - |a|];
      assert i < |a| <= j ==> all[i] == a[i] && all[j] == b[j - |a|];
      assert j < |a| <= i ==> all[j] == a[j] && all[i] == b[i - |a|];
    }
  }

  /** Which block an index of a concatenation falls into. */
  lemma {:induction false} BlockOf(i: nat, size: nat, q: nat, n: nat)
    requires n > 0 && size == q * n
    ensures i < size ==> i / n < q
    ensures i >= size ==> i / n == q + (i - size) / n
  {
    DivUnique(size, q, 0, n);
    if i < size {
      DivBelow(i, q, n);
    } else {
      DivAdd(size, i - size, n);
    }
  }

  lemma {:induction false} GroupedAppend(ua: seq<nat>, ma: seq<real>, ub: seq<nat>, mb: seq<real>, n: nat)
    requires Grouped(ua, ma, n) && Grouped(ub, mb, n) && Disjoint(ua, ub)
    ensures Grouped(ua + ub, ma + mb, n)
  {
    InGroupsAppend(ua, ub, n);
    var q, all := |ua| / n, ma + mb;
    GroupsPositive(ua, n);
    hide Mixed, InGroups;
    forall g: nat
      ensures GroupMixed(all, g, n)
    {
      if g * n <= (g + 1) * n <= |all| {
        if g < q {
          MulMono(g + 1, q, n);
          assert all[g * n..(g + 1) * n] == ma[g * n..(g + 1) * n];
          assert GroupMixed(ma, g, n);
        } else {
          var h := g - q;
          Distribute(q, h, n);
          Distribute(q, h + 1, n);
          MulMono(h, h + 1, n);
          assert all[g * n..(g + 1) * n] == mb[h * n..(h + 1) * n];
          assert GroupMixed(mb, h, n);
        }
      }
    }
  }

  /** Cutting off behind a whole number of groups splits no group. */
  lemma {:induction false} GroupedTake(uids: seq<nat>, metric: seq<real>, n: nat, k: nat)
    requires Grouped(uids, metric, n) && k * n <= |uids|
    ensures Grouped(uids[..k * n], metric[..k * n], n)
  {
    DivUnique(k * n, k, 0, n);
    hide Mixed;
    forall g: nat
      ensures GroupMixed(metric[..k * n], g, n)
    {
      assert GroupMixed(metric, g, n);
      if g * n <= (g + 1) * n <= k * n {
        assert metric[..k * n][g * n..(g + 1) * n] == metric[g * n..(g + 1) * n];
      }
    }
  }

  // ---------- the same on batches ----------

  predicate AllIds(cells: seq<Cell>) {
    forall i :: 0 <= i < |cells| ==> cells[i].Id?
  }

  predicate AllNums(cells: seq<Cell>) {
    forall i :: 0 <= i < |cells| ==> cells[i].Num?
  }

  function IdsOf(cells: seq<Cell>): (r: seq<nat>)
    requires AllIds(cells)
    ensures |r| == |cells| && forall i :: 0 <= i < |r| ==> r[i] == cells[i].id
  {
    seq(|cells|, i requires 0 <= i < |cells| => cells[i].id)
  }

  function NumsOf(cells: seq<Cell>): (r: seq<real>)
    requires AllNums(cells)
    ensures |r| == |cells| && forall i :: 0 <= i < |r| ==> r[i] == cells[i].x
  {
    seq(|cells|, i requires 0 <= i < |cells| => cells[i].x)
  }

  /** The batch has a uid and a metric value for every row. */
  ghost predicate Labelled(d: DataProto, metric: string) {
    && Valid(d) && "uid" in d.nonTensor && metric in d.nonTensor
    && AllIds(d.nonTensor["uid"].cells) && AllNums(d.nonTensor[metric].cells)
  }

  ghost function UidsOf(d: DataProto, metric: string): (r: seq<nat>)
    requires Labelled(d, metric)
    ensures |r| == d.size
  {
    IdsOf(d.nonTensor["uid"].cells)
  }

  ghost function MetricOf(d: DataProto, metric: string): (r: seq<real>)
    requires Labelled(d, metric)
    ensures |r| == d.size
  {
    NumsOf(d.nonTensor[metric].cells)
  }

  /** Every prompt of the batch is there with all its n rollouts, side by side, and they are not all alike. */
  ghost predicate CompleteGroups(d: DataProto, metric: string, n: nat) {
    Labelled(d, metric) && Grouped(UidsOf(d, metric), MetricOf(d, metric), n)
  }

  lemma {:induction false} SelectLabelled(d: DataProto, metric: string, rows: seq<nat>)
    requires Labelled(d, metric) && Below(rows, d.size)
    ensures Labelled(Select(d, rows), metric)
    ensures UidsOf(Select(d, rows), metric) == Pick(UidsOf(d, metric), rows)
    ensures MetricOf(Select(d, rows), metric) == Pick(MetricOf(d, metric), rows)
  {
    SelectValid(d, rows);
  }

  lemma {:induction false} TakeComplete(d: DataProto, metric: string, n: nat, k: nat)
    requires CompleteGroups(d, metric, n) && k * n <= d.size
    ensures CompleteGroups(Take(d, k * n), metric, n) && Take(d, k * n).size == k * n
  {
    hide Grouped;
    SliceIsSelect(d, 0, k * n);
    SelectLabelled(d, metric, Range(0, k * n));
    GroupedTake(UidsOf(d, metric), MetricOf(d, metric), n, k);
    assert Pick(UidsOf(d, metric), Range(0, k * n)) == UidsOf(d, metric)[..k * n];
    assert Pick(MetricOf(d, metric), Range(0, k * n)) == MetricOf(d, metric)[..k * n];
  }

  /** A numpy column that both batches have is simply joined. */
  lemma {:induction false} JoinedColumn(a: DataProto, b: DataProto, k: string)
    requires ConcatAll([a, b]).Ok? && k in a.nonTensor && k in b.nonTensor
    ensures var r := ConcatAll([a, b]).value;
            k in r.nonTensor && r.nonTensor[k].cells == a.nonTensor[k].cells + b.nonTensor[k].cells
  {
    hide AllCells, ShapesAgree;
    TwoKeys(a, b);
    ConcatTwo(ArrayPart(a, k), ArrayPart(b, k));
    assert ArrayParts([a, b], k) == [ArrayPart(a, k), ArrayPart(b, k)];
  }

  /** Joining two batches of complete groups with different prompts. */
  lemma {:induction false} ConcatComplete(a: DataProto, b: DataProto, metric: string, n: nat)
    requires CompleteGroups(a, metric, n) && CompleteGroups(b, metric, n)
    requires Disjoint(UidsOf(a, metric), UidsOf(b, metric)) && ConcatAll([a, b]).Ok?
    ensures var r := ConcatAll([a, b]).value;
            && CompleteGroups(r, metric, n) && r.size == a.size + b.size
            && UidsOf(r, metric) == UidsOf(a, metric) + UidsOf(b, metric)
  {
    hide Grouped, ConcatAll;
    var r := ConcatAll([a, b]).value;
    JoinedColumn(a, b, "uid");
    JoinedColumn(a, b, metric);
    ConcatAligned([a, b]);
    TwoKeys(a, b);
    GroupedAppend(UidsOf(a, metric), MetricOf(a, metric), UidsOf(b, metric), MetricOf(b, metric), n);
    assert UidsOf(r, metric) == UidsOf(a, metric) + UidsOf(b, metric);
    assert MetricOf(r, metric) == MetricOf(a, metric) + MetricOf(b, metric);
  }
}
