/** The group filter of the DAPO loop (recipe/dapo/dapo_ray_trainer_for_tar.py:354-388): prompts whose
    rollouts all got the same metric value are dropped. */
module GroupFilter {
  import opened Arith

  // ---------- standard deviation over exact reals ----------

  function SumOf(vals: seq<real>): real {
    if vals == [] then 0.0 else SumOf(vals[..|vals| - 1]) + vals[|vals| - 1]
  }

  function Product(x: real, y: real): real { x * y }

  function Square(x: real): real { Product(x, x) }

  function SquaredDeviations(vals: seq<real>, mean: real): real {
    if vals == [] then 0.0
    else SquaredDeviations(vals[..|vals| - 1], mean) + Square(vals[|vals| - 1] - mean)
  }

  function Mean(vals: seq<real>): real
    requires vals != []
  {
    SumOf(vals) / (|vals| as real)
  }

  /** The square of `np.std`. */
  function Variance(vals: seq<real>): real
    requires vals != []
  {
    SquaredDeviations(vals, Mean(vals)) / (|vals| as real)
  }

  predicate AllEqual(vals: seq<real>) {
    forall i, j :: 0 <= i < |vals| && 0 <= j < |vals| ==> vals[i] == vals[j]
  }

  lemma {:induction false} ProductSign(x: real, y: real)
    requires (x > 0.0 && y > 0.0) || (x < 0.0 && y < 0.0)
    ensures Product(x, y) > 0.0
  {}

  lemma {:induction false} SquareSign(x: real)
    ensures Square(x) >= 0.0 && (Square(x) == 0.0 <==> x == 0.0)
  {
    if x != 0.0 {
      ProductSign(x, x);
    }
  }

  lemma {:induction false} DeviationsSign(vals: seq<real>, mean: real)
    ensures SquaredDeviations(vals, mean) >= 0.0
    ensures SquaredDeviations(vals, mean) == 0.0 <==> forall i :: 0 <= i < |vals| ==> vals[i] == mean
  {
    if vals != [] {
      var init, last := vals[..|vals| - 1], vals[|vals| - 1];
      DeviationsSign(init, mean);
      SquareSign(last - mean);
      assert forall i :: 0 <= i < |init| ==> vals[i] == init[i];
    }
  }

  lemma {:induction false} EqualSum(vals: seq<real>, x: real)
    requires forall i :: 0 <= i < |vals| ==> vals[i] == x
    ensures SumOf(vals) == (|vals| as real) * x
  {
    if vals != [] {
      EqualSum(vals[..|vals| - 1], x);
    }
  }

  lemma {:induction false} Quotient(a: real, n: real, x: real)
    requires n > 0.0 && a == n * x
    ensures a / n == x
  {}

  lemma {:induction false} QuotientSign(a: real, n: real)
    requires n > 0.0 && a >= 0.0
    ensures a / n > 0.0 <==> a > 0.0
  {}

  /** The standard deviation is positive exactly when the values are not all equal. */
  lemma {:induction false} PositiveSpread(vals: seq<real>)
    requires vals != []
    ensures Variance(vals) > 0.0 <==> !AllEqual(vals)
  {
    var mean := Mean(vals);
    DeviationsSign(vals, mean);
    QuotientSign(SquaredDeviations(vals, mean), |vals| as real);
    if AllEqual(vals) {
      EqualSum(vals, vals[0]);
      Quotient(SumOf(vals), |vals| as real, vals[0]);
    }
  }

  // ---------- the three loops ----------

  /** The metric values of one prompt, in row order. */
  function ValuesOf(uids: seq<nat>, metric: seq<real>, u: nat): seq<real>
    requires |uids| == |metric|
  {
    if uids == [] then []
    else
      var n := |uids| - 1;
      ValuesOf(uids[..n], metric[..n], u) + if uids[n] == u then [metric[n]] else []
  }

  /** The prompts in the order of their first row: the key order of the dictionary. */
  function Prompts(uids: seq<nat>): seq<nat> {
    if uids == [] then []
    else
      var init, u := Prompts(uids[..|uids| - 1]), uids[|uids| - 1];
      if u in init then init else init + [u]
  }

  /** `std > 0 or len == 1`. */
  predicate Keeps(vals: seq<real>) {
    vals != [] && (Variance(vals) > 0.0 || |vals| == 1)
  }

  function KeptPrompts(order: seq<nat>, uids: seq<nat>, metric: seq<real>): seq<nat>
    requires |uids| == |metric|
  {
    if order == [] then []
    else
      var n := |order| - 1;
      KeptPrompts(order[..n], uids, metric) + if Keeps(ValuesOf(uids, metric, order[n])) then [order[n]] else []
  }

  /** The rows whose prompt is kept, in order. */
  function KeptRows(uids: seq<nat>, kept: seq<nat>): seq<nat> {
    if uids == [] then []
    else
      var n := |uids| - 1;
      KeptRows(uids[..n], kept) + if uids[n] in kept then [n] else []
  }

  lemma {:induction false} PromptsAreUids(uids: seq<nat>, u: nat)
    ensures u in Prompts(uids) <==> u in uids
    ensures u in uids ==> forall metric: seq<real> :: |metric| == |uids| ==> ValuesOf(uids, metric, u) != []
    ensures u !in uids ==> forall metric: seq<real> :: |metric| == |uids| ==> ValuesOf(uids, metric, u) == []
  {
    if uids != [] {
      PromptsAreUids(uids[..|uids| - 1], u);
    }
  }

  /** Collect the values per prompt; `order` is the key order of the dictionary. */
  method CollectValues(uids: seq<nat>, metric: seq<real>) returns (vals: map<nat, seq<real>>, order: seq<nat>)
    requires |uids| == |metric|
    ensures order == Prompts(uids)
    ensures forall u :: u in order <==> u in vals
    ensures forall u :: u in vals ==> vals[u] == ValuesOf(uids, metric, u)
  {
    vals := map[];
    order := [];
    for i := 0 to |uids|
      invariant order == Prompts(uids[..i])
      invariant forall u :: u in order <==> u in vals
      invariant forall u :: u in vals ==> vals[u] == ValuesOf(uids[..i], metric[..i], u)
    {
      var u := uids[i];
      assert uids[..i + 1][..i] == uids[..i] && metric[..i + 1][..i] == metric[..i];
      if u in vals {
        vals := vals[u := vals[u] + [metric[i]]];
      } else {
        FirstValue(uids[..i], metric[..i], u);
        vals := vals[u := [metric[i]]];
        order := order + [u];
      }
    }
    assert uids[..|uids|] == uids && metric[..|uids|] == metric;
  }

  lemma {:induction false} FirstValue(uids: seq<nat>, metric: seq<real>, u: nat)
    requires |uids| == |metric| && u !in Prompts(uids)
    ensures ValuesOf(uids, metric, u) == []
  {
    PromptsAreUids(uids, u);
  }

  lemma {:induction false} PromptHasValues(uids: seq<nat>, metric: seq<real>, u: nat)
    requires |uids| == |metric| && u in Prompts(uids)
    ensures ValuesOf(uids, metric, u) != []
  {
    PromptsAreUids(uids, u);
  }

  /** The filter as the code runs it: collect the values per prompt, decide per prompt, collect the rows. */
  method FilterGroups(uids: seq<nat>, metric: seq<real>) returns (kept: seq<nat>, rows: seq<nat>)
    requires |uids| == |metric|
    ensures kept == KeptPrompts(Prompts(uids), uids, metric)
    ensures rows == KeptRows(uids, kept)
  {
    hide Variance, ValuesOf, Prompts;
    var vals, order := CollectValues(uids, metric);
    kept := [];
    for i := 0 to |order|
      invariant kept == KeptPrompts(order[..i], uids, metric)
    {
      assert order[..i + 1][..i] == order[..i];
      var v := vals[order[i]];
      PromptHasValues(uids, metric, order[i]);
      if Variance(v) > 0.0 || |v| == 1 {
        kept := kept + [order[i]];
      }
    }
    assert order[..|order|] == order;
    rows := SelectRows(uids, kept);
  }

  method SelectRows(uids: seq<nat>, kept: seq<nat>) returns (rows: seq<nat>)
    ensures rows == KeptRows(uids, kept)
  {
    rows := [];
    for i := 0 to |uids|
      invariant rows == KeptRows(uids[..i], kept)
    {
      assert uids[..i + 1][..i] == uids[..i];
      if uids[i] in kept {
        rows := rows + [i];
      }
    }
    assert uids[..|uids|] == uids;
  }

  // ---------- rows that come in groups ----------

  /** n rows per prompt, one prompt after the other. */
  ghost predicate InGroups(uids: seq<nat>, n: nat) {
    && n > 0 && |uids| % n == 0
    && forall i, j :: 0 <= i < |uids| && 0 <= j < |uids| ==> (uids[i] == uids[j] <==> i / n == j / n)
  }

  /** Rows g * n up to g * n + k of a group, k <= n. */
  function GroupRows(g: nat, k: nat, n: nat): (r: seq<nat>)
    ensures |r| == k && forall j :: 0 <= j < k ==> r[j] == g * n + j
  {
    seq(k, j requires 0 <= j => g * n + j)
  }

  /** The rows of the listed groups, group by group. */
  function RowsOfGroups(groups: seq<nat>, n: nat): seq<nat> {
    if groups == [] then [] else RowsOfGroups(groups[..|groups| - 1], n) + GroupRows(groups[|groups| - 1], n, n)
  }

  /** The groups whose metric values pass the filter, in order, among the first g. */
  function KeptGroups(metric: seq<real>, g: nat, n: nat): seq<nat>
    requires g * n <= |metric|
  {
    if g == 0 then []
    else
      MulOne(g - 1, n);
      KeptGroups(metric, g - 1, n) + if Keeps(metric[(g - 1) * n..g * n]) then [g - 1] else []
  }

  /** Within a group everything belongs to the prompt of its first row. */
  lemma {:induction false} SameGroup(uids: seq<nat>, n: nat, g: nat, k: nat, size: nat)
    requires InGroups(uids, n) && |uids| == size * n && g < size && k < n
    ensures g * n + k < |uids| && g * n < |uids| && uids[g * n + k] == uids[g * n]
    ensures forall j :: 0 <= j < g * n ==> uids[j] != uids[g * n]
  {
    BlockIndex(g, k, size, n);
    BlockIndex(g, 0, size, n);
    forall j | 0 <= j < g * n
      ensures uids[j] != uids[g * n]
    {
      DivBelow(j, g, n);
    }
  }

  /** The loops, after g whole groups and k rows of the next one. */
  lemma {:induction false} PromptsWithin(uids: seq<nat>, n: nat, g: nat, k: nat, size: nat)
    requires n > 0 && InGroups(uids, n) && |uids| == size * n && g < size && k <= n
    ensures g * n + k <= |uids|
    ensures Prompts(uids[..g * n + k]) == Prompts(uids[..g * n]) + if k == 0 then [] else [uids[g * n]]
  {
    hide InGroups;
    SameGroup(uids, n, g, if k == 0 then 0 else k - 1, size);
    if k > 0 {
      PromptsWithin(uids, n, g, k - 1, size);
      var prefix := uids[..g * n + k];
      assert prefix[..g * n + k - 1] == uids[..g * n + k - 1];
      assert prefix[|prefix| - 1] == uids[g * n];
      PromptsAreUids(uids[..g * n], uids[g * n]);
    }
  }

  lemma {:induction false} ValuesWithin(uids: seq<nat>, metric: seq<real>, n: nat, g: nat, k: nat, size: nat, u: nat)
    requires n > 0 && InGroups(uids, n) && |uids| == |metric| == size * n && g < size && k <= n
    ensures g * n + k <= |uids|
    ensures ValuesOf(uids[..g * n + k], metric[..g * n + k], u)
         == ValuesOf(uids[..g * n], metric[..g * n], u) + if uids[g * n] == u then metric[g * n..g * n + k] else []
  {
    hide InGroups;
    SameGroup(uids, n, g, if k == 0 then 0 else k - 1, size);
    if k > 0 {
      ValuesWithin(uids, metric, n, g, k - 1, size, u);
      var m := g * n + k;
      assert uids[..m][..m - 1] == uids[..m - 1] && metric[..m][..m - 1] == metric[..m - 1];
      assert metric[g * n..m] == metric[g * n..m - 1] + [metric[m - 1]];
    }
  }

  lemma {:induction false} RowsWithin(uids: seq<nat>, kept: seq<nat>, n: nat, g: nat, k: nat, size: nat)
    requires n > 0 && InGroups(uids, n) && |uids| == size * n && g < size && k <= n
    ensures g * n + k <= |uids|
    ensures KeptRows(uids[..g * n + k], kept)
         == KeptRows(uids[..g * n], kept) + if uids[g * n] in kept then GroupRows(g, k, n) else []
  {
    hide InGroups;
    SameGroup(uids, n, g, if k == 0 then 0 else k - 1, size);
    if k > 0 {
      RowsWithin(uids, kept, n, g, k - 1, size);
      var m := g * n + k;
      assert uids[..m][..m - 1] == uids[..m - 1];
      assert GroupRows(g, k, n) == GroupRows(g, k - 1, n) + [m - 1];
    }
  }

  /** The uid of every group, in order. */
  function Heads(uids: seq<nat>, g: nat, n: nat): seq<nat>
    requires n > 0 && g * n <= |uids|
  {
    if g == 0 then []
    else
      MulOne(g - 1, n);
      Heads(uids, g - 1, n) + [uids[(g - 1) * n]]
  }

  lemma {:induction false} PromptsAreHeads(uids: seq<nat>, n: nat, g: nat, size: nat)
    requires n > 0 && InGroups(uids, n) && |uids| == size * n && g <= size
    ensures g * n <= |uids| && Prompts(uids[..g * n]) == Heads(uids, g, n)
  {
    hide InGroups, Prompts;
    MulMono(g, size, n);
    if g > 0 {
      PromptsAreHeads(uids, n, g - 1, size);
      MulOne(g - 1, n);
      PromptsWithin(uids, n, g - 1, n, size);
    } else {
      assert uids[..0] == [];
      NoPrompts();
    }
  }

  lemma {:induction false} NoPrompts()
    ensures Prompts([]) == []
  {}

  lemma {:induction false} HeadsDiffer(uids: seq<nat>, n: nat, g: nat, h: nat, size: nat)
    requires InGroups(uids, n) && |uids| == size * n && g < size && h < size
    ensures g * n < |uids| && h * n < |uids| && (uids[h * n] == uids[g * n] <==> h == g)
  {
    BlockIndex(h, 0, size, n);
    BlockIndex(g, 0, size, n);
  }

  lemma {:induction false} GroupEnds(g: nat, n: nat, size: nat)
    requires g < size
    ensures g * n <= (g + 1) * n <= size * n && (g + 1) * n == g * n + n
  {
    MulMono(g + 1, size, n);
    MulOne(g, n);
  }

  /** A prompt's values are the metric values of its group's rows. */
  lemma {:induction false} ValuesAreGroup(uids: seq<nat>, metric: seq<real>, n: nat, g: nat, h: nat, size: nat)
    requires InGroups(uids, n) && |uids| == |metric| == size * n && g < size && h <= size
    ensures h * n <= |uids| && (g + 1) * n <= |uids| && g * n < |uids| && g * n <= (g + 1) * n
    ensures ValuesOf(uids[..h * n], metric[..h * n], uids[g * n]) == if g < h then metric[g * n..(g + 1) * n] else []
  {
    hide InGroups, ValuesOf;
    GroupEnds(g, n, size);
    HeadsDiffer(uids, n, g, g, size);
    if h > 0 {
      GroupEnds(h - 1, n, size);
      ValuesAreGroup(uids, metric, n, g, h - 1, size);
      ValuesWithin(uids, metric, n, h - 1, n, size, uids[g * n]);
      HeadsDiffer(uids, n, g, h - 1, size);
    } else {
      NoValues(uids[g * n]);
    }
  }

  lemma {:induction false} NoValues(u: nat)
    ensures ValuesOf([], [], u) == []
  {}

  /** The prompts kept among the first g groups are the heads of the kept groups. */
  ghost predicate KeptMatch(uids: seq<nat>, kept: seq<nat>, groups: seq<nat>, n: nat, size: nat)
    requires |uids| == size * n && n > 0
  {
    forall h :: 0 <= h < size ==> HeadKept(uids, kept, h, n) == (h in groups)
  }

  ghost predicate HeadKept(uids: seq<nat>, kept: seq<nat>, h: nat, n: nat) {
    h * n < |uids| && uids[h * n] in kept
  }

  lemma {:induction false} KeptPromptsAreGroups(uids: seq<nat>, metric: seq<real>, n: nat, g: nat, size: nat)
    requires InGroups(uids, n) && |uids| == |metric| == size * n && g <= size
    ensures g * n <= |uids|
    ensures |KeptPrompts(Heads(uids, g, n), uids, metric)| == |KeptGroups(metric, g, n)|
    ensures KeptMatch(uids, KeptPrompts(Heads(uids, g, n), uids, metric), KeptGroups(metric, g, n), n, size)
  {
    hide InGroups, ValuesOf, Keeps;
    MulMono(g, size, n);
    if g > 0 {
      GroupEnds(g - 1, n, size);
      KeptPromptsAreGroups(uids, metric, n, g - 1, size);
      ValuesAreGroup(uids, metric, n, g - 1, size, size);
      assert uids[..size * n] == uids && metric[..size * n] == metric;
      var heads := Heads(uids, g, n);
      assert heads[..|heads| - 1] == Heads(uids, g - 1, n);
      var before, after := KeptPrompts(Heads(uids, g - 1, n), uids, metric), KeptPrompts(heads, uids, metric);
      forall h | 0 <= h < size
        ensures HeadKept(uids, after, h, n) == (h in KeptGroups(metric, g, n))
      {
        HeadsDiffer(uids, n, g - 1, h, size);
        assert HeadKept(uids, before, h, n) == (h in KeptGroups(metric, g - 1, n));
      }
    }
  }

  lemma {:induction false} RowsAreGroups(uids: seq<nat>, metric: seq<real>, kept: seq<nat>, n: nat, g: nat, size: nat)
    requires n > 0 && InGroups(uids, n) && |uids| == |metric| == size * n && g <= size
    requires KeptMatch(uids, kept, KeptGroups(metric, size, n), n, size)
    ensures g * n <= |uids|
    ensures KeptRows(uids[..g * n], kept) == RowsOfGroups(KeptGroups(metric, g, n), n)
  {
    hide InGroups, KeptRows, Keeps, KeptGroups, RowsOfGroups;
    MulMono(g, size, n);
    if g > 0 {
      GroupEnds(g - 1, n, size);
      RowsAreGroups(uids, metric, kept, n, g - 1, size);
      RowsWithin(uids, kept, n, g - 1, n, size);
      KeptGroupsMember(metric, g - 1, size, n);
      HeadsDiffer(uids, n, g - 1, g - 1, size);
      assert HeadKept(uids, kept, g - 1, n) == (g - 1 in KeptGroups(metric, size, n));
      RowsOfMore(metric, g, n);
    } else {
      NoRows(kept);
      NoGroups(metric, n);
    }
  }

  lemma {:induction false} NoGroups(metric: seq<real>, n: nat)
    ensures RowsOfGroups(KeptGroups(metric, 0, n), n) == []
  {}

  lemma {:induction false} RowsOfMore(metric: seq<real>, g: nat, n: nat)
    requires g > 0 && g * n <= |metric|
    ensures (g - 1) * n <= g * n
    ensures RowsOfGroups(KeptGroups(metric, g, n), n)
         == RowsOfGroups(KeptGroups(metric, g - 1, n), n)
            + if Keeps(metric[(g - 1) * n..g * n]) then GroupRows(g - 1, n, n) else []
  {
    hide Keeps;
    MulOne(g - 1, n);
    var groups := KeptGroups(metric, g, n);
    if Keeps(metric[(g - 1) * n..g * n]) {
      assert groups[..|groups| - 1] == KeptGroups(metric, g - 1, n);
    } else {
      assert groups == KeptGroups(metric, g - 1, n);
    }
  }

  lemma {:induction false} NoRows(kept: seq<nat>)
    ensures KeptRows([], kept) == []
  {}

  /** A group is kept exactly when its own values pass the filter. */
  lemma {:induction false} KeptGroupsMember(metric: seq<real>, h: nat, g: nat, n: nat)
    requires g * n <= |metric|
    ensures h in KeptGroups(metric, g, n) <==> h < g && h * n <= (h + 1) * n <= |metric| && Keeps(metric[h * n..(h + 1) * n])
    decreases g
  {
    if g > 0 {
      MulOne(g - 1, n);
      KeptGroupsMember(metric, h, g - 1, n);
    }
    if h < g {
      MulMono(h + 1, g, n);
      MulOne(h, n);
    }
  }

  /** On rows that come in groups, the filter keeps whole groups: exactly those whose own values pass. */
  lemma {:induction false} FilterKeepsGroups(uids: seq<nat>, metric: seq<real>, n: nat)
    requires InGroups(uids, n) && |uids| == |metric|
    ensures (|uids| / n) * n == |uids|
    ensures var kept := KeptPrompts(Prompts(uids), uids, metric);
            var groups := KeptGroups(metric, |uids| / n, n);
            && |kept| == |groups|
            && KeptRows(uids, kept) == RowsOfGroups(groups, n)
  {
    var size := |uids| / n;
    assert size * n == |uids|;
    assert uids[..size * n] == uids;
    PromptsAreHeads(uids, n, size, size);
    KeptPromptsAreGroups(uids, metric, n, size, size);
    RowsAreGroups(uids, metric, KeptPrompts(Prompts(uids), uids, metric), n, size, size);
  }
}
