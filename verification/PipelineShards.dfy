/** `get_dynamic_pipeline_shards` (verl/model_merger/megatron_model_merger.py:57-98): layers per pipeline rank. */
module PipelineShards {
  import opened Wrappers
  import opened Arith
  import opened RowTable

  datatype ShardError = TooFewLayers | NoRanks | NoPlan

  datatype Candidate = Candidate(plan: seq<int>, diff: int)

  /** first, then middle ranks of one size, then last. */
  function Shape(first: int, middle: int, count: nat, last: int): seq<int> {
    [first] + Copies(middle, count) + [last]
  }

  /** The first candidate of least difference, which is what a stable sort puts in front. */
  function Best(cands: seq<Candidate>): Candidate
    requires cands != []
  {
    if |cands| == 1 then cands[0]
    else
      var best, last := Best(cands[..|cands| - 1]), cands[|cands| - 1];
      if last.diff < best.diff then last else best
  }

  function Abs(x: int): int { if x < 0 then -x else x }

  function FirstSize(layers: int, middle: int, count: nat): int {
    (layers - middle * count) / 2
  }

  function LastSize(layers: int, middle: int, count: nat): int {
    layers - middle * count - FirstSize(layers, middle, count)
  }

  predicate Fits(layers: int, middle: int, count: nat) {
    0 < FirstSize(layers, middle, count) <= middle && 0 < LastSize(layers, middle, count) <= middle
  }

  function CandidateFor(layers: int, middle: int, count: nat): Candidate {
    var first := FirstSize(layers, middle, count);
    Candidate(Shape(first, middle, count, LastSize(layers, middle, count)), Abs(first - middle))
  }

  /** The search as the code runs it. */
  method GetDynamicPipelineShards(layerNum: int, ppSize: int) returns (r: Result<seq<int>, ShardError>)
    ensures r == Shards(layerNum, ppSize)
  {
    if layerNum < ppSize {
      return Err(TooFewLayers);
    }
    if ppSize < 1 {
      return Err(NoRanks);
    }
    if ppSize == 1 {
      return Ok([layerNum]);
    }
    if ppSize == 2 {
      return Ok([layerNum / 2, layerNum - layerNum / 2]);
    }
    var count := ppSize - 2;
    var strategy: seq<Candidate> := [];
    for middle := 0 to layerNum
      invariant strategy == Collected(layerNum, count, middle)
    {
      var firstLast := layerNum - middle * count;
      var first := firstLast / 2;
      var last := firstLast - firstLast / 2;
      if 0 < first <= middle && 0 < last <= middle {
        strategy := strategy + [Candidate([first] + Copies(middle, count) + [last], Abs(first - middle))];
      }
    }
    CollectedBest(layerNum, count, layerNum);
    CeilBelow(layerNum, ppSize);
    if strategy == [] {
      return Err(NoPlan);
    }
    r := Ok(Best(strategy).plan);
  }

  function Collected(layers: int, count: nat, upTo: nat): seq<Candidate> {
    if upTo == 0 then []
    else
      Collected(layers, count, upTo - 1)
      + if Fits(layers, upTo - 1, count) then [CandidateFor(layers, upTo - 1, count)] else []
  }

  // ---------- what it finds, in closed form ----------

  /** ceil(layers / ranks). */
  function Ceiling(layers: nat, ranks: nat): nat
    requires ranks > 0
  {
    (layers + ranks - 1) / ranks
  }

  /** One or two ranks split evenly; more get middle stages of ceil(layers / ranks), if the ends stay positive. */
  function Shards(layers: int, ranks: int): Result<seq<int>, ShardError> {
    if layers < ranks then Err(TooFewLayers)
    else if ranks < 1 then Err(NoRanks)
    else if ranks == 1 then Ok([layers])
    else if ranks == 2 then Ok([layers / 2, layers - layers / 2])
    else
      var c := Ceiling(layers, ranks);
      if c * (ranks - 2) + 2 <= layers then Ok(CandidateFor(layers, c, ranks - 2).plan) else Err(NoPlan)
  }

  lemma {:induction false} CeilingBounds(layers: nat, ranks: nat)
    requires ranks > 0
    ensures var c := Ceiling(layers, ranks); (c - 1) * ranks < layers <= c * ranks
  {
    var c := Ceiling(layers, ranks);
    assert layers + ranks - 1 == c * ranks + (layers + ranks - 1) % ranks;
    MulOne(c - 1, ranks);
  }

  /** A middle size fits exactly when it is at least ceil(layers / ranks) and leaves two layers for the ends. */
  lemma {:induction false} FitsExactly(layers: int, middle: nat, count: nat)
    requires layers > 0
    ensures Fits(layers, middle, count) <==> middle * count + 2 <= layers <= middle * (count + 2)
    ensures Fits(layers, middle, count) <==> middle * count + 2 <= layers && middle >= Ceiling(layers, count + 2)
  {
    var c, ranks := Ceiling(layers, count + 2), count + 2;
    assert middle * ranks == middle * count + middle * 2;
    CeilingBounds(layers, ranks);
    if middle >= c {
      MulMono(c, middle, ranks);
    } else {
      MulMono(middle, c - 1, ranks);
    }
  }

  lemma {:induction false} FirstFalls(layers: int, a: nat, b: nat, count: nat)
    requires a <= b
    ensures FirstSize(layers, b, count) <= FirstSize(layers, a, count)
  {
    MulMono(a, b, count);
  }

  lemma {:induction false} CeilBelow(layers: nat, ranks: nat)
    requires ranks > 2 && layers >= ranks
    ensures var c := Ceiling(layers, ranks); c * (ranks - 2) + 2 <= layers ==> c < layers
  {
    var c := Ceiling(layers, ranks);
    MulMono(1, ranks - 2, c);
  }

  /** The smallest middle that fits, if it is below the bound. */
  predicate Reached(layers: int, count: nat, upTo: nat)
    requires layers > 0
  {
    var c := Ceiling(layers, count + 2);
    c < upTo && c * count + 2 <= layers
  }

  lemma {:induction false} ReachedStep(layers: int, count: nat, m: nat)
    requires layers > 0
    ensures !Reached(layers, count, 0)
    ensures var c := Ceiling(layers, count + 2);
            && (Reached(layers, count, m + 1) <==> Reached(layers, count, m) || (m == c && Fits(layers, m, count)))
            && (Fits(layers, m, count) ==> m == c || Reached(layers, count, m))
  {
    var c := Ceiling(layers, count + 2);
    FitsExactly(layers, m, count);
    if c <= m {
      MulMono(c, m, count);
    }
  }

  /** A later candidate is never better. */
  lemma {:induction false} LaterIsWorse(layers: int, count: nat, m: nat)
    requires layers > 0 && Reached(layers, count, m) && Fits(layers, m, count)
    ensures CandidateFor(layers, Ceiling(layers, count + 2), count).diff <= CandidateFor(layers, m, count).diff
  {
    var c := Ceiling(layers, count + 2);
    FitsExactly(layers, c, count);
    FirstFalls(layers, c, m, count);
  }

  /** The best of the collected candidates has the smallest middle that fits. */
  lemma {:induction false} CollectedBest(layers: int, count: nat, upTo: nat)
    requires layers > 0
    ensures Collected(layers, count, upTo) != [] <==> Reached(layers, count, upTo)
    ensures Reached(layers, count, upTo) ==>
              Best(Collected(layers, count, upTo)) == CandidateFor(layers, Ceiling(layers, count + 2), count)
  {
    hide Reached, Fits, Ceiling, CandidateFor;
    if upTo > 0 {
      var m := upTo - 1;
      CollectedBest(layers, count, m);
      ReachedStep(layers, count, m);
      var all := Collected(layers, count, upTo);
      if Fits(layers, m, count) {
        assert all[..|all| - 1] == Collected(layers, count, m);
        if Reached(layers, count, m) {
          LaterIsWorse(layers, count, m);
        } else {
          assert all == [CandidateFor(layers, m, count)];
        }
      } else {
        assert all == Collected(layers, count, m);
      }
    } else {
      ReachedStep(layers, count, 0);
    }
  }

  // ---------- what the plan is worth ----------

  function Sum(plan: seq<int>): int {
    if plan == [] then 0 else Sum(plan[..|plan| - 1]) + plan[|plan| - 1]
  }

  lemma {:induction false} SumAdd(a: seq<int>, b: seq<int>)
    ensures Sum(a + b) == Sum(a) + Sum(b)
  {
    if b == [] {
      assert a + b == a;
    } else {
      assert (a + b)[..|a + b| - 1] == a + b[..|b| - 1];
      SumAdd(a, b[..|b| - 1]);
    }
  }

  lemma {:induction false} SumCopies(x: int, n: nat)
    ensures Sum(Copies(x, n)) == n * x
  {
    if n > 0 {
      SumCopies(x, n - 1);
      SumAdd([x], Copies(x, n - 1));
      assert [x][..0] == [];
      MulOne(n - 1, x);
    }
  }

  lemma {:induction false} ShapeSum(first: int, middle: int, count: nat, last: int)
    ensures |Shape(first, middle, count, last)| == count + 2
    ensures Sum(Shape(first, middle, count, last)) == first + middle * count + last
  {
    CopiesAt(middle, count);
    SumCopies(middle, count);
    SumAdd([first], Copies(middle, count));
    SumAdd([first] + Copies(middle, count), [last]);
    assert [first][..0] == [] && [last][..0] == [];
  }

  /** A positive number of layers for every rank, all layers covered. */
  ghost predicate Plan(plan: seq<int>, layers: int, ranks: int) {
    |plan| == ranks && Sum(plan) == layers && forall i :: 0 <= i < |plan| ==> plan[i] > 0
  }

  ghost predicate Within(plan: seq<int>, lo: int, hi: int) {
    forall i :: 0 <= i < |plan| ==> lo <= plan[i] <= hi
  }

  /** Difference between the largest and the smallest entry. */
  function Largest(plan: seq<int>): int
    requires plan != []
  {
    if |plan| == 1 then plan[0]
    else
      var m := Largest(plan[..|plan| - 1]);
      if plan[|plan| - 1] > m then plan[|plan| - 1] else m
  }

  function Smallest(plan: seq<int>): int
    requires plan != []
  {
    if |plan| == 1 then plan[0]
    else
      var m := Smallest(plan[..|plan| - 1]);
      if plan[|plan| - 1] < m then plan[|plan| - 1] else m
  }

  function Spread(plan: seq<int>): int
    requires plan != []
  {
    Largest(plan) - Smallest(plan)
  }

  lemma {:induction false} Extremes(plan: seq<int>)
    requires plan != []
    ensures Within(plan, Smallest(plan), Largest(plan))
    ensures Smallest(plan) in plan && Largest(plan) in plan
  {
    if |plan| > 1 {
      Extremes(plan[..|plan| - 1]);
    }
  }

  lemma {:induction false} SpreadIs(plan: seq<int>, lo: int, hi: int)
    requires lo in plan && hi in plan && Within(plan, lo, hi)
    ensures Spread(plan) == hi - lo
  {
    Extremes(plan);
  }

  lemma {:induction false} ShapeSpread(first: int, middle: int, count: nat, last: int)
    requires count > 0 && first <= middle && last <= middle
    ensures Spread(Shape(first, middle, count, last)) == middle - (if first <= last then first else last)
  {
    CopiesAt(middle, count);
    var plan := Shape(first, middle, count, last);
    assert plan[0] == first && plan[1] == middle && plan[count + 1] == last;
    SpreadIs(plan, if first <= last then first else last, middle);
  }

  /** What the search finds covers all layers with a positive share for every rank. */
  lemma {:induction false} FoundIsPlan(layers: int, ranks: int)
    requires Shards(layers, ranks).Ok?
    ensures Plan(Shards(layers, ranks).value, layers, ranks)
  {
    if ranks == 1 {
      assert [layers][..0] == [];
    } else if ranks == 2 {
      SumTwo(layers / 2, layers - layers / 2);
    } else {
      var c := Ceiling(layers, ranks);
      FitsExactly(layers, c, ranks - 2);
      ShapeSum(FirstSize(layers, c, ranks - 2), c, ranks - 2, LastSize(layers, c, ranks - 2));
      ShapePositive(FirstSize(layers, c, ranks - 2), c, ranks - 2, LastSize(layers, c, ranks - 2));
    }
  }

  lemma {:induction false} ShapePositive(first: int, middle: int, count: nat, last: int)
    requires first > 0 && middle > 0 && last > 0
    ensures forall i :: 0 <= i < |Shape(first, middle, count, last)| ==> Shape(first, middle, count, last)[i] > 0
  {
    CopiesAt(middle, count);
  }

  lemma {:induction false} SumTwo(a: int, b: int)
    ensures Sum([a, b]) == a + b
  {
    assert [a, b][..1] == [a] && [a][..0] == [];
    assert Sum([a]) == a;
  }

  lemma {:induction false} MiddleEnough(layers: nat, middle: nat, ranks: nat)
    requires ranks > 0 && layers <= middle * ranks
    ensures Ceiling(layers, ranks) <= middle
  {
    var c := Ceiling(layers, ranks);
    CeilingBounds(layers, ranks);
    if middle < c {
      MulMono(middle, c - 1, ranks);
      assert false;
    }
  }

  /** From three ranks on, a plan is found exactly when some plan with equal middle stages and smaller
      positive ends exists, and then it has the least spread of all these. */
  lemma {:induction false} FoundIfPossible(layers: int, ranks: int, first: int, middle: int, last: int)
    requires ranks >= 3 && layers >= ranks
    requires 0 < first <= middle && 0 < last <= middle && Plan(Shape(first, middle, ranks - 2, last), layers, ranks)
    ensures Shards(layers, ranks).Ok?
    ensures Spread(Shards(layers, ranks).value) <= Spread(Shape(first, middle, ranks - 2, last))
  {
    var c, count := Ceiling(layers, ranks), ranks - 2;
    ShapeSum(first, middle, count, last);
    ShapeSpread(first, middle, count, last);
    hide Spread, Shape, Ceiling;
    assert middle * ranks == middle * count + middle * 2;
    MiddleEnough(layers, middle, ranks);
    MulMono(c, middle, count);
    FitsExactly(layers, c, count);
    ShapeSpread(FirstSize(layers, c, count), c, count, LastSize(layers, c, count));
    FirstFalls(layers, c, middle, count);
  }

  lemma {:induction false} FoundHasShape(layers: int, ranks: int)
    requires ranks >= 3 && Shards(layers, ranks).Ok?
    ensures var c := Ceiling(layers, ranks);
            var first, last := FirstSize(layers, c, ranks - 2), LastSize(layers, c, ranks - 2);
            0 < first <= c && 0 < last <= c && Shards(layers, ranks).value == Shape(first, c, ranks - 2, last)
  {
    FitsExactly(layers, Ceiling(layers, ranks), ranks - 2);
  }

  lemma {:induction false} ShapeEntries(first: int, middle: int, count: nat, last: int)
    ensures var plan := Shape(first, middle, count, last);
            && |plan| == count + 2 && plan[0] == first && plan[count + 1] == last
            && forall i :: 0 < i <= count ==> plan[i] == middle
  {
    CopiesAt(middle, count);
  }

  /** The two ends share what the middle leaves, the smaller half in front. */
  lemma {:induction false} SmallerHalfFirst(layers: int, ranks: int)
    requires ranks >= 2 && Shards(layers, ranks).Ok?
    ensures var plan := Shards(layers, ranks).value;
            && |plan| == ranks && plan[0] <= plan[ranks - 1] <= plan[0] + 1
            && forall i :: 0 < i < ranks - 1 ==> plan[i] == Ceiling(layers, ranks)
  {
    if ranks == 2 {
      assert Shards(layers, ranks).value == [layers / 2, layers - layers / 2];
    } else {
      var c := Ceiling(layers, ranks);
      FoundHasShape(layers, ranks);
      ShapeEntries(FirstSize(layers, c, ranks - 2), c, ranks - 2, LastSize(layers, c, ranks - 2));
    }
  }

  // ---------- "as uniform as possible" ----------

  /** How far the layers fall short of equal shares of ceil(layers / ranks). */
  function Shortfall(layers: nat, ranks: nat): int
    requires ranks > 0
  {
    Ceiling(layers, ranks) * ranks - layers
  }

  lemma {:induction false} FoundSpread(layers: int, ranks: int)
    requires ranks >= 3 && Shards(layers, ranks).Ok?
    ensures Spread(Shards(layers, ranks).value) == (Shortfall(layers, ranks) + 1) / 2
  {
    hide Spread, Shape, Fits, FirstSize, LastSize, Ceiling;
    var c, count := Ceiling(layers, ranks), ranks - 2;
    FoundHasShape(layers, ranks);
    ShapeSpread(FirstSize(layers, c, count), c, count, LastSize(layers, c, count));
    EndsOf(layers, c, count);
  }

  /** The first end is the smaller one, and how far it is below the middle. */
  lemma {:induction false} EndsOf(layers: int, middle: int, count: nat)
    ensures FirstSize(layers, middle, count) <= LastSize(layers, middle, count)
    ensures middle - FirstSize(layers, middle, count) == (middle * (count + 2) - layers + 1) / 2
  {
    assert middle * (count + 2) == middle * count + middle * 2;
  }

  lemma {:induction false} EqualShares(plan: seq<int>, x: int)
    requires forall i :: 0 <= i < |plan| ==> plan[i] == x
    ensures Sum(plan) == |plan| * x
  {
    if plan != [] {
      EqualShares(plan[..|plan| - 1], x);
      MulOne(|plan| - 1, x);
    }
  }

  /** No plan has less spread than 0, or 1 when the ranks do not divide the layers. */
  lemma {:induction false} LeastSpread(plan: seq<int>, layers: int, ranks: int)
    requires ranks > 0 && layers >= 0 && Plan(plan, layers, ranks)
    ensures Spread(plan) >= 0 && (Spread(plan) == 0 ==> Shortfall(layers, ranks) == 0)
  {
    Extremes(plan);
    if Spread(plan) == 0 {
      var x := plan[0];
      EqualShares(plan, x);
      assert plan[0] > 0;
      DivUnique(layers + ranks - 1, x, ranks - 1, ranks);
    }
  }

  /** An even split: some ranks one layer more than the others. */
  function Even(layers: nat, ranks: nat): seq<int>
    requires ranks > 0
  {
    Copies(layers / ranks + 1, layers % ranks) + Copies(layers / ranks, ranks - layers % ranks)
  }

  lemma {:induction false} EvenIsPlan(layers: nat, ranks: nat)
    requires 0 < ranks <= layers
    ensures Plan(Even(layers, ranks), layers, ranks) && Spread(Even(layers, ranks)) <= 1
  {
    var q, r := layers / ranks, layers % ranks;
    assert layers == q * ranks + r;
    CopiesAt(q + 1, r);
    CopiesAt(q, ranks - r);
    SumAdd(Copies(q + 1, r), Copies(q, ranks - r));
    SumCopies(q + 1, r);
    SumCopies(q, ranks - r);
    EvenSum(q, r, ranks);
    if q < 1 {
      assert false;
    }
    Extremes(Even(layers, ranks));
  }

  lemma {:induction false} EvenSum(q: int, r: int, ranks: int)
    ensures r * (q + 1) + (ranks - r) * q == q * ranks + r
  {}

  /** "As uniform as possible" holds for one or two ranks, and otherwise exactly when the layers fall at most
      two short of equal shares; beyond that the search fails or its plan is beaten by an even split. */
  lemma {:induction false} AsUniformAsPossible(layers: nat, ranks: nat)
    requires 0 < ranks <= layers
    ensures (Shards(layers, ranks).Ok? &&
             forall plan :: Plan(plan, layers, ranks) ==> Spread(Shards(layers, ranks).value) <= Spread(plan))
       <==> (ranks <= 2 || Shortfall(layers, ranks) <= 2)
  {
    CeilingBounds(layers, ranks);
    if ranks <= 2 {
      FewRanksSpread(layers, ranks);
      UniformIfBelow(layers, ranks);
    } else if Shortfall(layers, ranks) <= 2 {
      var c := Ceiling(layers, ranks);
      assert c * ranks == c * (ranks - 2) + c * 2;
      if c == 1 {
        assert layers == ranks;
      }
      FoundSpread(layers, ranks);
      UniformIfBelow(layers, ranks);
    } else if Shards(layers, ranks).Ok? {
      FoundSpread(layers, ranks);
      EvenIsPlan(layers, ranks);
      assert Spread(Even(layers, ranks)) < Spread(Shards(layers, ranks).value);
    }
  }

  lemma {:induction false} FewRanksSpread(layers: nat, ranks: nat)
    requires 1 <= ranks <= 2 && ranks <= layers
    ensures var plan := Shards(layers, ranks).value; Spread(plan) <= 1 && (Shortfall(layers, ranks) == 0 ==> Spread(plan) == 0)
  {
    var plan := Shards(layers, ranks).value;
    if ranks == 2 {
      SpreadIs(plan, layers / 2, layers - layers / 2);
    } else {
      SpreadIs(plan, layers, layers);
    }
  }

  lemma {:induction false} UniformIfBelow(layers: nat, ranks: nat)
    requires 0 < ranks <= layers && Shards(layers, ranks).Ok?
    requires Shards(layers, ranks).value != []
    requires Spread(Shards(layers, ranks).value) <= 1
    requires Shortfall(layers, ranks) == 0 ==> Spread(Shards(layers, ranks).value) == 0
    ensures forall plan :: Plan(plan, layers, ranks) ==> Spread(Shards(layers, ranks).value) <= Spread(plan)
  {
    forall plan | Plan(plan, layers, ranks)
      ensures Spread(Shards(layers, ranks).value) <= Spread(plan)
    {
      LeastSpread(plan, layers, ranks);
    }
  }

  lemma {:induction false} NineShards()
    ensures Shards(9, 4) == Ok([1, 3, 3, 2])
  {
    assert Copies(3, 1) == [3] + Copies(3, 0);
    assert Copies(3, 2) == [3, 3];
    assert Ceiling(9, 4) == 3 && FirstSize(9, 3, 2) == 1 && LastSize(9, 3, 2) == 2;
    assert Shape(1, 3, 2, 2) == [1, 3, 3, 2];
    hide Copies, Shape, Ceiling, FirstSize, LastSize;
  }

  /** Nine layers on four ranks: 1, 3, 3, 2 although 3, 2, 2, 2 is more uniform. */
  lemma {:induction false} NineOnFour()
    ensures Shards(9, 4) == Ok([1, 3, 3, 2]) && Plan([3, 2, 2, 2], 9, 4)
    ensures Spread([3, 2, 2, 2]) < Spread([1, 3, 3, 2])
  {
    hide Shards, Spread, Sum;
    NineShards();
    SumFour(3, 2, 2, 2);
    var fine, found := [3, 2, 2, 2], [1, 3, 3, 2];
    assert fine[1] == 2 && fine[0] == 3 && found[0] == 1 && found[1] == 3;
    SpreadIs(fine, 2, 3);
    SpreadIs(found, 1, 3);
  }

  lemma {:induction false} SumFour(a: int, b: int, c: int, d: int)
    ensures Sum([a, b, c, d]) == a + b + c + d
  {
    SumTwo(a, b);
    assert [a, b, c][..2] == [a, b];
    assert Sum([a, b, c]) == a + b + c;
    assert [a, b, c, d][..3] == [a, b, c];
  }

  /** Five layers on four ranks: no plan is found although 2, 1, 1, 1 is one. */
  lemma {:induction false} FiveOnFour()
    ensures Shards(5, 4) == Err(NoPlan) && Plan([2, 1, 1, 1], 5, 4)
  {
    SumFour(2, 1, 1, 1);
  }
}
