/** What the data-parallel ranks of the SFT trainer agree on in one training step: stepping or skipping, the
    order of their reductions, and the per-view-type losses (verl/trainer/fsdp_sft_trainer.py:2612-2622,
    2660-2687, 2701-2755, 2781-2788). */
module RankAgreement {
  import opened Wrappers

  // ---------- sorting strings ----------

  /** The order of strings by their characters. */
  predicate Less(a: string, b: string) {
    if b == [] then false
    else if a == [] then true
    else a[0] < b[0] || (a[0] == b[0] && Less(a[1..], b[1..]))
  }

  lemma {:induction false} LessTotal(a: string, b: string)
    ensures a == b || Less(a, b) || Less(b, a)
    ensures !(Less(a, b) && Less(b, a)) && !Less(a, a)
  {
    if a != [] && b != [] {
      LessTotal(a[1..], b[1..]);
      assert a == [a[0]] + a[1..] && b == [b[0]] + b[1..];
    }
    if a != [] {
      LessIrreflexive(a);
    }
  }

  lemma {:induction false} LessIrreflexive(a: string)
    ensures !Less(a, a)
  {
    if a != [] {
      LessIrreflexive(a[1..]);
    }
  }

  lemma {:induction false} LessTransitive(a: string, b: string, c: string)
    requires Less(a, b) && Less(b, c)
    ensures Less(a, c)
  {
    if a != [] && a[0] == b[0] && b[0] == c[0] {
      LessTransitive(a[1..], b[1..], c[1..]);
    }
  }

  predicate Increasing(keys: seq<string>) {
    forall i, j :: 0 <= i < j < |keys| ==> Less(keys[i], keys[j])
  }

  /** The keys in increasing order, each once. */
  ghost predicate SortedListing(keys: seq<string>, all: set<string>) {
    Increasing(keys) && forall k :: k in keys <==> k in all
  }

  /** There is only one sorted listing, whatever order the set was walked in. */
  lemma {:induction false} ListingUnique(a: seq<string>, b: seq<string>, all: set<string>)
    requires SortedListing(a, all) && SortedListing(b, all)
    ensures a == b
  {
    EmptyListing(a, all);
    EmptyListing(b, all);
    if a != [] {
      LargestSame(a, b, all);
      var m, n := |a| - 1, |b| - 1;
      DropLargest(a, all);
      DropLargest(b, all);
      ListingUnique(a[..m], b[..n], all - {a[m]});
    }
  }

  lemma {:induction false} EmptyListing(keys: seq<string>, all: set<string>)
    requires SortedListing(keys, all)
    ensures keys == [] <==> all == {}
  {
    if keys != [] {
      assert keys[0] in keys;
    }
  }

  lemma {:induction false} LargestSame(a: seq<string>, b: seq<string>, all: set<string>)
    requires SortedListing(a, all) && SortedListing(b, all) && a != [] && b != []
    ensures a[|a| - 1] == b[|b| - 1]
  {
    var x, y := a[|a| - 1], b[|b| - 1];
    assert x in b && y in a;
    var i :| 0 <= i < |b| && b[i] == x;
    var j :| 0 <= j < |a| && a[j] == y;
    LessTotal(x, y);
  }

  lemma {:induction false} DropLargest(a: seq<string>, all: set<string>)
    requires SortedListing(a, all) && a != []
    ensures SortedListing(a[..|a| - 1], all - {a[|a| - 1]})
  {
    var m := |a| - 1;
    forall k
      ensures k in a[..m] <==> k in all - {a[m]}
    {
      if k in a[..m] {
        var i :| 0 <= i < m && a[i] == k;
        LessTotal(k, a[m]);
        assert k in a;
      }
      if k in all - {a[m]} {
        assert k in a;
      }
    }
  }

  /** `sorted(keys)`: the set is walked in any order. */
  method SortKeys(all: set<string>) returns (keys: seq<string>)
    ensures SortedListing(keys, all)
  {
    keys := [];
    var rest := all;
    while rest != {}
      invariant rest <= all && SortedListing(keys, all - rest)
      decreases rest
    {
      var k :| k in rest;
      keys := Insert(keys, k, all - rest);
      rest := rest - {k};
      assert all - rest == all - (rest + {k}) + {k};
    }
  }

  method Insert(keys: seq<string>, k: string, ghost all: set<string>) returns (r: seq<string>)
    requires SortedListing(keys, all) && k !in all
    ensures SortedListing(r, all + {k})
  {
    var i := 0;
    while i < |keys| && Less(keys[i], k)
      invariant 0 <= i <= |keys|
      invariant forall j :: 0 <= j < i ==> Less(keys[j], k)
    {
      i := i + 1;
    }
    r := keys[..i] + [k] + keys[i..];
    InsertSorted(keys, k, i, all);
  }

  lemma {:induction false} InsertSorted(keys: seq<string>, k: string, i: nat, all: set<string>)
    requires SortedListing(keys, all) && k !in all && i <= |keys|
    requires forall j :: 0 <= j < i ==> Less(keys[j], k)
    requires i < |keys| ==> !Less(keys[i], k)
    ensures SortedListing(keys[..i] + [k] + keys[i..], all + {k})
  {
    forall j | i <= j < |keys|
      ensures Less(k, keys[j])
    {
      assert keys[i] in keys;
      LessTotal(keys[i], k);
      if j > i {
        LessTransitive(k, keys[i], keys[j]);
      }
    }
    forall x
      ensures x in keys[..i] + [k] + keys[i..] <==> x in all + {k}
    {
      assert keys == keys[..i] + keys[i..];
    }
  }

  // ---------- the state of one rank ----------

  /** The reduced part of a view type's statistics: the loss and whether the rank saw the view type. */
  datatype Entry = Entry(loss: real, valid: real)

  /** Collectives that need every rank, in the order issued. */
  datatype Op = MaxSkip | GatherKeys | AvgLoss | AvgRawLoss | SumLoss(view: string) | SumValid(view: string) | AvgKl

  /** Losses summed over the micro-batches, per view type. */
  function LocalLoss(micro: seq<map<string, real>>): map<string, real> {
    if micro == [] then map[]
    else
      var before, last := LocalLoss(micro[..|micro| - 1]), micro[|micro| - 1];
      map k | k in before.Keys + last.Keys ::
        (if k in before then before[k] else 0.0) + if k in last then last[k] else 0.0
  }

  /** The losses of the micro-batches that have the view type, in order. */
  function MicroLosses(micro: seq<map<string, real>>, k: string): seq<real> {
    if micro == [] then []
    else
      var last := micro[|micro| - 1];
      MicroLosses(micro[..|micro| - 1], k) + if k in last then [last[k]] else []
  }

  function Total(xs: seq<real>): real {
    if xs == [] then 0.0 else Total(xs[..|xs| - 1]) + xs[|xs| - 1]
  }

  /** Some micro-batch has the view type. */
  ghost predicate Has(micro: seq<map<string, real>>, k: string) {
    exists i :: 0 <= i < |micro| && k in micro[i]
  }

  /** The total of one number is the number, and totals of parts add up. */
  lemma {:induction false} TotalAdd(xs: seq<real>, ys: seq<real>)
    ensures Total(xs + ys) == Total(xs) + Total(ys)
    ensures forall x :: Total([x]) == x
  {
    forall x
      ensures Total([x]) == x
    {
      assert [x][..0] == [];
    }
    if ys == [] {
      assert xs + ys == xs;
    } else {
      var m := |ys| - 1;
      assert (xs + ys)[..|xs + ys| - 1] == xs + ys[..m];
      TotalAdd(xs, ys[..m]);
    }
  }

  /** A micro-batch adds its loss of the view type if it has one; lists of parts join. */
  lemma {:induction false} MicroLossesAdd(a: seq<map<string, real>>, b: seq<map<string, real>>, k: string)
    ensures MicroLosses(a + b, k) == MicroLosses(a, k) + MicroLosses(b, k)
    ensures forall m: map<string, real> :: MicroLosses([m], k) == if k in m then [m[k]] else []
  {
    forall m: map<string, real>
      ensures MicroLosses([m], k) == if k in m then [m[k]] else []
    {
      assert [m][..0] == [];
    }
    if b == [] {
      assert a + b == a;
    } else {
      var m := |b| - 1;
      assert (a + b)[..|a + b| - 1] == a + b[..m];
      MicroLossesAdd(a, b[..m], k);
    }
  }

  /** The accumulated losses: a view type is there if and only if some micro-batch has it, with the total of
      the losses of all the micro-batches that have it. */
  lemma {:induction false} LossIsTotal(micro: seq<map<string, real>>, k: string)
    ensures k in LocalLoss(micro) <==> Has(micro, k)
    ensures k in LocalLoss(micro) <==> MicroLosses(micro, k) != []
    ensures k in LocalLoss(micro) ==> LocalLoss(micro)[k] == Total(MicroLosses(micro, k))
  {
    if micro != [] {
      var m := |micro| - 1;
      var init := micro[..m];
      LossIsTotal(init, k);
      HasMore(init, micro[m], k);
      assert micro == init + [micro[m]];
      if k in micro[m] {
        TotalAdd(MicroLosses(init, k), [micro[m][k]]);
      } else {
        assert MicroLosses(micro, k) == MicroLosses(init, k);
      }
    }
  }

  /** The view types of the micro-batches, each with the total of its losses. */
  ghost predicate IsTotal(losses: map<string, real>, micro: seq<map<string, real>>) {
    && (forall k :: k in losses <==> Has(micro, k))
    && (forall k :: k in losses ==> losses[k] == Total(MicroLosses(micro, k)))
  }

  lemma {:induction false} HasMore(init: seq<map<string, real>>, last: map<string, real>, k: string)
    ensures Has(init + [last], k) <==> Has(init, k) || k in last
  {
    var more := init + [last];
    if Has(init, k) {
      var i :| 0 <= i < |init| && k in init[i];
      assert k in more[i];
    }
    if k in last {
      assert k in more[|init|];
    }
  }

  function Seen(losses: map<string, real>): map<string, Entry> {
    map k | k in losses :: Entry(losses[k], 1.0)
  }

  function Union(gathered: seq<seq<string>>): set<string> {
    if gathered == [] then {}
    else Union(gathered[..|gathered| - 1]) + SetOf(gathered[|gathered| - 1])
  }

  function SetOf(keys: seq<string>): set<string> {
    set k | k in keys
  }

  /** View types that only other ranks saw get a zero entry. */
  function Filled(stats: map<string, Entry>, all: set<string>): map<string, Entry> {
    map k | k in stats.Keys + all :: if k in stats then stats[k] else Entry(0.0, 0.0)
  }

  function ViewOps(keys: seq<string>): seq<Op> {
    if keys == [] then []
    else ViewOps(keys[..|keys| - 1]) + [SumLoss(keys[|keys| - 1]), SumValid(keys[|keys| - 1])]
  }

  /** The reduced entries take the place of the local ones. */
  function Stored(stats: map<string, Entry>, sums: map<string, Entry>, keys: seq<string>): map<string, Entry>
    requires forall k :: k in keys ==> k in sums
  {
    if keys == [] then stats
    else
      var k := keys[|keys| - 1];
      Stored(stats, sums, keys[..|keys| - 1])[k := sums[k]]
  }

  lemma {:induction false} StoredEntries(stats: map<string, Entry>, sums: map<string, Entry>, keys: seq<string>)
    requires forall k :: k in keys ==> k in sums
    ensures Stored(stats, sums, keys).Keys == stats.Keys + SetOf(keys)
    ensures forall k :: k in keys ==> Stored(stats, sums, keys)[k] == sums[k]
  {
    if keys != [] {
      var m := |keys| - 1;
      StoredEntries(stats, sums, keys[..m]);
      assert keys == keys[..m] + [keys[m]];
    }
  }

  function Metric(e: Entry): real {
    if e.valid > 0.0 then e.loss / e.valid else 0.0
  }

  function Vote(finite: bool): int {
    if finite then 0 else 1
  }

  class RankStep {
    const distill: bool
    var losses: map<string, real>
    var stats: map<string, Entry>
    var viewKeys: seq<string>
    var stepped: bool
    var ops: seq<Op>

    constructor (distill: bool)
      ensures this.distill == distill && stats == map[] && ops == []
    {
      this.distill, losses, stats, viewKeys, stepped, ops := distill, map[], map[], [], false, [];
    }

    /** Losses by view type, accumulated over the micro-batches of the step. */
    method Accumulate(micro: seq<map<string, real>>)
      modifies this`losses
      ensures losses == LocalLoss(micro)
      ensures IsTotal(losses, micro)
    {
      hide Has, MicroLosses, Total;
      losses := map[];
      for i := 0 to |micro|
        invariant losses == LocalLoss(micro[..i])
      {
        assert micro[..i + 1][..i] == micro[..i];
        var last := micro[i];
        losses := map k | k in losses.Keys + last.Keys ::
          (if k in losses then losses[k] else 0.0) + if k in last then last[k] else 0.0;
      }
      assert micro[..|micro|] == micro;
      forall k
        ensures k in losses <==> Has(micro, k)
        ensures k in losses ==> losses[k] == Total(MicroLosses(micro, k))
      {
        LossIsTotal(micro, k);
      }
    }

    /** Both branches on the gradient norm enter the same reduction, with different votes. */
    method VoteSkip(finite: bool) returns (vote: int)
      modifies this`ops
      ensures vote == Vote(finite) && ops == old(ops) + [MaxSkip]
    {
      if !finite {
        vote := 1;
        ops := ops + [MaxSkip];
      } else {
        vote := 0;
        ops := ops + [MaxSkip];
      }
    }

    /** The reduced vote decides. */
    method ApplyVote(reduced: int)
      modifies this`stepped
      ensures stepped <==> reduced <= 0
    {
      if reduced > 0 {
        stepped := false;
      } else {
        stepped := true;
      }
    }

    /** Mark the view types seen here and offer their names, in whatever order the dictionary has them. */
    method OfferKeys() returns (keys: seq<string>)
      modifies this`stats, this`ops
      ensures stats == Seen(losses) && ops == old(ops) + [GatherKeys]
      ensures forall k :: k in keys <==> k in losses
    {
      stats := map k | k in losses :: Entry(losses[k], 1.0);
      keys := [];
      var rest := losses.Keys;
      while rest != {}
        invariant rest <= losses.Keys && forall k :: k in keys <==> k in losses.Keys - rest
        decreases rest
      {
        var k :| k in rest;
        keys := keys + [k];
        rest := rest - {k};
      }
      ops := ops + [GatherKeys];
    }

    /** The gathered names, sorted; missing view types are filled in. */
    method MergeKeys(gathered: seq<seq<string>>)
      modifies this`viewKeys, this`stats
      ensures SortedListing(viewKeys, Union(gathered))
      ensures stats == Filled(old(stats), Union(gathered))
    {
      var all: set<string> := {};
      for i := 0 to |gathered|
        invariant all == Union(gathered[..i]) && stats == old(stats) && viewKeys == old(viewKeys)
      {
        assert gathered[..i + 1][..i] == gathered[..i];
        all := all + SetOf(gathered[i]);
      }
      assert gathered[..|gathered|] == gathered;
      viewKeys := SortKeys(all);
      FillMissing();
      ListedKeys(viewKeys, all);
    }

    method FillMissing()
      modifies this`stats
      ensures stats == Filled(old(stats), SetOf(viewKeys))
    {
      for i := 0 to |viewKeys|
        invariant stats == Filled(old(stats), SetOf(viewKeys[..i]))
      {
        var k := viewKeys[i];
        assert viewKeys[..i + 1] == viewKeys[..i] + [k];
        if k !in stats {
          stats := stats[k := Entry(0.0, 0.0)];
        }
      }
      assert viewKeys[..|viewKeys|] == viewKeys;
    }

    /** The reductions after the update; `sums` are the reduced entries. */
    method ReduceLosses(sums: map<string, Entry>)
      requires forall k :: k in viewKeys ==> k in sums
      modifies this`stats, this`ops
      ensures ops == old(ops) + [AvgLoss, AvgRawLoss] + ViewOps(viewKeys) + if distill then [AvgKl] else []
      ensures stats.Keys == old(stats).Keys + SetOf(viewKeys)
      ensures forall k :: k in viewKeys ==> stats[k] == sums[k]
    {
      ops := ops + [AvgLoss];
      ops := ops + [AvgRawLoss];
      StoredEntries(stats, sums, viewKeys);
      ReduceViews(sums);
      if distill {
        ops := ops + [AvgKl];
      }
    }

    /** Two reductions for every view type, in sorted order. */
    method ReduceViews(sums: map<string, Entry>)
      requires forall k :: k in viewKeys ==> k in sums
      modifies this`stats, this`ops
      ensures ops == old(ops) + ViewOps(viewKeys) && stats == Stored(old(stats), sums, viewKeys)
    {
      for i := 0 to |viewKeys|
        invariant ops == old(ops) + ViewOps(viewKeys[..i]) && stats == Stored(old(stats), sums, viewKeys[..i])
      {
        assert viewKeys[..i + 1][..i] == viewKeys[..i];
        var k := viewKeys[i];
        ops := ops + [SumLoss(k), SumValid(k)];
        stats := stats[k := sums[k]];
      }
      assert viewKeys[..|viewKeys|] == viewKeys;
    }

    method Metrics() returns (metrics: map<string, real>)
      requires forall k :: k in viewKeys ==> k in stats
      ensures metrics.Keys == SetOf(viewKeys) && forall k :: k in viewKeys ==> metrics[k] == Metric(stats[k])
    {
      metrics := map[];
      for i := 0 to |viewKeys|
        invariant metrics.Keys == SetOf(viewKeys[..i])
        invariant forall k :: k in viewKeys[..i] ==> metrics[k] == Metric(stats[k])
      {
        var k := viewKeys[i];
        assert viewKeys[..i + 1] == viewKeys[..i] + [k];
        if stats[k].valid > 0.0 {
          metrics := metrics[k := stats[k].loss / stats[k].valid];
        } else {
          metrics := metrics[k := 0.0];
        }
      }
      assert viewKeys[..|viewKeys|] == viewKeys;
    }
  }

  // ---------- all ranks ----------

  /** What differs between ranks: whether the gradient norm came out finite, and the micro-batch losses. */
  datatype Rank = Rank(finite: bool, micro: seq<map<string, real>>)

  /** The reduction of the votes by MAX. */
  function MaxVote(ranks: seq<Rank>): int
    requires ranks != []
  {
    var v := Vote(ranks[|ranks| - 1].finite);
    if |ranks| == 1 then v
    else
      var m := MaxVote(ranks[..|ranks| - 1]);
      if v > m then v else m
  }

  lemma {:induction false} VoteIsUnanimous(ranks: seq<Rank>)
    requires ranks != []
    ensures MaxVote(ranks) <= 0 <==> forall r :: 0 <= r < |ranks| ==> ranks[r].finite
  {
    if |ranks| > 1 {
      VoteIsUnanimous(ranks[..|ranks| - 1]);
    }
  }

  /** The losses of all ranks' micro-batches that have the view type. */
  function AllLosses(ranks: seq<Rank>, k: string): seq<real> {
    if ranks == [] then []
    else AllLosses(ranks[..|ranks| - 1], k) + MicroLosses(ranks[|ranks| - 1].micro, k)
  }

  /** The ranks with at least one micro-batch of the view type. */
  ghost function Holders(ranks: seq<Rank>, k: string): set<nat> {
    set r: nat | r < |ranks| && Has(ranks[r].micro, k)
  }

  /** The view types any rank saw. */
  function ViewTypes(ranks: seq<Rank>): set<string> {
    if ranks == [] then {} else ViewTypes(ranks[..|ranks| - 1]) + LocalLoss(ranks[|ranks| - 1].micro).Keys
  }

  /** Every rank offers its own view types, in some order. */
  ghost predicate Offered(ranks: seq<Rank>, gathered: seq<seq<string>>) {
    && |gathered| == |ranks|
    && forall r, k :: 0 <= r < |ranks| ==> (k in gathered[r] <==> Has(ranks[r].micro, k))
  }

  lemma {:induction false} OwnOffer(ranks: seq<Rank>, gathered: seq<seq<string>>, me: nat, offered: seq<string>)
    requires Offered(ranks, gathered) && me < |ranks|
    requires forall k :: k in offered <==> k in LocalLoss(ranks[me].micro)
    ensures Offered(ranks, gathered[me := offered])
  {
    hide Has;
    forall k
      ensures k in offered <==> Has(ranks[me].micro, k)
    {
      LossIsTotal(ranks[me].micro, k);
    }
  }

  lemma {:induction false} UnionIsViewTypes(ranks: seq<Rank>, gathered: seq<seq<string>>)
    requires Offered(ranks, gathered)
    ensures Union(gathered) == ViewTypes(ranks)
  {
    hide Has, LocalLoss;
    if ranks != [] {
      var m := |ranks| - 1;
      UnionIsViewTypes(ranks[..m], gathered[..m]);
      forall k
        ensures k in SetOf(gathered[m]) <==> k in LocalLoss(ranks[m].micro)
      {
        LossIsTotal(ranks[m].micro, k);
      }
    }
  }

  /** What a rank contributes to the reductions of one view type. */
  function Contribution(r: Rank, all: set<string>, k: string): Entry
    requires k in all
  {
    Filled(Seen(LocalLoss(r.micro)), all)[k]
  }

  /** The reduction of both entries by SUM. */
  function Summed(ranks: seq<Rank>, all: set<string>, k: string): Entry
    requires k in all
  {
    if ranks == [] then Entry(0.0, 0.0)
    else
      var before, last := Summed(ranks[..|ranks| - 1], all, k), Contribution(ranks[|ranks| - 1], all, k);
      Entry(before.loss + last.loss, before.valid + last.valid)
  }

  /** The losses of the ranks that saw the view type. */
  function SeenLosses(ranks: seq<Rank>, k: string): seq<real> {
    if ranks == [] then []
    else
      var last := LocalLoss(ranks[|ranks| - 1].micro);
      SeenLosses(ranks[..|ranks| - 1], k) + if k in last then [last[k]] else []
  }

  lemma {:induction false} SummedIsSeen(ranks: seq<Rank>, all: set<string>, k: string)
    requires k in all
    ensures Summed(ranks, all, k) == Entry(Total(SeenLosses(ranks, k)), |SeenLosses(ranks, k)| as real)
  {
    if ranks != [] {
      var m := |ranks| - 1;
      SummedIsSeen(ranks[..m], all, k);
      var last := LocalLoss(ranks[m].micro);
      if k in last {
        var seen := SeenLosses(ranks, k);
        assert seen[..|seen| - 1] == SeenLosses(ranks[..m], k);
      } else {
        assert SeenLosses(ranks, k) == SeenLosses(ranks[..m], k);
      }
    }
  }

  lemma {:induction false} SeenBySome(ranks: seq<Rank>, k: string)
    ensures k in ViewTypes(ranks) <==> SeenLosses(ranks, k) != []
  {
    if ranks != [] {
      SeenBySome(ranks[..|ranks| - 1], k);
    }
  }

  /** The mean of a view type's loss over the ranks that saw it. */
  function MeanLoss(ranks: seq<Rank>, k: string): real
    requires k in ViewTypes(ranks)
  {
    SeenBySome(ranks, k);
    Total(SeenLosses(ranks, k)) / (|SeenLosses(ranks, k)| as real)
  }

  lemma {:induction false} MetricIsMean(ranks: seq<Rank>, k: string)
    requires k in ViewTypes(ranks)
    ensures Metric(Summed(ranks, ViewTypes(ranks), k)) == MeanLoss(ranks, k)
  {
    SummedIsSeen(ranks, ViewTypes(ranks), k);
    SeenBySome(ranks, k);
  }

  lemma {:induction false} HoldersGrow(ranks: seq<Rank>, k: string)
    requires ranks != []
    ensures var m := |ranks| - 1;
            Holders(ranks, k) == Holders(ranks[..m], k) + if Has(ranks[m].micro, k) then {m} else {}
  {
    hide Has;
  }

  lemma {:induction false} LossesOverall(ranks: seq<Rank>, k: string)
    ensures k in ViewTypes(ranks) <==> Holders(ranks, k) != {}
    ensures |SeenLosses(ranks, k)| == |Holders(ranks, k)| && Total(SeenLosses(ranks, k)) == Total(AllLosses(ranks, k))
  {
    hide Has, LocalLoss, MicroLosses;
    if ranks != [] {
      var m := |ranks| - 1;
      LossesOverall(ranks[..m], k);
      HoldersGrow(ranks, k);
      var last := ranks[m].micro;
      LossIsTotal(last, k);
      TotalAdd(AllLosses(ranks[..m], k), MicroLosses(last, k));
      if k in LocalLoss(last) {
        TotalAdd(SeenLosses(ranks[..m], k), [LocalLoss(last)[k]]);
      } else {
        assert SeenLosses(ranks, k) == SeenLosses(ranks[..m], k);
      }
    }
  }

  /** Some micro-batch of some rank has the view type. */
  ghost predicate Anywhere(ranks: seq<Rank>, k: string) {
    exists r :: 0 <= r < |ranks| && Has(ranks[r].micro, k)
  }

  /** The mean over the ranks in terms of the micro-batches: the total of all their losses of the view type over
      the number of ranks with at least one. */
  ghost predicate IsMean(ranks: seq<Rank>, k: string, mean: real) {
    var holders := |Holders(ranks, k)|;
    holders > 0 && mean == Total(AllLosses(ranks, k)) / (holders as real)
  }

  lemma {:induction false} MeanOverMicros(ranks: seq<Rank>, k: string)
    ensures k in ViewTypes(ranks) <==> Anywhere(ranks, k)
    ensures k in ViewTypes(ranks) ==> IsMean(ranks, k, MeanLoss(ranks, k))
  {
    hide Has, ViewTypes, SeenLosses, AllLosses, Total;
    LossesOverall(ranks, k);
    if Anywhere(ranks, k) {
      var r :| 0 <= r < |ranks| && Has(ranks[r].micro, k);
      assert r in Holders(ranks, k);
    }
    if Holders(ranks, k) != {} {
      var r :| r in Holders(ranks, k);
      assert Has(ranks[r].micro, k);
    }
  }

  /** Two reductions for every view type, the i-th ones for the i-th view type. */
  lemma {:induction false} ViewOpsAt(keys: seq<string>, i: nat)
    requires i < |keys|
    ensures |ViewOps(keys)| == 2 * |keys|
    ensures ViewOps(keys)[2 * i] == SumLoss(keys[i]) && ViewOps(keys)[2 * i + 1] == SumValid(keys[i])
  {
    var m := |keys| - 1;
    if i < m {
      ViewOpsAt(keys[..m], i);
    } else if m > 0 {
      ViewOpsAt(keys[..m], 0);
    }
  }

  function StepOps(distill: bool, keys: seq<string>): seq<Op> {
    [MaxSkip, GatherKeys] + [AvgLoss, AvgRawLoss] + ViewOps(keys) + if distill then [AvgKl] else []
  }

  /** One training step of rank `me`, every collective answered from what all ranks contribute; `gathered` lists
      the names the ranks offer, each in an order of its own. None of the outcomes depends on `me`: all ranks
      step or all skip, stepping exactly when every gradient norm is finite; all issue the same collectives in
      the same order; and each reports for every view type that any micro-batch of any rank has the mean over
      the ranks that saw it. */
  method TrainingStep(ranks: seq<Rank>, me: nat, distill: bool, gathered: seq<seq<string>>)
    returns (stepped: bool, ops: seq<Op>, metrics: map<string, real>)
    requires me < |ranks| && Offered(ranks, gathered)
    ensures stepped <==> forall r :: 0 <= r < |ranks| ==> ranks[r].finite
    ensures forall keys :: SortedListing(keys, ViewTypes(ranks)) ==> ops == StepOps(distill, keys)
    ensures forall k :: k in ViewTypes(ranks) <==> Anywhere(ranks, k)
    ensures metrics.Keys == ViewTypes(ranks) && forall k :: k in metrics ==> IsMean(ranks, k, metrics[k])
  {
    hide Anywhere, IsMean, Less, MeanLoss, ViewTypes, SortedListing, ViewOps, Offered;
    var rank := UntilGathered(ranks, me, distill, gathered);
    metrics := Report(rank, ranks);
    stepped, ops := rank.stepped, rank.ops;
    OpsAreAgreed(distill, rank.viewKeys, ViewTypes(ranks), ops);
    AllMeans(ranks);
  }

  /** The part of the step up to the gathered names. */
  method UntilGathered(ranks: seq<Rank>, me: nat, distill: bool, gathered: seq<seq<string>>) returns (rank: RankStep)
    requires me < |ranks| && Offered(ranks, gathered)
    ensures fresh(rank) && rank.distill == distill && rank.ops == [MaxSkip, GatherKeys]
    ensures rank.stepped <==> forall r :: 0 <= r < |ranks| ==> ranks[r].finite
    ensures IsTotal(rank.losses, ranks[me].micro) && SortedListing(rank.viewKeys, ViewTypes(ranks))
    ensures rank.stats == Filled(Seen(LocalLoss(ranks[me].micro)), ViewTypes(ranks))
  {
    assert |gathered| == |ranks|;
    hide Filled, Seen, IsTotal, Less, LocalLoss, SetOf, Union, ViewTypes, SortedListing, MaxVote, Offered;
    VoteIsUnanimous(ranks);
    rank := new RankStep(distill);
    rank.Accumulate(ranks[me].micro);
    var vote := rank.VoteSkip(ranks[me].finite);
    assert vote == Vote(ranks[me].finite);
    rank.ApplyVote(MaxVote(ranks));
    var offered := rank.OfferKeys();
    var answer := gathered[me := offered];
    OwnOffer(ranks, gathered, me, offered);
    UnionIsViewTypes(ranks, answer);
    rank.MergeKeys(answer);
  }

  /** The reductions after the update, answered by SUM over all ranks, and the metrics made of them. */
  method Report(rank: RankStep, ranks: seq<Rank>) returns (metrics: map<string, real>)
    requires SortedListing(rank.viewKeys, ViewTypes(ranks))
    modifies rank`stats, rank`ops
    ensures rank.ops
         == old(rank.ops) + [AvgLoss, AvgRawLoss] + ViewOps(rank.viewKeys) + if rank.distill then [AvgKl] else []
    ensures metrics.Keys == ViewTypes(ranks) && forall k :: k in metrics ==> metrics[k] == MeanLoss(ranks, k)
  {
    hide Less, SetOf, Metric, Summed, MeanLoss, ViewTypes, SortedListing, ViewOps;
    var all := ViewTypes(ranks);
    ListedKeys(rank.viewKeys, all);
    var sums := map k | k in all :: Summed(ranks, all, k);
    rank.ReduceLosses(sums);
    metrics := rank.Metrics();
    MetricsAreMeans(ranks, all, rank.viewKeys, metrics);
  }

  lemma {:induction false} MetricsAreMeans(ranks: seq<Rank>, all: set<string>, keys: seq<string>, metrics: map<string, real>)
    requires all == ViewTypes(ranks) && SortedListing(keys, all) && metrics.Keys == SetOf(keys)
    requires forall k :: k in keys ==> k in all && metrics[k] == Metric(Summed(ranks, all, k))
    ensures metrics.Keys == ViewTypes(ranks) && forall k :: k in metrics ==> metrics[k] == MeanLoss(ranks, k)
  {
    ListedKeys(keys, all);
    hide Less, Metric, Summed, MeanLoss, ViewTypes, SetOf;
    forall k | k in metrics
      ensures k in ViewTypes(ranks) && metrics[k] == MeanLoss(ranks, k)
    {
      MetricIsMean(ranks, k);
    }
  }

  lemma {:induction false} AllMeans(ranks: seq<Rank>)
    ensures forall k :: k in ViewTypes(ranks) <==> Anywhere(ranks, k)
    ensures forall k :: k in ViewTypes(ranks) ==> IsMean(ranks, k, MeanLoss(ranks, k))
  {
    hide Anywhere, ViewTypes, MeanLoss, IsMean;
    forall k
      ensures k in ViewTypes(ranks) <==> Anywhere(ranks, k)
      ensures k in ViewTypes(ranks) ==> IsMean(ranks, k, MeanLoss(ranks, k))
    {
      MeanOverMicros(ranks, k);
    }
  }

  lemma {:induction false} OpsAreAgreed(distill: bool, mine: seq<string>, all: set<string>, ops: seq<Op>)
    requires SortedListing(mine, all) && ops == StepOps(distill, mine)
    ensures forall keys :: SortedListing(keys, all) ==> ops == StepOps(distill, keys)
  {
    forall keys | SortedListing(keys, all)
      ensures ops == StepOps(distill, keys)
    {
      ListingUnique(keys, mine, all);
    }
  }

  lemma {:induction false} ListedKeys(keys: seq<string>, all: set<string>)
    requires SortedListing(keys, all)
    ensures SetOf(keys) == all && forall k :: k in keys <==> k in all
  {}
}
