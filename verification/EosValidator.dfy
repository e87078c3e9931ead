/** `_validate_packed_eos_supervision` (verl/trainer/fsdp_sft_trainer.py:1539-1769): which end-of-sequence
    tokens of packed sequences count as the assistant's, and whether the loss covers them. */
module EosValidator {
  import opened Wrappers

  const LOOKBACK := 100

  /** One packed row: token ids, loss mask and attention mask of one length. */
  datatype Pack = Pack(ids: seq<int>, loss: seq<int>, attention: seq<int>)

  predicate PackOk(p: Pack) {
    |p.ids| == |p.loss| == |p.attention|
  }

  /** Subsequence bounds as given: one list per pack, one list for all packs, or something else. */
  datatype CuSeqlens = PerPack(lists: seq<seq<int>>) | Shared(bounds: seq<int>) | Unknown

  datatype Kind = NoBounds | NoValidTokens | NotSupervised(positions: seq<int>) | NoEos(token: int, pos: int)

  datatype Issue = Issue(pack: nat, subseq: int, kind: Kind)

  datatype Tally = Tally(packs: nat, total: nat, found: nat, supervised: nat, unsupervised: nat, noEos: nat,
                         withEos: nat, allSupervised: nat, someUnsupervised: nat, issues: seq<Issue>)

  function Min(x: int, y: int): int { if x <= y then x else y }

  function Max(x: int, y: int): int { if x <= y then y else x }

  // ---------- what is recorded ----------

  function ClampedStart(size: nat, start: int): nat {
    Max(0, Min(start, size - 1))
  }

  function ClampedEnd(size: nat, start: nat, end: int): nat {
    Max(start + 1, Min(end, size))
  }

  predicate IsValid(p: Pack, pos: int)
    requires PackOk(p)
  {
    0 <= pos < |p.ids| && p.attention[pos] == 1
  }

  /** Offsets of the attended tokens from `start` on, in order. */
  function ValidOffsets(p: Pack, start: nat, end: nat): seq<nat>
    requires PackOk(p) && start <= end
    decreases end
  {
    if end == start then []
    else ValidOffsets(p, start, end - 1) + if IsValid(p, end - 1) then [end - 1 - start] else []
  }

  predicate SupervisedBefore(p: Pack, start: nat, pos: int)
    requires PackOk(p) && pos <= |p.ids|
  {
    exists q :: Max(start, pos - LOOKBACK) <= q < pos && p.loss[q] == 1
  }

  /** An end token of the assistant: supervised itself, or behind a supervised token of its subsequence. */
  predicate AssistantEos(p: Pack, eos: int, start: nat, pos: int)
    requires PackOk(p) && 0 <= pos < |p.ids|
  {
    p.ids[pos] == eos && (p.loss[pos] == 1 || SupervisedBefore(p, start, pos))
  }

  function Recorded(p: Pack, eos: int, start: nat, offsets: seq<nat>): seq<int>
    requires PackOk(p)
  {
    if offsets == [] then []
    else
      var pos := start + offsets[|offsets| - 1];
      Recorded(p, eos, start, offsets[..|offsets| - 1])
      + if pos < |p.ids| && AssistantEos(p, eos, start, pos) then [pos] else []
  }

  function RecordedIn(p: Pack, eos: int, start: nat, end: nat): seq<int>
    requires PackOk(p) && start <= end
  {
    Recorded(p, eos, start, ValidOffsets(p, start, end))
  }

  lemma {:induction false} OffsetsExactly(p: Pack, start: nat, end: nat, o: nat)
    requires PackOk(p) && start <= end
    ensures o in ValidOffsets(p, start, end) <==> start + o < end && IsValid(p, start + o)
    decreases end
  {
    if end > start {
      OffsetsExactly(p, start, end - 1, o);
    }
  }

  lemma {:induction false} RecordedFrom(p: Pack, eos: int, start: nat, offsets: seq<nat>, pos: int)
    requires PackOk(p)
    ensures pos in Recorded(p, eos, start, offsets)
       <==> start <= pos < |p.ids| && pos - start in offsets && AssistantEos(p, eos, start, pos)
  {
    if offsets != [] {
      RecordedFrom(p, eos, start, offsets[..|offsets| - 1], pos);
    }
  }

  /** A position is recorded exactly when it is an attended end token of the subsequence that is supervised or
      has a supervised token among the up to 100 positions before it in the subsequence. */
  lemma {:induction false} RecordedExactly(p: Pack, eos: int, start: nat, end: nat, pos: int)
    requires PackOk(p) && start <= end
    ensures pos in RecordedIn(p, eos, start, end)
       <==> start <= pos < end && pos < |p.ids| && p.attention[pos] == 1 && p.ids[pos] == eos
            && (p.loss[pos] == 1 || exists q :: start <= q < pos && pos - 100 <= q && p.loss[q] == 1)
  {
    hide Recorded, ValidOffsets, SupervisedBefore;
    RecordedFrom(p, eos, start, ValidOffsets(p, start, end), pos);
    if start <= pos {
      OffsetsExactly(p, start, end, pos - start);
      if pos < |p.ids| {
        LookbackRange(p, start, pos);
      }
    }
  }

  lemma {:induction false} LookbackRange(p: Pack, start: nat, pos: int)
    requires PackOk(p) && start <= pos <= |p.ids|
    ensures SupervisedBefore(p, start, pos) <==> exists q :: start <= q < pos && pos - 100 <= q && p.loss[q] == 1
  {
    if SupervisedBefore(p, start, pos) {
      var q :| Max(start, pos - LOOKBACK) <= q < pos && p.loss[q] == 1;
      assert start <= q < pos && pos - 100 <= q && p.loss[q] == 1;
    }
  }

  predicate Ascending(s: seq<int>) {
    forall i, j :: 0 <= i < j < |s| ==> s[i] < s[j]
  }

  lemma {:induction false} OffsetsAscend(p: Pack, start: nat, end: nat)
    requires PackOk(p) && start <= end
    ensures Ascending(ValidOffsets(p, start, end))
    decreases end
  {
    if end > start {
      OffsetsAscend(p, start, end - 1);
      var before := ValidOffsets(p, start, end - 1);
      forall i | 0 <= i < |before|
        ensures before[i] < end - 1 - start
      {
        OffsetsExactly(p, start, end - 1, before[i]);
      }
    }
  }

  lemma {:induction false} RecordedKeepsOrder(p: Pack, eos: int, start: nat, offsets: seq<nat>)
    requires PackOk(p) && Ascending(offsets)
    ensures Ascending(Recorded(p, eos, start, offsets))
  {
    if offsets != [] {
      var m := |offsets| - 1;
      RecordedKeepsOrder(p, eos, start, offsets[..m]);
      var before := Recorded(p, eos, start, offsets[..m]);
      forall i | 0 <= i < |before|
        ensures before[i] < start + offsets[m]
      {
        RecordedFrom(p, eos, start, offsets[..m], before[i]);
      }
    }
  }

  /** Every position is recorded once, in order. */
  lemma {:induction false} RecordedAscend(p: Pack, eos: int, start: nat, end: nat)
    requires PackOk(p) && start <= end
    ensures Ascending(RecordedIn(p, eos, start, end))
  {
    OffsetsAscend(p, start, end);
    RecordedKeepsOrder(p, eos, start, ValidOffsets(p, start, end));
  }

  /** Bounds inside the row are used as they are; any others are pulled inside. */
  lemma {:induction false} Clamping(size: nat, start: int, end: int)
    requires size > 0
    ensures var s := ClampedStart(size, start); 0 <= s < ClampedEnd(size, s, end) <= size
    ensures 0 <= start < end <= size ==> ClampedStart(size, start) == start && ClampedEnd(size, start, end) == end
    ensures start >= size ==> ClampedStart(size, start) == size - 1 && ClampedEnd(size, size - 1, end) == size
    ensures start < 0 ==> ClampedStart(size, start) == 0
    ensures 0 <= start < size < end ==> ClampedEnd(size, start, end) == size
    ensures end <= ClampedStart(size, start) ==> ClampedEnd(size, ClampedStart(size, start), end) == ClampedStart(size, start) + 1
  {}

  // ---------- what is counted ----------

  function Covered(p: Pack, positions: seq<int>): seq<int>
    requires PackOk(p)
  {
    if positions == [] then []
    else
      var pos := positions[|positions| - 1];
      Covered(p, positions[..|positions| - 1]) + if 0 <= pos < |p.ids| && p.loss[pos] == 1 then [pos] else []
  }

  function Uncovered(p: Pack, positions: seq<int>): seq<int>
    requires PackOk(p)
  {
    if positions == [] then []
    else
      var pos := positions[|positions| - 1];
      Uncovered(p, positions[..|positions| - 1]) + if 0 <= pos < |p.ids| && p.loss[pos] == 1 then [] else [pos]
  }

  /** What one subsequence adds. */
  function AddSubseq(t: Tally, p: Pack, eos: int, pack: nat, subseq: nat, start: int, end: int): Tally
    requires PackOk(p)
  {
    if end <= start then t
    else
      var s := ClampedStart(|p.ids|, start);
      var e := ClampedEnd(|p.ids|, s, end);
      AddClamped(t, p, eos, pack, subseq, s, e)
  }

  function AddClamped(t: Tally, p: Pack, eos: int, pack: nat, subseq: nat, start: nat, end: nat): Tally
    requires PackOk(p) && start <= end
  {
    var offsets := ValidOffsets(p, start, end);
    if offsets == [] then t.(issues := t.issues + [Issue(pack, subseq, NoValidTokens)])
    else
      var positions := Recorded(p, eos, start, offsets);
      if positions != [] then AddEos(t, p, pack, subseq, positions)
      else
        var pos := start + offsets[|offsets| - 1];
        t.(noEos := t.noEos + 1,
           issues := t.issues + [Issue(pack, subseq, NoEos(if pos < |p.ids| then p.ids[pos] else 0, pos))])
  }

  function AddEos(t: Tally, p: Pack, pack: nat, subseq: nat, positions: seq<int>): Tally
    requires PackOk(p)
  {
    var good, bad := Covered(p, positions), Uncovered(p, positions);
    Tally(t.packs, t.total, t.found + |positions|, t.supervised + |good|, t.unsupervised + |bad|, t.noEos, t.withEos + 1,
          t.allSupervised + if bad == [] then 1 else 0, t.someUnsupervised + if bad == [] then 0 else 1,
          t.issues + if bad == [] then [] else [Issue(pack, subseq, NotSupervised(bad))])
  }

  /** The first n subsequences of a pack. */
  function AddSubseqs(t: Tally, p: Pack, eos: int, pack: nat, bounds: seq<int>, n: nat): Tally
    requires PackOk(p) && n < |bounds|
  {
    if n == 0 then t
    else AddSubseq(AddSubseqs(t, p, eos, pack, bounds, n - 1), p, eos, pack, n - 1, bounds[n - 1], bounds[n])
  }

  function AddPack(t: Tally, p: Pack, eos: int, pack: nat, lists: seq<seq<int>>): Tally
    requires PackOk(p)
  {
    if pack >= |lists| then t.(issues := t.issues + [Issue(pack, -1, NoBounds)])
    else if |lists[pack]| <= 1 then t
    else
      var n := |lists[pack]| - 1;
      AddSubseqs(t.(total := t.total + n), p, eos, pack, lists[pack], n)
  }

  ghost predicate AllPacksOk(packs: seq<Pack>) {
    forall i :: 0 <= i < |packs| ==> PackOk(packs[i])
  }

  ghost function AddPacks(t: Tally, packs: seq<Pack>, eos: int, lists: seq<seq<int>>, n: nat): Tally
    requires AllPacksOk(packs) && n <= |packs|
  {
    if n == 0 then t else AddPack(AddPacks(t, packs, eos, lists, n - 1), packs[n - 1], eos, n - 1, lists)
  }

  function Empty(packs: nat): Tally {
    Tally(packs, 0, 0, 0, 0, 0, 0, 0, 0, [])
  }

  function Lists(cu: CuSeqlens, packs: nat): Option<seq<seq<int>>> {
    match cu
    case PerPack(lists) => Some(lists)
    case Shared(bounds) => Some(seq(packs, i => bounds))
    case Unknown => None
  }

  // ---------- the code ----------

  class Validator {
    var packs: nat
    var total: nat
    var found: nat
    var supervised: nat
    var unsupervised: nat
    var noEos: nat
    var withEos: nat
    var allSupervised: nat
    var someUnsupervised: nat
    var issues: seq<Issue>

    ghost function Now(): Tally
      reads this
    {
      Tally(packs, total, found, supervised, unsupervised, noEos, withEos, allSupervised, someUnsupervised, issues)
    }

    constructor (batchSize: nat)
      ensures Now() == Empty(batchSize)
    {
      packs, total, found, supervised, unsupervised := batchSize, 0, 0, 0, 0;
      noEos, withEos, allSupervised, someUnsupervised, issues := 0, 0, 0, 0, [];
    }

    /** All packs; false means that there was nothing to validate with. */
    method Validate(rows: seq<Pack>, eosId: Option<int>, cu: CuSeqlens) returns (done: bool)
      requires AllPacksOk(rows) && Now() == Empty(|rows|)
      modifies this
      ensures done <==> eosId.Some? && !cu.Unknown?
      ensures done ==> Now() == AddPacks(Empty(|rows|), rows, eosId.value, Lists(cu, |rows|).value, |rows|)
    {
      if eosId.None? {
        return false;
      }
      var lists := Lists(cu, |rows|);
      if lists.None? {
        return false;
      }
      hide AddPacks, Lists, AllPacksOk;
      CheckPacks(rows, eosId.value, lists.value);
      return true;
    }

    method CheckPacks(rows: seq<Pack>, eos: int, lists: seq<seq<int>>)
      requires AllPacksOk(rows)
      modifies this
      ensures Now() == AddPacks(old(Now()), rows, eos, lists, |rows|)
    {
      hide AddPack;
      ghost var before := Now();
      for i := 0 to |rows|
        invariant Now() == AddPacks(before, rows, eos, lists, i)
      {
        CheckPack(rows[i], eos, i, lists);
      }
    }

    method CheckPack(p: Pack, eos: int, pack: nat, lists: seq<seq<int>>)
      requires PackOk(p)
      modifies this
      ensures Now() == AddPack(old(Now()), p, eos, pack, lists)
    {
      if pack >= |lists| {
        issues := issues + [Issue(pack, -1, NoBounds)];
        return;
      }
      var bounds := lists[pack];
      var n := |bounds| - 1;
      if n <= 0 {
        return;
      }
      hide AddSubseqs;
      total := total + n;
      CheckSubseqs(p, eos, pack, bounds, n);
    }

    method CheckSubseqs(p: Pack, eos: int, pack: nat, bounds: seq<int>, n: nat)
      requires PackOk(p) && n < |bounds|
      modifies this
      ensures Now() == AddSubseqs(old(Now()), p, eos, pack, bounds, n)
    {
      hide AddSubseq;
      ghost var before := Now();
      for i := 0 to n
        invariant Now() == AddSubseqs(before, p, eos, pack, bounds, i)
      {
        CheckSubseq(p, eos, pack, i, bounds[i], bounds[i + 1]);
      }
    }

    method CheckSubseq(p: Pack, eos: int, pack: nat, subseq: nat, start: int, end: int)
      requires PackOk(p)
      modifies this
      ensures Now() == AddSubseq(old(Now()), p, eos, pack, subseq, start, end)
    {
      hide ValidOffsets, Recorded, AddEos;
      if end <= start {
        return;
      }
      var s := Max(0, Min(start, |p.ids| - 1));
      var e := Max(s + 1, Min(end, |p.ids|));
      var valid := ValidOffsets(p, s, e);
      if valid == [] {
        issues := issues + [Issue(pack, subseq, NoValidTokens)];
        return;
      }
      var positions := EosPositions(p, eos, s, valid);
      if positions != [] {
        CountEos(p, pack, subseq, positions);
      } else {
        var pos := s + valid[|valid| - 1];
        LastIsInside(p, s, e);
        noEos := noEos + 1;
        issues := issues + [Issue(pack, subseq, NoEos(p.ids[pos], pos))];
      }
    }

    method EosPositions(p: Pack, eos: int, start: nat, valid: seq<nat>) returns (positions: seq<int>)
      requires PackOk(p)
      ensures positions == Recorded(p, eos, start, valid)
    {
      hide SupervisedBefore;
      positions := [];
      for i := 0 to |valid|
        invariant positions == Recorded(p, eos, start, valid[..i])
      {
        assert valid[..i + 1][..i] == valid[..i];
        var pos := start + valid[i];
        if pos < |p.ids| && p.ids[pos] == eos {
          if p.loss[pos] == 1 {
            positions := positions + [pos];
          } else {
            var likely := LooksBack(p, start, pos);
            if likely {
              positions := positions + [pos];
            }
          }
        }
      }
      assert valid[..|valid|] == valid;
    }

    /** Is there a supervised token shortly before, searching backwards? */
    method LooksBack(p: Pack, start: nat, pos: int) returns (likely: bool)
      requires PackOk(p) && start <= pos <= |p.ids|
      ensures likely <==> SupervisedBefore(p, start, pos)
    {
      var first := Max(start, pos - LOOKBACK);
      var q := pos - 1;
      while q >= first
        invariant first - 1 <= q < pos
        invariant forall r :: q < r < pos ==> p.loss[r] != 1
      {
        if p.loss[q] == 1 {
          return true;
        }
        q := q - 1;
      }
      return false;
    }

    method CountEos(p: Pack, pack: nat, subseq: nat, positions: seq<int>)
      requires PackOk(p)
      modifies this
      ensures Now() == AddEos(old(Now()), p, pack, subseq, positions)
    {
      withEos := withEos + 1;
      found := found + |positions|;
      var missed: seq<int> := [];
      ghost var before := Now();
      for i := 0 to |positions|
        invariant missed == Uncovered(p, positions[..i])
        invariant Now() == before.(supervised := before.supervised + |Covered(p, positions[..i])|,
                                   unsupervised := before.unsupervised + |missed|)
      {
        assert positions[..i + 1][..i] == positions[..i];
        var pos := positions[i];
        if 0 <= pos < |p.ids| && p.loss[pos] == 1 {
          supervised := supervised + 1;
        } else {
          unsupervised := unsupervised + 1;
          missed := missed + [pos];
        }
      }
      assert positions[..|positions|] == positions;
      if missed == [] {
        allSupervised := allSupervised + 1;
      } else {
        someUnsupervised := someUnsupervised + 1;
        issues := issues + [Issue(pack, subseq, NotSupervised(missed))];
      }
    }
  }

  /** The last attended token lies in the row. */
  lemma {:induction false} LastIsInside(p: Pack, start: nat, end: nat)
    requires PackOk(p) && start <= end && ValidOffsets(p, start, end) != []
    ensures var o := ValidOffsets(p, start, end); start + o[|o| - 1] < |p.ids|
  {
    var o := ValidOffsets(p, start, end);
    OffsetsExactly(p, start, end, o[|o| - 1]);
  }

  // ---------- the books balance ----------

  /** The subsequences that are passed over: empty ones and those without attended tokens. */
  predicate Passed(p: Pack, start: int, end: int)
    requires PackOk(p)
  {
    end <= start ||
    var s := ClampedStart(|p.ids|, start);
    ValidOffsets(p, s, ClampedEnd(|p.ids|, s, end)) == []
  }

  function PassedSubseqs(p: Pack, bounds: seq<int>, n: nat): nat
    requires PackOk(p) && n < |bounds|
  {
    if n == 0 then 0
    else PassedSubseqs(p, bounds, n - 1) + if Passed(p, bounds[n - 1], bounds[n]) then 1 else 0
  }

  ghost function PassedPacks(packs: seq<Pack>, lists: seq<seq<int>>, n: nat): nat
    requires AllPacksOk(packs) && n <= |packs|
  {
    if n == 0 then 0 else PassedPacks(packs, lists, n - 1) + PassedPack(packs[n - 1], n - 1, lists)
  }

  /** Every subsequence seen so far is with end token, without, or passed over; `open` are still to be seen. */
  ghost predicate Balanced(t: Tally, passed: nat, open: nat) {
    && t.found == t.supervised + t.unsupervised
    && t.withEos == t.allSupervised + t.someUnsupervised
    && t.withEos + t.noEos + passed + open == t.total
    && t.withEos <= t.found && t.someUnsupervised <= t.unsupervised
    && (t.unsupervised == 0 <==> t.someUnsupervised == 0)
  }

  lemma {:induction false} CoveredOrNot(p: Pack, positions: seq<int>)
    requires PackOk(p)
    ensures |Covered(p, positions)| + |Uncovered(p, positions)| == |positions|
  {
    if positions != [] {
      CoveredOrNot(p, positions[..|positions| - 1]);
    }
  }

  lemma {:induction false} SubseqBalances(t: Tally, p: Pack, eos: int, pack: nat, subseq: nat, start: int, end: int, passed: nat, open: nat)
    requires PackOk(p) && Balanced(t, passed, open + 1)
    ensures Balanced(AddSubseq(t, p, eos, pack, subseq, start, end), passed + (if Passed(p, start, end) then 1 else 0), open)
  {
    hide ValidOffsets, Recorded, Covered, Uncovered;
    if end > start {
      var s := ClampedStart(|p.ids|, start);
      var e := ClampedEnd(|p.ids|, s, end);
      CoveredOrNot(p, RecordedIn(p, eos, s, e));
    }
  }

  lemma {:induction false} SubseqsBalance(t: Tally, p: Pack, eos: int, pack: nat, bounds: seq<int>, n: nat, passed: nat, open: nat)
    requires PackOk(p) && n < |bounds| && Balanced(t, passed, open + n)
    ensures Balanced(AddSubseqs(t, p, eos, pack, bounds, n), passed + PassedSubseqs(p, bounds, n), open)
  {
    hide AddSubseq, Passed, Balanced;
    if n > 0 {
      SubseqsBalance(t, p, eos, pack, bounds, n - 1, passed, open + 1);
      var before := AddSubseqs(t, p, eos, pack, bounds, n - 1);
      SubseqBalances(before, p, eos, pack, n - 1, bounds[n - 1], bounds[n], passed + PassedSubseqs(p, bounds, n - 1), open);
    }
  }

  function PassedPack(p: Pack, pack: nat, lists: seq<seq<int>>): nat
    requires PackOk(p)
  {
    if pack < |lists| && |lists[pack]| > 1 then PassedSubseqs(p, lists[pack], |lists[pack]| - 1) else 0
  }

  lemma {:induction false} PackBalances(t: Tally, p: Pack, eos: int, pack: nat, lists: seq<seq<int>>, passed: nat)
    requires PackOk(p) && Balanced(t, passed, 0)
    ensures Balanced(AddPack(t, p, eos, pack, lists), passed + PassedPack(p, pack, lists), 0)
  {
    hide AddSubseqs, PassedSubseqs;
    if pack < |lists| && |lists[pack]| > 1 {
      var k := |lists[pack]| - 1;
      SubseqsBalance(t.(total := t.total + k), p, eos, pack, lists[pack], k, passed, 0);
    }
  }

  lemma {:induction false} PacksBalance(t: Tally, packs: seq<Pack>, eos: int, lists: seq<seq<int>>, n: nat, passed: nat)
    requires AllPacksOk(packs) && n <= |packs| && Balanced(t, passed, 0)
    ensures Balanced(AddPacks(t, packs, eos, lists, n), passed + PassedPacks(packs, lists, n), 0)
  {
    hide AddPack, PassedPack, Balanced;
    if n > 0 {
      PacksBalance(t, packs, eos, lists, n - 1, passed);
      var before := AddPacks(t, packs, eos, lists, n - 1);
      PackBalances(before, packs[n - 1], eos, n - 1, lists, passed + PassedPacks(packs, lists, n - 1));
    }
  }

  /** Of every report: found is supervised plus unsupervised; with-EOS is all-supervised plus some-unsupervised;
      with-EOS, no-EOS and passed-over subsequences add up to the total. */
  lemma {:induction false} ReportBalances(packs: seq<Pack>, eos: int, lists: seq<seq<int>>)
    requires AllPacksOk(packs)
    ensures var t := AddPacks(Empty(|packs|), packs, eos, lists, |packs|);
            && t.found == t.supervised + t.unsupervised
            && t.withEos == t.allSupervised + t.someUnsupervised
            && t.withEos + t.noEos + PassedPacks(packs, lists, |packs|) == t.total
            && (t.unsupervised == 0 <==> t.someUnsupervised == 0)
  {
    PacksBalance(Empty(|packs|), packs, eos, lists, |packs|, 0);
  }

  // ---------- when nothing is reported ----------

  /** A subsequence without complaint: empty, or with assistant end tokens that are all supervised. */
  ghost predicate Fine(p: Pack, eos: int, start: int, end: int)
    requires PackOk(p)
  {
    end <= start ||
    var s := ClampedStart(|p.ids|, start);
    var e := ClampedEnd(|p.ids|, s, end);
    var positions := RecordedIn(p, eos, s, e);
    positions != [] && AllCovered(p, positions)
  }

  predicate CoveredAt(p: Pack, pos: int)
    requires PackOk(p)
  {
    0 <= pos < |p.ids| && p.loss[pos] == 1
  }

  predicate AllCovered(p: Pack, positions: seq<int>)
    requires PackOk(p)
  {
    forall i :: 0 <= i < |positions| ==> CoveredAt(p, positions[i])
  }

  ghost predicate PackFine(p: Pack, eos: int, pack: nat, lists: seq<seq<int>>)
    requires PackOk(p)
  {
    pack < |lists| && forall i :: 0 <= i < |lists[pack]| - 1 ==> Fine(p, eos, lists[pack][i], lists[pack][i + 1])
  }

  lemma {:induction false} NothingUncovered(p: Pack, positions: seq<int>)
    requires PackOk(p)
    ensures Uncovered(p, positions) == [] <==> AllCovered(p, positions)
  {
    if positions != [] {
      NothingUncovered(p, positions[..|positions| - 1]);
    }
  }

  lemma {:induction false} SubseqFine(t: Tally, p: Pack, eos: int, pack: nat, subseq: nat, start: int, end: int)
    requires PackOk(p)
    ensures AddSubseq(t, p, eos, pack, subseq, start, end).issues == [] <==> t.issues == [] && Fine(p, eos, start, end)
  {
    if end > start {
      var s := ClampedStart(|p.ids|, start);
      var e := ClampedEnd(|p.ids|, s, end);
      NothingUncovered(p, RecordedIn(p, eos, s, e));
      hide ValidOffsets, Covered, Uncovered, AllCovered;
    }
  }

  lemma {:induction false} SubseqsFine(t: Tally, p: Pack, eos: int, pack: nat, bounds: seq<int>, n: nat)
    requires PackOk(p) && n < |bounds|
    ensures AddSubseqs(t, p, eos, pack, bounds, n).issues == []
       <==> t.issues == [] && forall i :: 0 <= i < n ==> Fine(p, eos, bounds[i], bounds[i + 1])
  {
    hide AddSubseq, Fine;
    if n > 0 {
      SubseqsFine(t, p, eos, pack, bounds, n - 1);
      SubseqFine(AddSubseqs(t, p, eos, pack, bounds, n - 1), p, eos, pack, n - 1, bounds[n - 1], bounds[n]);
    }
  }

  lemma {:induction false} PackFineStep(t: Tally, p: Pack, eos: int, pack: nat, lists: seq<seq<int>>)
    requires PackOk(p)
    ensures AddPack(t, p, eos, pack, lists).issues == [] <==> t.issues == [] && PackFine(p, eos, pack, lists)
  {
    hide AddSubseqs, Fine;
    if pack < |lists| && |lists[pack]| > 1 {
      var k := |lists[pack]| - 1;
      SubseqsFine(t.(total := t.total + k), p, eos, pack, lists[pack], k);
    }
  }

  lemma {:induction false} PacksFine(t: Tally, packs: seq<Pack>, eos: int, lists: seq<seq<int>>, n: nat)
    requires AllPacksOk(packs) && n <= |packs|
    ensures AddPacks(t, packs, eos, lists, n).issues == []
       <==> t.issues == [] && forall i :: 0 <= i < n ==> PackFine(packs[i], eos, i, lists)
  {
    hide AddPack, PackFine;
    if n > 0 {
      PacksFine(t, packs, eos, lists, n - 1);
      PackFineStep(AddPacks(t, packs, eos, lists, n - 1), packs[n - 1], eos, n - 1, lists);
    }
  }

  /** The report lists no issue exactly when every pack has bounds and each of its non-empty subsequences has
      an assistant end token and all of these are supervised. */
  lemma {:induction false} CleanReport(packs: seq<Pack>, eos: int, lists: seq<seq<int>>)
    requires AllPacksOk(packs)
    ensures AddPacks(Empty(|packs|), packs, eos, lists, |packs|).issues == []
       <==> forall i :: 0 <= i < |packs| ==> PackFine(packs[i], eos, i, lists)
  {
    PacksFine(Empty(|packs|), packs, eos, lists, |packs|);
  }
}
