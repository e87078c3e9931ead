/** What the report of `_validate_packed_eos_supervision` says about the tokens
    (verl/trainer/fsdp_sft_trainer.py:1565-1769). */
module EosReport {
  import opened Wrappers
  import opened EosValidator

  datatype World = World(packs: seq<Pack>, eos: int, lists: seq<seq<int>>)

  /** A subsequence, by its pack and its index in the pack. */
  datatype Sub = Sub(pack: nat, index: nat)

  datatype Spot = Spot(sub: Sub, pos: int)

  // ---------- one subsequence ----------

  ghost predicate Attends(p: Pack, start: int, end: int, pos: int)
    requires PackOk(p)
  {
    && start < end && pos < |p.ids|
    && var s := ClampedStart(|p.ids|, start);
    s <= pos < ClampedEnd(|p.ids|, s, end) && p.attention[pos] == 1
  }

  /** An attended end token that is supervised or has a supervised token among the up to 100 positions before it
      in the subsequence. */
  ghost predicate Ends(p: Pack, eos: int, start: int, end: int, pos: int)
    requires PackOk(p)
  {
    && Attends(p, start, end, pos) && p.ids[pos] == eos
    && (p.loss[pos] == 1
        || exists q :: ClampedStart(|p.ids|, start) <= q < pos && pos - 100 <= q && p.loss[q] == 1)
  }

  datatype Class = Any | Supervised | Missed

  ghost predicate EndsAs(p: Pack, eos: int, start: int, end: int, pos: int, c: Class)
    requires PackOk(p)
  {
    && Ends(p, eos, start, end, pos)
    && match c
       case Any => true
       case Supervised => p.loss[pos] == 1
       case Missed => p.loss[pos] != 1
  }

  ghost predicate SomeEnd(p: Pack, eos: int, start: int, end: int, c: Class)
    requires PackOk(p)
  {
    exists pos :: EndsAs(p, eos, start, end, pos, c)
  }

  /** What there is to complain about in a subsequence. */
  ghost predicate Complaint(p: Pack, eos: int, start: int, end: int, kind: Kind)
    requires PackOk(p)
  {
    match kind
    case NoBounds => false
    case NoValidTokens => start < end && forall pos :: !Attends(p, start, end, pos)
    case NotSupervised(positions) =>
      && positions != [] && Ascending(positions)
      && forall pos :: pos in positions <==> EndsAs(p, eos, start, end, pos, Missed)
    case NoEos(token, pos) =>
      && Attends(p, start, end, pos) && token == p.ids[pos] && (forall q :: Attends(p, start, end, q) ==> q <= pos)
      && !SomeEnd(p, eos, start, end, Any)
  }

  lemma {:induction false} AscendingSize(s: seq<int>)
    requires Ascending(s)
    ensures |set x | x in s| == |s|
  {
    if s != [] {
      var m := |s| - 1;
      AscendingSize(s[..m]);
      assert s == s[..m] + [s[m]];
      assert (set x | x in s) == (set x | x in s[..m]) + {s[m]};
    }
  }

  lemma {:induction false} AscendingUnique(s: seq<int>, t: seq<int>)
    requires Ascending(s) && Ascending(t) && forall x :: x in s <==> x in t
    ensures s == t
  {
    assert s == [] || s[|s| - 1] in s;
    assert t == [] || t[|t| - 1] in t;
    if s != [] && t != [] {
      var m, k := |s| - 1, |t| - 1;
      assert s[m] in t && t[k] in s;
      assert s[m] == t[k];
      forall x
        ensures x in s[..m] <==> x in t[..k]
      {
        assert x in s[..m] <==> x in s && x != s[m];
        assert x in t[..k] <==> x in t && x != t[k];
      }
      AscendingUnique(s[..m], t[..k]);
      assert s == s[..m] + [s[m]] && t == t[..k] + [t[k]];
    }
  }

  lemma {:induction false} BelowLast(s: seq<int>, t: seq<int>)
    requires Ascending(s) && s != [] && forall x :: x in t ==> x in s[..|s| - 1]
    ensures forall i :: 0 <= i < |t| ==> t[i] < s[|s| - 1]
  {
    forall i | 0 <= i < |t|
      ensures t[i] < s[|s| - 1]
    {
      assert t[i] in t;
    }
  }

  lemma {:induction false} CoveredExactly(p: Pack, positions: seq<int>)
    requires PackOk(p) && Ascending(positions)
    ensures var good, bad := Covered(p, positions), Uncovered(p, positions);
            && Ascending(good) && Ascending(bad)
            && (forall pos :: pos in good <==> pos in positions && CoveredAt(p, pos))
            && (forall pos :: pos in bad <==> pos in positions && !CoveredAt(p, pos))
  {
    if positions != [] {
      var m := |positions| - 1;
      CoveredExactly(p, positions[..m]);
      assert positions == positions[..m] + [positions[m]];
      BelowLast(positions, Covered(p, positions[..m]));
      BelowLast(positions, Uncovered(p, positions[..m]));
    }
  }

  /** The recorded positions are the end tokens so described. */
  lemma {:induction false} EndsRecorded(p: Pack, eos: int, start: int, end: int)
    requires PackOk(p) && start < end
    ensures var s := ClampedStart(|p.ids|, start);
            var positions := RecordedIn(p, eos, s, ClampedEnd(|p.ids|, s, end));
            Ascending(positions) && forall pos :: pos in positions <==> Ends(p, eos, start, end, pos)
  {
    hide RecordedIn;
    var s := ClampedStart(|p.ids|, start);
    var e := ClampedEnd(|p.ids|, s, end);
    RecordedAscend(p, eos, s, e);
    forall pos
      ensures pos in RecordedIn(p, eos, s, e) <==> Ends(p, eos, start, end, pos)
    {
      RecordedExactly(p, eos, s, e, pos);
    }
  }

  /** The offsets are those of the attended tokens; the last one is the last attended token. */
  lemma {:induction false} OffsetsAttend(p: Pack, start: int, end: int)
    requires PackOk(p) && start < end
    ensures var s := ClampedStart(|p.ids|, start);
            var offsets := ValidOffsets(p, s, ClampedEnd(|p.ids|, s, end));
            && (offsets == [] <==> forall pos :: !Attends(p, start, end, pos))
            && (offsets != [] ==> LastAttended(p, start, end, s + offsets[|offsets| - 1]))
  {
    hide ValidOffsets;
    var s := ClampedStart(|p.ids|, start);
    var e := ClampedEnd(|p.ids|, s, end);
    var offsets := ValidOffsets(p, s, e);
    OffsetsAscend(p, s, e);
    forall pos
      ensures Attends(p, start, end, pos) <==> s <= pos && pos - s in offsets
    {
      if s <= pos {
        OffsetsExactly(p, s, e, pos - s);
      }
    }
    if offsets != [] {
      var last := offsets[|offsets| - 1];
      assert Attends(p, start, end, s + last);
    }
  }

  ghost predicate LastAttended(p: Pack, start: int, end: int, pos: int)
    requires PackOk(p)
  {
    Attends(p, start, end, pos) && forall q :: Attends(p, start, end, q) ==> q <= pos
  }

  /** What a subsequence adds to the report, read off the tokens. */
  datatype Share = Share(ends: set<int>, supervised: set<int>, missed: set<int>, complaint: Option<Kind>)

  ghost predicate IsShare(p: Pack, eos: int, start: int, end: int, a: Share)
    requires PackOk(p)
  {
    && (forall pos :: pos in a.ends <==> EndsAs(p, eos, start, end, pos, Any))
    && (forall pos :: pos in a.supervised <==> EndsAs(p, eos, start, end, pos, Supervised))
    && (forall pos :: pos in a.missed <==> EndsAs(p, eos, start, end, pos, Missed))
    && (forall kind :: Complaint(p, eos, start, end, kind) <==> a.complaint == Some(kind))
  }

  function One(b: bool): nat { if b then 1 else 0 }

  ghost function Plus(t: Tally, pack: nat, subseq: nat, a: Share): Tally {
    Tally(t.packs, t.total, t.found + |a.ends|, t.supervised + |a.supervised|, t.unsupervised + |a.missed|,
          t.noEos + One(a.complaint.Some? && a.complaint.value.NoEos?), t.withEos + One(a.ends != {}),
          t.allSupervised + One(a.ends != {} && a.missed == {}), t.someUnsupervised + One(a.missed != {}),
          t.issues + if a.complaint.Some? then [Issue(pack, subseq, a.complaint.value)] else [])
  }

  lemma {:induction false} EmptyShare(p: Pack, eos: int, start: int, end: int)
    requires PackOk(p) && end <= start
    ensures IsShare(p, eos, start, end, Share({}, {}, {}, None))
  {
    forall kind
      ensures !Complaint(p, eos, start, end, kind)
    {
      if kind.NotSupervised? && kind.positions != [] {
        assert kind.positions[0] in kind.positions;
      }
    }
  }

  /** No attended tokens. */
  lemma {:induction false} BlankShare(p: Pack, eos: int, start: int, end: int)
    requires PackOk(p) && start < end && forall pos :: !Attends(p, start, end, pos)
    ensures IsShare(p, eos, start, end, Share({}, {}, {}, Some(NoValidTokens)))
  {
    hide Attends;
    forall kind
      ensures Complaint(p, eos, start, end, kind) <==> kind == NoValidTokens
    {
      if kind.NotSupervised? && kind.positions != [] {
        assert kind.positions[0] in kind.positions;
      }
    }
  }

  /** Attended tokens, but no end token of the assistant. */
  lemma {:induction false} BareShare(p: Pack, eos: int, start: int, end: int, last: int)
    requires PackOk(p) && start < end && LastAttended(p, start, end, last)
    requires forall pos :: !Ends(p, eos, start, end, pos)
    ensures IsShare(p, eos, start, end, Share({}, {}, {}, Some(NoEos(p.ids[last], last))))
  {
    assert 0 <= last < |p.ids|;
    hide Attends, Ends;
    forall kind
      ensures Complaint(p, eos, start, end, kind) <==> kind == NoEos(p.ids[last], last)
    {
      if kind.NotSupervised? && kind.positions != [] {
        assert kind.positions[0] in kind.positions;
      }
    }
  }

  lemma {:induction false} EndsAttend(p: Pack, eos: int, start: int, end: int, pos: int)
    requires PackOk(p) && Ends(p, eos, start, end, pos)
    ensures Attends(p, start, end, pos) && 0 <= pos < |p.ids|
  {}

  lemma {:induction false} FoundClasses(p: Pack, eos: int, start: int, end: int, positions: seq<int>, pos: int)
    requires PackOk(p) && Ascending(positions) && (pos in positions <==> Ends(p, eos, start, end, pos))
    ensures pos in positions <==> EndsAs(p, eos, start, end, pos, Any)
    ensures pos in Covered(p, positions) <==> EndsAs(p, eos, start, end, pos, Supervised)
    ensures pos in Uncovered(p, positions) <==> EndsAs(p, eos, start, end, pos, Missed)
  {
    CoveredExactly(p, positions);
    hide Covered, Uncovered, Ascending, Ends;
    if Ends(p, eos, start, end, pos) {
      EndsAttend(p, eos, start, end, pos);
    }
  }

  lemma {:induction false} FoundShare(p: Pack, eos: int, start: int, end: int, positions: seq<int>)
    requires PackOk(p) && positions != [] && Ascending(positions)
    requires forall pos :: pos in positions <==> Ends(p, eos, start, end, pos)
    ensures var good, bad := Covered(p, positions), Uncovered(p, positions);
            && IsShare(p, eos, start, end, Share(set x | x in positions, set x | x in good, set x | x in bad,
                                                 if bad == [] then None else Some(NotSupervised(bad))))
            && |set x | x in positions| == |positions| && |set x | x in good| == |good| && |set x | x in bad| == |bad|
  {
    CoveredExactly(p, positions);
    hide Covered, Uncovered, Ends, Attends, Ascending, EndsAs, Complaint;
    var good, bad := Covered(p, positions), Uncovered(p, positions);
    AscendingSize(positions);
    AscendingSize(good);
    AscendingSize(bad);
    forall pos
      ensures pos in positions <==> EndsAs(p, eos, start, end, pos, Any)
      ensures pos in good <==> EndsAs(p, eos, start, end, pos, Supervised)
      ensures pos in bad <==> EndsAs(p, eos, start, end, pos, Missed)
    {
      FoundClasses(p, eos, start, end, positions, pos);
    }
    assert positions[0] in positions;
    forall kind
      ensures Complaint(p, eos, start, end, kind) <==> bad != [] && kind == NotSupervised(bad)
    {
      OnlyMissed(p, eos, start, end, bad, kind);
    }
  }

  lemma {:induction false} OnlyMissed(p: Pack, eos: int, start: int, end: int, bad: seq<int>, kind: Kind)
    requires PackOk(p) && Ascending(bad) && SomeEnd(p, eos, start, end, Any)
    requires forall pos :: pos in bad <==> EndsAs(p, eos, start, end, pos, Missed)
    ensures Complaint(p, eos, start, end, kind) <==> bad != [] && kind == NotSupervised(bad)
  {
    var found :| EndsAs(p, eos, start, end, found, Any);
    EndsAttend(p, eos, start, end, found);
    hide Ends, Attends, Ascending, EndsAs, SomeEnd;
    if kind.NotSupervised? && Complaint(p, eos, start, end, kind) {
      AscendingUnique(kind.positions, bad);
    }
  }

  /** A subsequence adds its share and nothing else. */
  lemma {:induction false} SubseqShare(t: Tally, p: Pack, eos: int, pack: nat, subseq: nat, start: int, end: int)
    returns (a: Share)
    requires PackOk(p)
    ensures IsShare(p, eos, start, end, a) && AddSubseq(t, p, eos, pack, subseq, start, end) == Plus(t, pack, subseq, a)
  {
    hide ValidOffsets, Recorded, Covered, Uncovered, IsShare, Ends, Attends, LastAttended;
    if end <= start {
      EmptyShare(p, eos, start, end);
      a := Share({}, {}, {}, None);
    } else {
      a := ClampedShare(t, p, eos, pack, subseq, start, end);
    }
  }

  lemma {:induction false} ClampedShare(t: Tally, p: Pack, eos: int, pack: nat, subseq: nat, start: int, end: int)
    returns (a: Share)
    requires PackOk(p) && start < end
    ensures var s := ClampedStart(|p.ids|, start);
            AddClamped(t, p, eos, pack, subseq, s, ClampedEnd(|p.ids|, s, end)) == Plus(t, pack, subseq, a)
    ensures IsShare(p, eos, start, end, a)
  {
    hide ValidOffsets, Recorded, Covered, Uncovered, IsShare, Ends, Attends, LastAttended;
    var s := ClampedStart(|p.ids|, start);
    var e := ClampedEnd(|p.ids|, s, end);
    var offsets := ValidOffsets(p, s, e);
    OffsetsAttend(p, start, end);
    EndsRecorded(p, eos, start, end);
    hide ClampedStart, ClampedEnd;
    if offsets == [] {
      BlankShare(p, eos, start, end);
      a := Share({}, {}, {}, Some(NoValidTokens));
    } else {
      var positions := Recorded(p, eos, s, offsets);
      if positions == [] {
        a := BareAdds(t, p, eos, pack, subseq, start, end, s, offsets);
      } else {
        a := FoundAdds(t, p, eos, pack, subseq, start, end, positions);
      }
    }
  }

  lemma {:induction false} BareAdds(t: Tally, p: Pack, eos: int, pack: nat, subseq: nat, start: int, end: int,
                                    s: nat, offsets: seq<nat>) returns (a: Share)
    requires PackOk(p) && start < end && offsets != [] && LastAttended(p, start, end, s + offsets[|offsets| - 1])
    requires forall pos :: !Ends(p, eos, start, end, pos)
    ensures IsShare(p, eos, start, end, a)
    ensures var pos := s + offsets[|offsets| - 1];
            && pos < |p.ids|
            && t.(noEos := t.noEos + 1, issues := t.issues + [Issue(pack, subseq, NoEos(p.ids[pos], pos))])
               == Plus(t, pack, subseq, a)
  {
    var pos := s + offsets[|offsets| - 1];
    BareShare(p, eos, start, end, pos);
    a := Share({}, {}, {}, Some(NoEos(p.ids[pos], pos)));
    hide Ends, IsShare;
  }

  lemma {:induction false} FoundAdds(t: Tally, p: Pack, eos: int, pack: nat, subseq: nat, start: int, end: int,
                                     positions: seq<int>) returns (a: Share)
    requires PackOk(p) && positions != [] && Ascending(positions)
    requires forall pos :: pos in positions <==> Ends(p, eos, start, end, pos)
    ensures IsShare(p, eos, start, end, a) && AddEos(t, p, pack, subseq, positions) == Plus(t, pack, subseq, a)
  {
    hide Ends, IsShare, Covered, Uncovered, Ascending;
    FoundShare(p, eos, start, end, positions);
    var good, bad := Covered(p, positions), Uncovered(p, positions);
    a := Share(set x | x in positions, set x | x in good, set x | x in bad,
               if bad == [] then None else Some(NotSupervised(bad)));
    assert positions[0] in a.ends;
    if bad != [] {
      assert bad[0] in a.missed;
    }
  }

  // ---------- the whole report ----------

  ghost predicate WorldOk(w: World) { AllPacksOk(w.packs) }

  ghost predicate IsSub(w: World, u: Sub) {
    u.pack < |w.packs| && u.pack < |w.lists| && u.index + 1 < |w.lists[u.pack]|
  }

  ghost predicate EndAt(w: World, z: Spot, c: Class)
    requires WorldOk(w) && IsSub(w, z.sub)
  {
    var u := z.sub;
    EndsAs(w.packs[u.pack], w.eos, w.lists[u.pack][u.index], w.lists[u.pack][u.index + 1], z.pos, c)
  }

  datatype Group = Every | WithEnd | WithoutEnd | AllSupervised | SomeMissed

  ghost predicate Belongs(p: Pack, eos: int, start: int, end: int, c: Group)
    requires PackOk(p)
  {
    match c
    case Every => true
    case WithEnd => SomeEnd(p, eos, start, end, Any)
    case WithoutEnd => !SomeEnd(p, eos, start, end, Any) && exists pos :: Attends(p, start, end, pos)
    case AllSupervised => SomeEnd(p, eos, start, end, Any) && !SomeEnd(p, eos, start, end, Missed)
    case SomeMissed => SomeEnd(p, eos, start, end, Missed)
  }

  ghost predicate InGroup(w: World, u: Sub, c: Group)
    requires WorldOk(w) && IsSub(w, u)
  {
    Belongs(w.packs[u.pack], w.eos, w.lists[u.pack][u.index], w.lists[u.pack][u.index + 1], c)
  }

  ghost predicate IssueFor(w: World, x: Issue)
    requires WorldOk(w)
  {
    if x.subseq == -1 then x.kind == NoBounds && x.pack < |w.packs| && x.pack >= |w.lists|
    else
      && x.subseq >= 0 && IsSub(w, Sub(x.pack, x.subseq))
      && Complaint(w.packs[x.pack], w.eos, w.lists[x.pack][x.subseq], w.lists[x.pack][x.subseq + 1], x.kind)
  }

  /** In the order of the packs and of the subsequences in each. */
  ghost predicate Before(x: Issue, y: Issue) {
    x.pack < y.pack || (x.pack == y.pack && x.subseq < y.subseq)
  }

  /** Before subsequence m of pack n. */
  predicate Seen(pack: nat, index: int, n: nat, m: nat) {
    pack < n || (pack == n && 0 <= index < m)
  }

  ghost predicate Spots(w: World, s: set<Spot>, c: Class, n: nat, m: nat)
    requires WorldOk(w)
  {
    forall z: Spot :: z in s <==> IsSub(w, z.sub) && Seen(z.sub.pack, z.sub.index, n, m) && EndAt(w, z, c)
  }

  ghost predicate Subs(w: World, s: set<Sub>, c: Group, n: nat, m: nat)
    requires WorldOk(w)
  {
    forall u: Sub :: u in s <==> IsSub(w, u) && Seen(u.pack, u.index, n, m) && InGroup(w, u, c)
  }

  ghost predicate Issues(w: World, s: seq<Issue>, n: nat, m: nat)
    requires WorldOk(w)
  {
    && (forall x: Issue :: x in s <==> Seen(x.pack, x.subseq, n, m) && IssueFor(w, x))
    && (forall i, j :: 0 <= i < j < |s| ==> Before(s[i], s[j]))
  }

  /** The sets that are counted. */
  datatype Books = Books(found: set<Spot>, supervised: set<Spot>, unsupervised: set<Spot>, noEos: set<Sub>,
                         withEos: set<Sub>, allSupervised: set<Sub>, someUnsupervised: set<Sub>)

  ghost predicate SpotsBooked(t: Tally, w: World, b: Books, n: nat, m: nat)
    requires WorldOk(w)
  {
    && Spots(w, b.found, Any, n, m) && t.found == |b.found|
    && Spots(w, b.supervised, Supervised, n, m) && t.supervised == |b.supervised|
    && Spots(w, b.unsupervised, Missed, n, m) && t.unsupervised == |b.unsupervised|
  }

  ghost predicate SubsBooked(t: Tally, w: World, b: Books, n: nat, m: nat)
    requires WorldOk(w)
  {
    && Subs(w, b.noEos, WithoutEnd, n, m) && t.noEos == |b.noEos|
    && Subs(w, b.withEos, WithEnd, n, m) && t.withEos == |b.withEos|
    && Subs(w, b.allSupervised, AllSupervised, n, m) && t.allSupervised == |b.allSupervised|
    && Subs(w, b.someUnsupervised, SomeMissed, n, m) && t.someUnsupervised == |b.someUnsupervised|
  }

  ghost predicate Booked(t: Tally, w: World, b: Books, n: nat, m: nat)
    requires WorldOk(w)
  {
    SpotsBooked(t, w, b, n, m) && SubsBooked(t, w, b, n, m) && Issues(w, t.issues, n, m)
  }

  // ---------- one more subsequence ----------

  ghost function SpotsIn(u: Sub, e: set<int>): set<Spot> {
    set pos | pos in e :: Spot(u, pos)
  }

  lemma {:induction false} Inhabited(s: set<int>)
    ensures s != {} <==> exists x :: x in s
  {
    if forall x :: x !in s {
      assert s == {};
    }
  }

  lemma {:induction false} SpotsInSize(u: Sub, e: set<int>)
    ensures |SpotsIn(u, e)| == |e|
  {
    if e == {} {
      assert SpotsIn(u, e) == {};
    } else {
      Inhabited(e);
      var pos :| pos in e;
      SpotsInSize(u, e - {pos});
      assert SpotsIn(u, e) == SpotsIn(u, e - {pos}) + {Spot(u, pos)};
    }
  }

  lemma {:induction false} DisjointSize<T>(s: set<T>, t: set<T>)
    requires s !! t
    ensures |s + t| == |s| + |t|
  {}

  lemma {:induction false} MoreSpots(w: World, s: set<Spot>, c: Class, n: nat, m: nat, e: set<int>)
    requires WorldOk(w) && Spots(w, s, c, n, m) && IsSub(w, Sub(n, m))
    requires forall pos :: pos in e <==> EndAt(w, Spot(Sub(n, m), pos), c)
    ensures Spots(w, s + SpotsIn(Sub(n, m), e), c, n, m + 1)
    ensures |s + SpotsIn(Sub(n, m), e)| == |s| + |e|
  {
    hide EndAt, WorldOk;
    var u := Sub(n, m);
    SpotsInSize(u, e);
    DisjointSize(s, SpotsIn(u, e));
    forall z: Spot
      ensures z in s + SpotsIn(u, e) <==> IsSub(w, z.sub) && Seen(z.sub.pack, z.sub.index, n, m + 1) && EndAt(w, z, c)
    {
      if z.sub == u {
        assert z == Spot(u, z.pos);
      }
    }
  }

  ghost function With(s: set<Sub>, u: Sub, b: bool): set<Sub> {
    if b then s + {u} else s
  }

  lemma {:induction false} MoreSubs(w: World, s: set<Sub>, c: Group, n: nat, m: nat, b: bool)
    requires WorldOk(w) && Subs(w, s, c, n, m) && IsSub(w, Sub(n, m)) && (b <==> InGroup(w, Sub(n, m), c))
    ensures Subs(w, With(s, Sub(n, m), b), c, n, m + 1) && |With(s, Sub(n, m), b)| == |s| + One(b)
  {
    hide InGroup, WorldOk, IsSub;
    var u := Sub(n, m);
    assert u !in s;
    forall v: Sub
      ensures v in With(s, u, b) <==> IsSub(w, v) && Seen(v.pack, v.index, n, m + 1) && InGroup(w, v, c)
    {
      if v.pack == n && v.index == m {
        assert v == u;
      }
    }
  }

  lemma {:induction false} MoreIssues(w: World, s: seq<Issue>, n: nat, m: nat, kind: Option<Kind>)
    requires WorldOk(w) && Issues(w, s, n, m) && IsSub(w, Sub(n, m))
    requires forall k: Kind :: IssueFor(w, Issue(n, m, k)) <==> kind == Some(k)
    ensures Issues(w, s + if kind.Some? then [Issue(n, m, kind.value)] else [], n, m + 1)
  {
    hide IssueFor, WorldOk;
    var more := s + if kind.Some? then [Issue(n, m, kind.value)] else [];
    forall i | 0 <= i < |s|
      ensures Seen(s[i].pack, s[i].subseq, n, m)
    {
      assert s[i] in s;
    }
    forall x: Issue
      ensures x in more <==> Seen(x.pack, x.subseq, n, m + 1) && IssueFor(w, x)
    {
      if x.pack == n && x.subseq == m {
        assert x == Issue(n, m, x.kind);
      }
    }
  }

  lemma {:induction false} ShareGroups(p: Pack, eos: int, start: int, end: int, a: Share)
    requires PackOk(p) && IsShare(p, eos, start, end, a)
    ensures a.ends != {} <==> Belongs(p, eos, start, end, WithEnd)
    ensures a.missed != {} <==> Belongs(p, eos, start, end, SomeMissed)
    ensures a.ends != {} && a.missed == {} <==> Belongs(p, eos, start, end, AllSupervised)
  {
    hide EndsAs, Complaint, Attends;
    Inhabited(a.ends);
    Inhabited(a.missed);
  }

  lemma {:induction false} LastExists(p: Pack, start: int, end: int) returns (last: int)
    requires PackOk(p) && exists pos :: Attends(p, start, end, pos)
    ensures LastAttended(p, start, end, last) && 0 <= last < |p.ids| && Attends(p, start, end, last)
  {
    OffsetsAttend(p, start, end);
    var s := ClampedStart(|p.ids|, start);
    var offsets := ValidOffsets(p, s, ClampedEnd(|p.ids|, s, end));
    last := s + offsets[|offsets| - 1];
  }

  lemma {:induction false} BareGroup(p: Pack, eos: int, start: int, end: int, a: Share)
    requires PackOk(p) && IsShare(p, eos, start, end, a)
    ensures a.complaint.Some? && a.complaint.value.NoEos? <==> Belongs(p, eos, start, end, WithoutEnd)
  {
    hide EndsAs, SomeEnd, Attends;
    if Belongs(p, eos, start, end, WithoutEnd) {
      var last := LastExists(p, start, end);
      assert Complaint(p, eos, start, end, NoEos(p.ids[last], last));
    } else if a.complaint.Some? {
      assert Complaint(p, eos, start, end, a.complaint.value);
    }
  }

  /** The share of subsequence m of pack n. */
  ghost predicate ShareAt(w: World, n: nat, m: nat, a: Share)
    requires WorldOk(w) && IsSub(w, Sub(n, m))
  {
    IsShare(w.packs[n], w.eos, w.lists[n][m], w.lists[n][m + 1], a)
  }

  ghost function BooksWith(b: Books, u: Sub, a: Share): Books {
    Books(b.found + SpotsIn(u, a.ends), b.supervised + SpotsIn(u, a.supervised), b.unsupervised + SpotsIn(u, a.missed),
          With(b.noEos, u, a.complaint.Some? && a.complaint.value.NoEos?), With(b.withEos, u, a.ends != {}),
          With(b.allSupervised, u, a.ends != {} && a.missed == {}), With(b.someUnsupervised, u, a.missed != {}))
  }

  lemma {:induction false} BookSpots(t: Tally, w: World, b: Books, n: nat, m: nat, a: Share)
    requires WorldOk(w) && SpotsBooked(t, w, b, n, m) && IsSub(w, Sub(n, m)) && ShareAt(w, n, m, a)
    ensures SpotsBooked(Plus(t, n, m, a), w, BooksWith(b, Sub(n, m), a), n, m + 1)
  {
    hide EndsAs, Complaint, Spots, SpotsIn, With;
    MoreSpots(w, b.found, Any, n, m, a.ends);
    MoreSpots(w, b.supervised, Supervised, n, m, a.supervised);
    MoreSpots(w, b.unsupervised, Missed, n, m, a.missed);
  }

  lemma {:induction false} BookSubs(t: Tally, w: World, b: Books, n: nat, m: nat, a: Share)
    requires WorldOk(w) && SubsBooked(t, w, b, n, m) && IsSub(w, Sub(n, m)) && ShareAt(w, n, m, a)
    ensures SubsBooked(Plus(t, n, m, a), w, BooksWith(b, Sub(n, m), a), n, m + 1)
  {
    hide IsShare, Belongs, Subs, SpotsIn, With;
    var p, from, to := w.packs[n], w.lists[n][m], w.lists[n][m + 1];
    ShareGroups(p, w.eos, from, to, a);
    BareGroup(p, w.eos, from, to, a);
    MoreSubs(w, b.noEos, WithoutEnd, n, m, a.complaint.Some? && a.complaint.value.NoEos?);
    MoreSubs(w, b.withEos, WithEnd, n, m, a.ends != {});
    MoreSubs(w, b.allSupervised, AllSupervised, n, m, a.ends != {} && a.missed == {});
    MoreSubs(w, b.someUnsupervised, SomeMissed, n, m, a.missed != {});
  }

  lemma {:induction false} BookIssue(t: Tally, w: World, n: nat, m: nat, a: Share)
    requires WorldOk(w) && Issues(w, t.issues, n, m) && IsSub(w, Sub(n, m)) && ShareAt(w, n, m, a)
    ensures Issues(w, Plus(t, n, m, a).issues, n, m + 1)
  {
    hide EndsAs, Complaint, Issues;
    MoreIssues(w, t.issues, n, m, a.complaint);
  }

  lemma {:induction false} BookSubseq(t: Tally, w: World, b: Books, n: nat, m: nat, a: Share)
    requires WorldOk(w) && Booked(t, w, b, n, m) && IsSub(w, Sub(n, m)) && ShareAt(w, n, m, a)
    ensures Booked(Plus(t, n, m, a), w, BooksWith(b, Sub(n, m), a), n, m + 1)
  {
    hide ShareAt, SpotsBooked, SubsBooked, Issues, Plus, BooksWith;
    BookSpots(t, w, b, n, m, a);
    BookSubs(t, w, b, n, m, a);
    BookIssue(t, w, n, m, a);
  }

  lemma {:induction false} BookSubseqs(t: Tally, w: World, b: Books, n: nat, k: nat) returns (b': Books)
    requires WorldOk(w) && Booked(t, w, b, n, 0) && n < |w.packs| && n < |w.lists| && k < |w.lists[n]|
    ensures Booked(AddSubseqs(t, w.packs[n], w.eos, n, w.lists[n], k), w, b', n, k)
  {
    hide AddSubseq, Booked, IsShare;
    b' := b;
    if k > 0 {
      var before := BookSubseqs(t, w, b, n, k - 1);
      var after := AddSubseqs(t, w.packs[n], w.eos, n, w.lists[n], k - 1);
      var a := SubseqShare(after, w.packs[n], w.eos, n, k - 1, w.lists[n][k - 1], w.lists[n][k]);
      BookSubseq(after, w, before, n, k - 1, a);
      b' := BooksWith(before, Sub(n, k - 1), a);
    }
  }

  /** Behind the last subsequence of a pack. */
  lemma {:induction false} NextPack(t: Tally, w: World, b: Books, n: nat, m: nat)
    requires WorldOk(w) && Booked(t, w, b, n, m) && n < |w.lists| && forall i: nat :: i >= m ==> !IsSub(w, Sub(n, i))
    ensures Booked(t, w, b, n + 1, 0)
  {
    hide EndAt, InGroup, Complaint, WorldOk;
    NextIssues(t.issues, w, n, m);
    hide Issues;
  }

  lemma {:induction false} NextIssues(s: seq<Issue>, w: World, n: nat, m: nat)
    requires WorldOk(w) && Issues(w, s, n, m) && n < |w.lists| && forall i: nat :: i >= m ==> !IsSub(w, Sub(n, i))
    ensures Issues(w, s, n + 1, 0)
  {
    hide Complaint, WorldOk;
  }

  lemma {:induction false} NoLists(t: Tally, w: World, b: Books, n: nat)
    requires WorldOk(w) && Booked(t, w, b, n, 0) && n < |w.packs| && n >= |w.lists|
    ensures Booked(t.(issues := t.issues + [Issue(n, -1, NoBounds)]), w, b, n + 1, 0)
  {
    hide EndAt, InGroup, Complaint, WorldOk;
    MissingIssue(t.issues, w, n);
    hide Issues;
  }

  lemma {:induction false} MissingIssue(s: seq<Issue>, w: World, n: nat)
    requires WorldOk(w) && Issues(w, s, n, 0) && n < |w.packs| && n >= |w.lists|
    ensures Issues(w, s + [Issue(n, -1, NoBounds)], n + 1, 0)
  {
    hide Complaint, WorldOk;
    forall i | 0 <= i < |s|
      ensures s[i].pack < n
    {
      assert s[i] in s;
    }
  }

  lemma {:induction false} BookPack(t: Tally, w: World, b: Books, n: nat) returns (b': Books)
    requires WorldOk(w) && Booked(t, w, b, n, 0) && n < |w.packs|
    ensures Booked(AddPack(t, w.packs[n], w.eos, n, w.lists), w, b', n + 1, 0)
  {
    hide AddSubseqs, Spots, Subs, Issues;
    b' := b;
    if n >= |w.lists| {
      NoLists(t, w, b, n);
    } else if |w.lists[n]| <= 1 {
      NextPack(t, w, b, n, 0);
    } else {
      var k := |w.lists[n]| - 1;
      var more := t.(total := t.total + k);
      b' := BookSubseqs(more, w, b, n, k);
      NextPack(AddSubseqs(more, w.packs[n], w.eos, n, w.lists[n], k), w, b', n, k);
    }
  }

  lemma {:induction false} BookPacks(w: World, n: nat) returns (b: Books)
    requires WorldOk(w) && n <= |w.packs|
    ensures Booked(AddPacks(Empty(|w.packs|), w.packs, w.eos, w.lists, n), w, b, n, 0)
  {
    if n == 0 {
      b := Books({}, {}, {}, {}, {}, {}, {});
      hide EndAt, InGroup, IssueFor;
    } else {
      hide AddPack, Booked;
      b := BookPacks(w, n - 1);
      b := BookPack(AddPacks(Empty(|w.packs|), w.packs, w.eos, w.lists, n - 1), w, b, n - 1);
    }
  }

  // ---------- the theorems ----------

  ghost predicate AllSpots(w: World, s: set<Spot>, c: Class)
    requires WorldOk(w)
  {
    forall z: Spot :: z in s <==> IsSub(w, z.sub) && EndAt(w, z, c)
  }

  ghost predicate AllSubs(w: World, s: set<Sub>, c: Group)
    requires WorldOk(w)
  {
    forall u: Sub :: u in s <==> IsSub(w, u) && InGroup(w, u, c)
  }

  /** The counters of every report are the sizes of sets read off the tokens: all assistant end tokens by pack,
      subsequence and position, those with loss and those without; the subsequences with attended tokens but no
      such end token, those with one, those with all of them supervised, those with one missed. */
  lemma {:induction false} ReportCounts(w: World) returns (b: Books)
    requires WorldOk(w)
    ensures var t := AddPacks(Empty(|w.packs|), w.packs, w.eos, w.lists, |w.packs|);
            && AllSpots(w, b.found, Any) && t.found == |b.found|
            && AllSpots(w, b.supervised, Supervised) && t.supervised == |b.supervised|
            && AllSpots(w, b.unsupervised, Missed) && t.unsupervised == |b.unsupervised|
            && AllSubs(w, b.noEos, WithoutEnd) && t.noEos == |b.noEos|
            && AllSubs(w, b.withEos, WithEnd) && t.withEos == |b.withEos|
            && AllSubs(w, b.allSupervised, AllSupervised) && t.allSupervised == |b.allSupervised|
            && AllSubs(w, b.someUnsupervised, SomeMissed) && t.someUnsupervised == |b.someUnsupervised|
  {
    hide EndAt, InGroup, Issues;
    b := BookPacks(w, |w.packs|);
  }

  /** The issues of every report are exactly those that the tokens call for, once each, in order: a pack
      without bounds, a subsequence without attended tokens, one without an assistant end token, with its last
      attended token, and one with missed end tokens, with just these in ascending order. */
  lemma {:induction false} ReportIssues(w: World)
    requires WorldOk(w)
    ensures var issues := AddPacks(Empty(|w.packs|), w.packs, w.eos, w.lists, |w.packs|).issues;
            && (forall x: Issue :: x in issues <==> IssueFor(w, x))
            && (forall i, j :: 0 <= i < j < |issues| ==> Before(issues[i], issues[j]))
  {
    hide EndAt, InGroup, Complaint;
    var b := BookPacks(w, |w.packs|);
    hide Spots, Subs;
  }

  // ---------- all subsequences ----------

  lemma {:induction false} TotalStays(t: Tally, p: Pack, eos: int, pack: nat, bounds: seq<int>, n: nat)
    requires PackOk(p) && n < |bounds|
    ensures var r := AddSubseqs(t, p, eos, pack, bounds, n); r.total == t.total && r.packs == t.packs
  {
    if n > 0 {
      TotalStays(t, p, eos, pack, bounds, n - 1);
      hide ValidOffsets, Recorded, Covered, Uncovered, ClampedStart, ClampedEnd;
    }
  }

  lemma {:induction false} PackTotal(t: Tally, w: World, s: set<Sub>, n: nat, k: nat) returns (s': set<Sub>)
    requires WorldOk(w) && Subs(w, s, Every, n, 0) && t.total == |s| && n < |w.packs|
    requires if n < |w.lists| then k < |w.lists[n]| else k == 0
    ensures Subs(w, s', Every, n, k) && |s'| == |s| + k
  {
    s' := s;
    if k > 0 {
      s' := PackTotal(t, w, s, n, k - 1);
      MoreSubs(w, s', Every, n, k - 1, true);
      s' := With(s', Sub(n, k - 1), true);
    }
  }

  /** And all subsequences are counted. */
  lemma {:induction false} ReportTotal(w: World, n: nat) returns (s: set<Sub>)
    requires WorldOk(w) && n <= |w.packs|
    ensures var t := AddPacks(Empty(|w.packs|), w.packs, w.eos, w.lists, n);
            && (forall u: Sub :: u in s <==> IsSub(w, u) && u.pack < n) && t.total == |s| && t.packs == |w.packs|
  {
    s := {};
    if n > 0 {
      hide AddSubseqs;
      s := ReportTotal(w, n - 1);
      var t := AddPacks(Empty(|w.packs|), w.packs, w.eos, w.lists, n - 1);
      if n - 1 < |w.lists| && |w.lists[n - 1]| > 1 {
        var k := |w.lists[n - 1]| - 1;
        s := PackTotal(t, w, s, n - 1, k);
        TotalStays(t.(total := t.total + k), w.packs[n - 1], w.eos, n - 1, w.lists[n - 1], k);
      }
    }
  }
}
