/** `_validate_bbox` and `_maybe_resize_bbox` (verl/tools/image_zoom_in_tool.py:181-297) in exact real
    arithmetic: clamp a box to the image, and grow it about its centre when it is too small. */
module ImageZoom {
  import opened Wrappers

  const MIN_DIMENSION := 28.0

  datatype Box = Box(left: real, top: real, right: real, bottom: real) {
    function Width(): real { right - left }
    function Height(): real { bottom - top }
  }

  function Min(x: real, y: real): real { if x <= y then x else y }

  function Max(x: real, y: real): real { if x <= y then y else x }

  function Times(x: real, y: real): real { x * y }

  function Over(x: real, y: real): real
    requires y != 0.0
  {
    x / y
  }

  function Floor(x: real): real { x.Floor as real }

  function Ceil(x: real): real { -Floor(-x) }

  // ---------- the code ----------

  method ValidateBbox(box: Box) returns (ok: bool)
    ensures ok == ValidBox(box)
  {
    if !(box.left < box.right && box.top < box.bottom) {
      return false;
    }
    var height, width := box.bottom - box.top, box.right - box.left;
    if Max(height, width) / Min(height, width) > 100.0 {
      RatioCrossed(Max(height, width), Min(height, width));
      return false;
    }
    RatioCrossed(Max(height, width), Min(height, width));
    return true;
  }

  method MaybeResizeBbox(box: Box, imageWidth: nat, imageHeight: nat) returns (r: Option<Box>)
    ensures r == Resized(box, imageWidth as real, imageHeight as real)
  {
    hide Floor, Ceil, Times, Factor, Placed, Rounded;
    var w, h := imageWidth as real, imageHeight as real;
    var left, top := Max(0.0, box.left), Max(0.0, box.top);
    var right, bottom := Min(w, box.right), Min(h, box.bottom);
    var ok := ValidateBbox(Box(left, top, right, bottom));
    if !ok {
      return None;
    }
    var current := Box(left, top, right, bottom);
    var height, width := bottom - top, right - left;
    if height < MIN_DIMENSION || width < MIN_DIMENSION {
      current := Grow(current, w, h);
    }
    ok := ValidateBbox(current);
    if !ok {
      return None;
    }
    var finalHeight, finalWidth := Floor(current.bottom) - Floor(current.top), Floor(current.right) - Floor(current.left);
    if finalHeight < MIN_DIMENSION || finalWidth < MIN_DIMENSION {
      return None;
    }
    return Some(current);
  }

  /** The box about the same centre, shifted into the image, in whole pixels. */
  method Grow(box: Box, w: real, h: real) returns (r: Box)
    requires box.left < box.right && box.top < box.bottom && Inside(box, w, h) && Small(box)
    ensures r == Rounded(Grown(box, w, h))
  {
    hide Floor, Ceil, Times, Factor, Placed;
    var centerX, centerY := (box.left + box.right) / 2.0, (box.top + box.bottom) / 2.0;
    var targetWidth, targetHeight := TargetSize(box.right - box.left, box.bottom - box.top, w, h);
    GrownFits(box, w, h);
    var newLeft, newTop := centerX - targetWidth / 2.0, centerY - targetHeight / 2.0;
    if newLeft < 0.0 {
      newLeft := 0.0;
    }
    if newTop < 0.0 {
      newTop := 0.0;
    }
    if newLeft + targetWidth > w {
      newLeft := w - targetWidth;
    }
    if newTop + targetHeight > h {
      newTop := h - targetHeight;
    }
    PlacedSteps(centerX, targetWidth, w);
    PlacedSteps(centerY, targetHeight, h);
    var newRight, newBottom := newLeft + targetWidth, newTop + targetHeight;
    r := Box(Floor(newLeft), Floor(newTop), Ceil(newRight), Ceil(newBottom));
  }

  /** Shifting at the lower end and then at the upper end is clamping. */
  lemma {:induction false} PlacedSteps(center: real, size: real, limit: real)
    requires size <= limit
    ensures var x := if center - size / 2.0 < 0.0 then 0.0 else center - size / 2.0;
            Placed(center, size, limit) == if x + size > limit then limit - size else x
  {}

  /** Scale the smaller side to the minimum, then down again while a side exceeds the image. */
  method TargetSize(width: real, height: real, w: real, h: real) returns (targetWidth: real, targetHeight: real)
    requires 0.0 < width <= w && 0.0 < height <= h
    ensures targetWidth == Times(width, Factor(width, height, w, h))
    ensures targetHeight == Times(height, Factor(width, height, w, h))
  {
    var ratio := MIN_DIMENSION / Min(height, width);
    PositiveQuotient(MIN_DIMENSION, Min(height, width));
    PositiveQuotient(w, width);
    targetWidth, targetHeight := width * ratio, height * ratio;
    targetWidth, targetHeight := ScaleDown(targetWidth, targetHeight, w, width, height, ratio);
    targetHeight, targetWidth := ScaleDown(targetHeight, targetWidth, h, height, width, Min(ratio, w / width));
    assert Min(Min(ratio, w / width), h / height) == Factor(width, height, w, h);
  }

  /** One side is cut to its limit, the other keeps the ratio. */
  method ScaleDown(target: real, other: real, limit: real, ghost side: real, ghost otherSide: real, ghost f: real)
    returns (target': real, other': real)
    requires side > 0.0 && otherSide > 0.0 && f > 0.0 && limit > 0.0
    requires target == side * f && other == otherSide * f
    ensures target' == side * Min(f, limit / side) && other' == otherSide * Min(f, limit / side)
  {
    Shrink(side, otherSide, f, limit);
    target', other' := target, other;
    if target > limit {
      var scaleDown := limit / target;
      target' := limit;
      other' := other * scaleDown;
    }
  }

  // ---------- what it computes, in closed form ----------

  /** Sides are positive and differ by at most a factor of 100. */
  predicate ValidBox(b: Box) {
    && b.left < b.right && b.top < b.bottom
    && Max(b.Height(), b.Width()) <= 100.0 * Min(b.Height(), b.Width())
  }

  function Clamped(b: Box, w: real, h: real): Box {
    Box(Max(0.0, b.left), Max(0.0, b.top), Min(w, b.right), Min(h, b.bottom))
  }

  predicate Small(b: Box) {
    b.Height() < MIN_DIMENSION || b.Width() < MIN_DIMENSION
  }

  /** One factor for both sides: enough for the minimum, but no more than fits the image. */
  function Factor(width: real, height: real, w: real, h: real): real
    requires width > 0.0 && height > 0.0
  {
    Min(Over(MIN_DIMENSION, Min(height, width)), Min(Over(w, width), Over(h, height)))
  }

  /** The start of an interval of the given size, as near to the centre as the image allows. */
  function Placed(center: real, size: real, limit: real): real {
    Max(0.0, Min(center - size / 2.0, limit - size))
  }

  /** The grown box before rounding. */
  function Grown(b: Box, w: real, h: real): Box
    requires b.left < b.right && b.top < b.bottom
  {
    var f := Factor(b.Width(), b.Height(), w, h);
    var tw, th := Times(b.Width(), f), Times(b.Height(), f);
    var x, y := Placed((b.left + b.right) / 2.0, tw, w), Placed((b.top + b.bottom) / 2.0, th, h);
    Box(x, y, x + tw, y + th)
  }

  /** Outwards to whole pixels. */
  function Rounded(b: Box): Box {
    Box(Floor(b.left), Floor(b.top), Ceil(b.right), Ceil(b.bottom))
  }

  predicate LargeEnough(b: Box) {
    Floor(b.bottom) - Floor(b.top) >= MIN_DIMENSION && Floor(b.right) - Floor(b.left) >= MIN_DIMENSION
  }

  function Candidate(b: Box, w: real, h: real): Box
    requires b.left < b.right && b.top < b.bottom
  {
    if Small(b) then Rounded(Grown(b, w, h)) else b
  }

  function Resized(b: Box, w: real, h: real): Option<Box> {
    var c := Clamped(b, w, h);
    if !ValidBox(c) then None
    else
      var r := Candidate(c, w, h);
      if ValidBox(r) && LargeEnough(r) then Some(r) else None
  }

  // ---------- real arithmetic ----------

  lemma {:induction false} RatioCrossed(a: real, b: real)
    requires b > 0.0
    ensures a / b > 100.0 <==> a > 100.0 * b
  {
    assert (a / b) * b == a;
    ScaleOrder(a / b, 100.0, b);
  }

  lemma {:induction false} ScaleOrder(a: real, b: real, x: real)
    requires x > 0.0
    ensures a > b <==> a * x > b * x
    ensures a == b <==> a * x == b * x
  {
    if a > b {
      PositiveProduct(a - b, x);
    } else if a < b {
      PositiveProduct(b - a, x);
    }
  }

  lemma {:induction false} PositiveProduct(a: real, b: real)
    requires a > 0.0 && b > 0.0
    ensures a * b > 0.0
  {}

  lemma {:induction false} PositiveQuotient(a: real, b: real)
    requires a > 0.0 && b > 0.0
    ensures a / b > 0.0 && (a / b) * b == a
  {}

  /** Scaling a side down to its limit scales the other side by the same total factor. */
  lemma {:induction false} Shrink(side: real, other: real, f: real, limit: real)
    requires side > 0.0 && other > 0.0 && f > 0.0 && limit > 0.0
    ensures side * f > 0.0 && side * (limit / side) == limit
    ensures side * f > limit <==> f > limit / side
    ensures (other * f) * (limit / (side * f)) == other * (limit / side)
  {
    var p := limit / side;
    PositiveQuotient(limit, side);
    PositiveProduct(side, f);
    ScaleOrder(f, p, side);
    var q := limit / (side * f);
    PositiveQuotient(limit, side * f);
    assert (q * f) * side == p * side by {
      assert q * (side * f) == limit;
      Reorder(q, side, f);
    }
    ScaleOrder(q * f, p, side);
    assert (other * f) * q == other * (q * f);
  }

  lemma {:induction false} Reorder(a: real, b: real, c: real)
    ensures a * (b * c) == (a * c) * b
  {}

  lemma {:induction false} AtLeastOne(a: real, b: real)
    requires b > 0.0 && a >= b
    ensures Over(a, b) >= 1.0
  {
    assert (a / b) * b == a;
    ScaleOrder(1.0, a / b, b);
  }

  /** Inside a box that fits the image the factor is at least 1 and keeps both sides within the image. */
  lemma {:induction false} FactorFits(width: real, height: real, w: real, h: real)
    requires 0.0 < width <= w && 0.0 < height <= h && Min(height, width) <= MIN_DIMENSION
    ensures Factor(width, height, w, h) >= 1.0
    ensures width <= Times(width, Factor(width, height, w, h)) <= w
    ensures height <= Times(height, Factor(width, height, w, h)) <= h
    ensures Times(Min(height, width), Factor(width, height, w, h)) <= MIN_DIMENSION
  {
    var f, m := Factor(width, height, w, h), Min(height, width);
    AtLeastOne(MIN_DIMENSION, m);
    AtLeastOne(w, width);
    AtLeastOne(h, height);
    Below(width, f, w);
    Below(height, f, h);
    Below(m, f, MIN_DIMENSION);
  }

  lemma {:induction false} Below(side: real, f: real, limit: real)
    requires side > 0.0 && 1.0 <= f <= Over(limit, side)
    ensures side <= Times(side, f) <= limit
  {
    assert (limit / side) * side == limit;
    ScaleOrder(f, limit / side, side);
    ScaleOrder(f, 1.0, side);
  }

  // ---------- the grown box ----------

  ghost predicate Inside(b: Box, w: real, h: real) {
    0.0 <= b.left && 0.0 <= b.top && b.right <= w && b.bottom <= h
  }

  ghost predicate Contains(outer: Box, inner: Box) {
    outer.left <= inner.left && outer.top <= inner.top && inner.right <= outer.right && inner.bottom <= outer.bottom
  }

  lemma {:induction false} PlacedFits(lo: real, hi: real, size: real, limit: real)
    requires 0.0 <= lo <= hi <= limit && hi - lo <= size <= limit
    ensures var x := Placed((lo + hi) / 2.0, size, limit); 0.0 <= x <= lo && hi <= x + size <= limit
  {}

  /** Growing stays in the image and around the box, by one factor of at least 1 for both sides. */
  lemma {:induction false} GrownFits(b: Box, w: real, h: real)
    requires b.left < b.right && b.top < b.bottom && Inside(b, w, h) && Small(b)
    ensures var g, f := Grown(b, w, h), Factor(b.Width(), b.Height(), w, h);
            && f >= 1.0 && g.Width() == Times(b.Width(), f) && g.Height() == Times(b.Height(), f)
            && Inside(g, w, h) && Contains(g, b)
            && g.Width() <= w && g.Height() <= h
  {
    FactorFits(b.Width(), b.Height(), w, h);
    hide Factor, Times;
    var f := Factor(b.Width(), b.Height(), w, h);
    var tw, th := Times(b.Width(), f), Times(b.Height(), f);
    PlacedFits(b.left, b.right, tw, w);
    PlacedFits(b.top, b.bottom, th, h);
    hide Placed;
  }

  /** The aspect ratio is kept. */
  lemma {:induction false} GrownAspect(b: Box, w: real, h: real)
    requires b.left < b.right && b.top < b.bottom && Inside(b, w, h) && Small(b)
    ensures Times(Grown(b, w, h).Width(), b.Height()) == Times(Grown(b, w, h).Height(), b.Width())
  {
    GrownFits(b, w, h);
    SameRatio(b.Width(), b.Height(), Factor(b.Width(), b.Height(), w, h));
    hide Factor, Grown, Times;
  }

  lemma {:induction false} SameRatio(x: real, y: real, f: real)
    ensures Times(Times(x, f), y) == Times(Times(y, f), x)
  {}

  lemma {:induction false} FloorBound(x: real)
    ensures Floor(x) <= x < Floor(x) + 1.0
  {}

  lemma {:induction false} FloorOfWhole(n: int)
    ensures Floor(n as real) == n as real
  {}

  lemma {:induction false} FloorAtLeast(x: real, n: int)
    requires n as real <= x
    ensures n as real <= Floor(x)
  {
    assert n <= x.Floor;
  }

  lemma {:induction false} CeilBound(x: real)
    ensures x <= Ceil(x) < x + 1.0 && Floor(Ceil(x)) == Ceil(x)
  {
    FloorBound(-x);
    var n := -(-x).Floor;
    assert Ceil(x) == n as real;
    FloorOfWhole(n);
  }

  lemma {:induction false} FloorTwice(x: real)
    ensures Floor(Floor(x)) == Floor(x)
  {
    FloorOfWhole(x.Floor);
  }

  /** Rounding outwards stops at whole bounds. */
  lemma {:induction false} WholeBounds(x: real, lo: int, hi: int)
    requires lo as real <= x <= hi as real
    ensures lo as real <= Floor(x) && Ceil(x) <= hi as real
  {
    FloorAtLeast(x, lo);
    assert (-hi) as real == -(hi as real);
    FloorAtLeast(-x, -hi);
  }

  lemma {:induction false} RoundedFits(b: Box, w: nat, h: nat)
    requires Inside(b, w as real, h as real) && b.left <= b.right && b.top <= b.bottom
    ensures Inside(Rounded(b), w as real, h as real) && Contains(Rounded(b), b)
    ensures LargeEnough(Rounded(b)) <==> Rounded(b).Width() >= MIN_DIMENSION && Rounded(b).Height() >= MIN_DIMENSION
    ensures b.Width() <= Rounded(b).Width() < b.Width() + 2.0 && b.Height() <= Rounded(b).Height() < b.Height() + 2.0
  {
    WholeBounds(b.left, 0, w);
    WholeBounds(b.right, 0, w);
    WholeBounds(b.top, 0, h);
    WholeBounds(b.bottom, 0, h);
    FloorBound(b.left);
    FloorTwice(b.left);
    FloorBound(b.top);
    FloorTwice(b.top);
    CeilBound(b.right);
    CeilBound(b.bottom);
    hide Floor, Ceil;
  }

  // ---------- which box a small one grows to ----------

  ghost predicate HasPoint(b: Box, x: real, y: real) {
    b.left <= x <= b.right && b.top <= y <= b.bottom
  }

  /** The interval keeps its centre, or it lies at the end of the axis that the centred interval of its size
      would cross. */
  ghost predicate Centred(lo: real, hi: real, from: real, to: real, limit: real) {
    || from + to == lo + hi
    || (from == 0.0 && (lo + hi) / 2.0 - (to - from) / 2.0 < 0.0)
    || (to == limit && (lo + hi) / 2.0 + (to - from) / 2.0 > limit)
  }

  /** `g` is `b` about its own centre with both sides f times as long, shifted into the image where it has to
      be. The shorter side becomes 28, or less than that if a side fills the image. */
  ghost predicate Growth(b: Box, g: Box, f: real, w: real, h: real) {
    && g.Width() == Times(b.Width(), f) && g.Height() == Times(b.Height(), f)
    && Inside(g, w, h)
    && Centred(b.left, b.right, g.left, g.right, w) && Centred(b.top, b.bottom, g.top, g.bottom, h)
    && Filled(Times(Min(b.Width(), b.Height()), f), g, w, h)
  }

  ghost predicate Filled(shorter: real, g: Box, w: real, h: real) {
    shorter == 28.0 || (shorter < 28.0 && (g.Width() == w || g.Height() == h))
  }

  ghost predicate Whole(x: real) { exists n: int {:trigger n as real} :: x == n as real }

  /** The smallest box with whole bounds around `g`. */
  ghost predicate RoundsOut(r: Box, g: Box) {
    && Whole(r.left) && Whole(r.top) && Whole(r.right) && Whole(r.bottom)
    && r.left <= g.left < r.left + 1.0 && r.top <= g.top < r.top + 1.0
    && r.right - 1.0 < g.right <= r.right && r.bottom - 1.0 < g.bottom <= r.bottom
  }

  lemma {:induction false} WholeFloor(x: real, y: real)
    ensures Whole(x) && x <= y < x + 1.0 <==> x == Floor(y)
    ensures Whole(x) && x - 1.0 < y <= x <==> x == Ceil(y)
  {
    if Whole(x) {
      var n: int :| x == n as real;
      if x <= y < x + 1.0 {
        assert y.Floor == n;
      }
      if x - 1.0 < y <= x {
        assert -x == (-n) as real;
        assert (-y).Floor == -n;
      }
    }
    FloorBound(y);
    CeilBound(y);
    var m: int := y.Floor;
    assert Floor(y) == m as real;
    var k: int := -(-y).Floor;
    assert Ceil(y) == k as real;
  }

  lemma {:induction false} RoundedRoundsOut(r: Box, g: Box)
    ensures RoundsOut(r, g) <==> r == Rounded(g)
  {
    WholeFloor(r.left, g.left);
    WholeFloor(r.top, g.top);
    WholeFloor(r.right, g.right);
    WholeFloor(r.bottom, g.bottom);
    hide Floor, Ceil, Whole;
  }

  lemma {:induction false} PlacedCentred(lo: real, hi: real, size: real, limit: real)
    requires 0.0 < size <= limit
    ensures var x := Placed((lo + hi) / 2.0, size, limit);
            0.0 <= x && x + size <= limit && Centred(lo, hi, x, x + size, limit)
  {}

  lemma {:induction false} CentredUnique(lo: real, hi: real, x: real, y: real, size: real, limit: real)
    requires 0.0 <= x && x + size <= limit && 0.0 <= y && y + size <= limit
    requires Centred(lo, hi, x, x + size, limit) && Centred(lo, hi, y, y + size, limit)
    ensures x == y
  {}

  /** The largest factor: 28 pixels for the shorter side, or a full side. */
  lemma {:induction false} FactorFills(b: Box, w: real, h: real)
    requires b.left < b.right && b.top < b.bottom && Inside(b, w, h) && Small(b)
    ensures Filled(Times(Min(b.Width(), b.Height()), Factor(b.Width(), b.Height(), w, h)), Grown(b, w, h), w, h)
  {
    hide Times, Over, Grown;
    GrownFits(b, w, h);
    FactorFits(b.Width(), b.Height(), w, h);
    TimesOver(w, b.Width());
    TimesOver(h, b.Height());
    TimesOver(MIN_DIMENSION, Min(b.Height(), b.Width()));
  }

  lemma {:induction false} GrownGrows(b: Box, w: real, h: real)
    requires b.left < b.right && b.top < b.bottom && Inside(b, w, h) && Small(b)
    ensures Growth(b, Grown(b, w, h), Factor(b.Width(), b.Height(), w, h), w, h)
  {
    GrownFits(b, w, h);
    FactorFills(b, w, h);
    var f := Factor(b.Width(), b.Height(), w, h);
    hide Factor, Times, Filled;
    PlacedCentred(b.left, b.right, Times(b.Width(), f), w);
    PlacedCentred(b.top, b.bottom, Times(b.Height(), f), h);
    hide Placed, Centred;
  }

  lemma {:induction false} TimesLess(x: real, f: real, f': real)
    requires x > 0.0 && f < f'
    ensures Times(x, f) < Times(x, f')
  {
    ScaleOrder(f', f, x);
  }

  lemma {:induction false} NotLarger(b: Box, g: Box, f: real, g': Box, f': real, w: real, h: real)
    requires b.left < b.right && b.top < b.bottom && Growth(b, g, f, w, h) && Growth(b, g', f', w, h)
    ensures f' <= f
  {
    hide Centred, Times;
    if f < f' {
      TimesLess(b.Width(), f, f');
      TimesLess(b.Height(), f, f');
      TimesLess(Min(b.Width(), b.Height()), f, f');
    }
  }

  /** The conditions fix the factor and the box. */
  lemma {:induction false} GrowthUnique(b: Box, g: Box, f: real, g': Box, f': real, w: real, h: real)
    requires b.left < b.right && b.top < b.bottom && Growth(b, g, f, w, h) && Growth(b, g', f', w, h)
    ensures f == f' && g == g'
  {
    NotLarger(b, g, f, g', f', w, h);
    NotLarger(b, g', f', g, f, w, h);
    hide Times, Filled;
    CentredUnique(b.left, b.right, g.left, g'.left, g.Width(), w);
    CentredUnique(b.top, b.bottom, g.top, g'.top, g.Height(), h);
    hide Centred;
  }

  /** What becomes of a box whose part in the image is valid and small: that part grows about its centre, is
      rounded outwards to whole pixels, and is the result unless a side is then below 28 or the sides differ
      by more than a factor of 100. There is exactly one such box. */
  lemma {:induction false} SmallBoxResized(b: Box, w: nat, h: nat) returns (g: Box, f: real, r: Box)
    requires var c := Clamped(b, w as real, h as real); ValidBox(c) && Small(c)
    ensures var c, wr, hr := Clamped(b, w as real, h as real), w as real, h as real;
            && (forall x, y :: HasPoint(c, x, y) <==> HasPoint(b, x, y) && HasPoint(Box(0.0, 0.0, wr, hr), x, y))
            && Growth(c, g, f, wr, hr) && f >= 1.0 && RoundsOut(r, g)
            && (forall g', f' :: Growth(c, g', f', wr, hr) ==> g' == g)
            && (forall r' :: RoundsOut(r', g) ==> r' == r)
            && Resized(b, wr, hr)
               == if ValidBox(r) && r.Width() >= 28.0 && r.Height() >= 28.0 then Some(r) else None
  {
    var wr, hr := w as real, h as real;
    var c := Clamped(b, wr, hr);
    g, f := Grown(c, wr, hr), Factor(c.Width(), c.Height(), wr, hr);
    r := Rounded(g);
    assert Resized(b, wr, hr) == if ValidBox(r) && LargeEnough(r) then Some(r) else None;
    hide Factor, Times, Grown, Rounded, Growth, RoundsOut, Resized, LargeEnough, Floor, Ceil;
    GrownGrows(c, wr, hr);
    GrownFits(c, wr, hr);
    RoundedFits(g, w, h);
    RoundedRoundsOut(r, g);
    forall g', f' | Growth(c, g', f', wr, hr)
      ensures g' == g
    {
      GrowthUnique(c, g, f, g', f', wr, hr);
    }
    forall r' | RoundsOut(r', g)
      ensures r' == r
    {
      RoundedRoundsOut(r', g);
    }
  }

  // ---------- the theorems ----------

  /** A result lies in the image, contains the requested box as far as it is in the image, and has an aspect
      ratio of at most 100 and floored sides of at least 28 pixels. */
  lemma {:induction false} ResultIsGood(b: Box, w: nat, h: nat)
    requires Resized(b, w as real, h as real).Some?
    ensures var r := Resized(b, w as real, h as real).value;
            && Inside(r, w as real, h as real) && Contains(r, Clamped(b, w as real, h as real))
            && ValidBox(r) && Floor(r.bottom) - Floor(r.top) >= 28.0 && Floor(r.right) - Floor(r.left) >= 28.0
  {
    hide Floor, Ceil, Grown, Rounded;
    var c := Clamped(b, w as real, h as real);
    if Small(c) {
      GrownFits(c, w as real, h as real);
      RoundedFits(Grown(c, w as real, h as real), w, h);
    }
  }

  lemma {:induction false} FlooredGap(x: real, y: real)
    requires x + MIN_DIMENSION <= y
    ensures Floor(y) - Floor(x) >= MIN_DIMENSION
  {
    FloorBound(x);
    FloorAtLeast(y, x.Floor + 28);
  }

  /** A box that is valid and not small within the image is returned as it is. */
  lemma {:induction false} LargeStays(b: Box, w: real, h: real)
    requires ValidBox(Clamped(b, w, h)) && !Small(Clamped(b, w, h))
    ensures Resized(b, w, h) == Some(Clamped(b, w, h))
  {
    var c := Clamped(b, w, h);
    FlooredGap(c.left, c.right);
    FlooredGap(c.top, c.bottom);
    hide Floor;
  }

  /** Resizing a result again changes nothing. */
  lemma {:induction false} Idempotent(b: Box, w: nat, h: nat)
    requires Resized(b, w as real, h as real).Some?
    ensures var r := Resized(b, w as real, h as real).value; Resized(r, w as real, h as real) == Some(r)
  {
    var wr, hr := w as real, h as real;
    var r := Resized(b, wr, hr).value;
    ResultIsGood(b, w, h);
    var c := Clamped(b, wr, hr);
    hide Resized;
    assert Clamped(r, wr, hr) == r;
    if Small(c) {
      RoundedSides(b, w, h);
    }
    LargeStays(r, wr, hr);
  }

  /** A grown result has whole bounds, so its sides really are at least 28. */
  lemma {:induction false} RoundedSides(b: Box, w: nat, h: nat)
    requires Resized(b, w as real, h as real).Some? && Small(Clamped(b, w as real, h as real))
    ensures !Small(Resized(b, w as real, h as real).value)
  {
    hide Floor, Ceil, Grown;
    var c := Clamped(b, w as real, h as real);
    GrownFits(c, w as real, h as real);
    RoundedFits(Grown(c, w as real, h as real), w, h);
  }

  /** The image has room to scale the smaller side up to the minimum: no shrinking is needed. */
  predicate Roomy(b: Box, w: real, h: real) {
    var m := Min(b.Height(), b.Width());
    Times(MIN_DIMENSION, b.Width()) <= Times(w, m) && Times(MIN_DIMENSION, b.Height()) <= Times(h, m)
  }

  lemma {:induction false} CrossQuotients(a: real, b: real, x: real, y: real)
    requires b > 0.0 && y > 0.0
    ensures Over(a, b) <= Over(x, y) <==> Times(a, y) <= Times(x, b)
  {
    assert (a / b) * b == a && (x / y) * y == x;
    PositiveProduct(b, y);
    ScaleOrder(a / b, x / y, b * y);
    assert (a / b) * (b * y) == a * y;
    Reorder(x / y, b, y);
  }

  lemma {:induction false} TimesOver(a: real, b: real)
    requires a > 0.0 && b > 0.0
    ensures Over(a, b) > 0.0 && Times(b, Over(a, b)) == a
  {
    PositiveQuotient(a, b);
  }

  /** Without shrinking the smaller side becomes exactly the minimum. */
  lemma {:induction false} RoomyFactor(b: Box, w: real, h: real)
    requires b.left < b.right && b.top < b.bottom && Roomy(b, w, h)
    ensures var m, f := Min(b.Height(), b.Width()), Factor(b.Width(), b.Height(), w, h);
            f > 0.0 && f == Over(MIN_DIMENSION, m) && Times(m, f) == MIN_DIMENSION
  {
    hide Over, Times;
    var m := Min(b.Height(), b.Width());
    CrossQuotients(MIN_DIMENSION, m, w, b.Width());
    CrossQuotients(MIN_DIMENSION, m, h, b.Height());
    TimesOver(MIN_DIMENSION, m);
  }

  lemma {:induction false} TimesOrder(x: real, y: real, f: real)
    requires f > 0.0 && x <= y
    ensures Times(x, f) <= Times(y, f) && (Times(x, f) == Times(y, f) <==> x == y)
  {
    ScaleOrder(y, x, f);
  }

  /** On the pixel grid the longer side spreads over more than 2800 pixels, while the 28 pixels of the shorter
      one start on a whole pixel. */
  predicate Tips(b: Box, w: real, h: real)
    requires b.left < b.right && b.top < b.bottom
  {
    var k := Over(MIN_DIMENSION, Min(b.Height(), b.Width()));
    var tw, th := Times(b.Width(), k), Times(b.Height(), k);
    var x, y := Placed((b.left + b.right) / 2.0, tw, w), Placed((b.top + b.bottom) / 2.0, th, h);
    || (b.Height() <= b.Width() && Floor(y) == y && Ceil(x + tw) - Floor(x) > 2800.0)
    || (b.Width() <= b.Height() && Floor(x) == x && Ceil(y + th) - Floor(y) > 2800.0)
  }

  /** Without shrinking the size check never rejects, and the aspect check rejects exactly if the box tips. */
  lemma {:induction false} RoomySucceeds(b: Box, w: nat, h: nat)
    requires var c := Clamped(b, w as real, h as real); ValidBox(c) && Small(c) && Roomy(c, w as real, h as real)
    ensures var c := Clamped(b, w as real, h as real);
            var r := Rounded(Grown(c, w as real, h as real));
            && LargeEnough(r)
            && (Resized(b, w as real, h as real) == None <==> Tips(c, w as real, h as real))
            && (Resized(b, w as real, h as real) == Some(r) <==> !Tips(c, w as real, h as real))
  {
    var wr, hr := w as real, h as real;
    var c := Clamped(b, wr, hr);
    GrownFits(c, wr, hr);
    RoundedFits(Grown(c, wr, hr), w, h);
    RoomySides(c, wr, hr);
    RoundedAspect(c, wr, hr);
    hide Floor, Ceil, Times, Factor, Grown, Rounded, Tips, Roomy;
  }

  /** Rounding spoils the aspect ratio exactly if the box tips. */
  lemma {:induction false} RoundedAspect(b: Box, w: real, h: real)
    requires ValidBox(b) && Inside(b, w, h) && Small(b) && Roomy(b, w, h)
    ensures ValidBox(Rounded(Grown(b, w, h))) <==> !Tips(b, w, h)
  {
    var m := Min(b.Height(), b.Width());
    RoomyFactor(b, w, h);
    RoomySides(b, w, h);
    SidesBelow(b, w, h, 2800.0);
    ShorterSide(b, w, h);
    var g := Grown(b, w, h);
    hide Floor, Ceil, Times, Over, Factor, Placed, ValidBox, Roomy, Small;
    assert g.Width() == g.right - g.left && g.Height() == g.bottom - g.top;
    RoundedTips(g);
  }

  /** The side that was the shorter one is the one that becomes 28. */
  lemma {:induction false} ShorterSide(b: Box, w: real, h: real)
    requires b.left < b.right && b.top < b.bottom && Inside(b, w, h) && Small(b) && Roomy(b, w, h)
    ensures Grown(b, w, h).Height() == MIN_DIMENSION <==> b.Height() <= b.Width()
    ensures Grown(b, w, h).Width() == MIN_DIMENSION <==> b.Width() <= b.Height()
  {
    hide Factor, Times, Grown;
    GrownFits(b, w, h);
    RoomyFactor(b, w, h);
    var m, f := Min(b.Height(), b.Width()), Factor(b.Width(), b.Height(), w, h);
    TimesOrder(m, b.Width(), f);
    TimesOrder(m, b.Height(), f);
  }

  lemma {:induction false} RoundedTips(g: Box)
    requires MIN_DIMENSION <= g.Width() <= 2800.0 && MIN_DIMENSION <= g.Height() <= 2800.0
    ensures ValidBox(Rounded(g)) <==>
              !(|| (g.Height() == MIN_DIMENSION && Floor(g.top) == g.top && Ceil(g.right) - Floor(g.left) > 2800.0)
                || (g.Width() == MIN_DIMENSION && Floor(g.left) == g.left && Ceil(g.bottom) - Floor(g.top) > 2800.0))
  {
    var n := Span(g.left, g.right);
    var m := Span(g.top, g.bottom);
    hide Floor, Ceil;
  }

  /** The pixels an interval touches: at least 28, and exactly 28 only for 28 whole ones. */
  lemma {:induction false} Span(lo: real, hi: real) returns (n: int)
    requires MIN_DIMENSION <= hi - lo <= 2800.0
    ensures Ceil(hi) - Floor(lo) == n as real && 28 <= n <= 2801
    ensures n == 28 <==> hi - lo == MIN_DIMENSION && Floor(lo) == lo
  {
    n := SpanIsWhole(lo, hi);
    FloorBound(lo);
    CeilBound(hi);
    if hi - lo == MIN_DIMENSION && Floor(lo) == lo {
      WholeBounds(hi, lo.Floor + 28, lo.Floor + 28);
    }
    hide Floor, Ceil;
    assert 27.0 < (n as real) < 2802.0;
  }

  lemma {:induction false} RoomySides(b: Box, w: real, h: real)
    requires b.left < b.right && b.top < b.bottom && Inside(b, w, h) && Small(b) && Roomy(b, w, h)
    ensures Grown(b, w, h).Width() >= MIN_DIMENSION && Grown(b, w, h).Height() >= MIN_DIMENSION
    ensures Min(Grown(b, w, h).Width(), Grown(b, w, h).Height()) == MIN_DIMENSION
  {
    GrownFits(b, w, h);
    RoomyFactor(b, w, h);
    var m, f := Min(b.Height(), b.Width()), Factor(b.Width(), b.Height(), w, h);
    TimesOrder(m, b.Width(), f);
    TimesOrder(m, b.Height(), f);
    hide Factor, Times, Grown;
  }

  /** Scaling the smaller side to 28 scales the larger one to the limit at most. */
  lemma {:induction false} SidesBelow(b: Box, w: real, h: real, limit: real)
    requires b.left < b.right && b.top < b.bottom && Inside(b, w, h) && Small(b) && Roomy(b, w, h)
    requires limit == 2799.0 || limit == 2800.0
    requires 28.0 * Max(b.Height(), b.Width()) <= limit * Min(b.Height(), b.Width())
    ensures Grown(b, w, h).Width() <= limit && Grown(b, w, h).Height() <= limit
  {
    hide Factor, Times, Grown;
    GrownFits(b, w, h);
    RoomyFactor(b, w, h);
    var m, n, f := Min(b.Height(), b.Width()), Max(b.Height(), b.Width()), Factor(b.Width(), b.Height(), w, h);
    TimesOrder(b.Width(), n, f);
    TimesOrder(b.Height(), n, f);
    SlackScaled(m, n, f, limit);
  }

  lemma {:induction false} SlackScaled(m: real, n: real, f: real, limit: real)
    requires f > 0.0 && (limit == 2799.0 || limit == 2800.0)
    requires 28.0 * n <= limit * m && Times(m, f) == 28.0
    ensures Times(n, f) <= limit
  {
    ScaleOrder(28.0 * n, limit * m, f);
  }

  /** So an aspect ratio of at most 2799 / 28 always succeeds when no shrinking is needed. */
  lemma {:induction false} SlackSucceeds(b: Box, w: nat, h: nat)
    requires var c := Clamped(b, w as real, h as real); ValidBox(c) && Small(c) && Roomy(c, w as real, h as real)
    requires var c := Clamped(b, w as real, h as real);
             28.0 * Max(c.Height(), c.Width()) <= 2799.0 * Min(c.Height(), c.Width())
    ensures Resized(b, w as real, h as real).Some?
  {
    var wr, hr := w as real, h as real;
    var c := Clamped(b, wr, hr);
    RoomySucceeds(b, w, h);
    SlackNeverTips(c, wr, hr);
    hide Floor, Ceil, Times, Factor, Grown, Rounded, Resized, Tips, Roomy;
  }

  lemma {:induction false} SlackNeverTips(b: Box, w: real, h: real)
    requires b.left < b.right && b.top < b.bottom && Inside(b, w, h) && Small(b) && Roomy(b, w, h)
    requires 28.0 * Max(b.Height(), b.Width()) <= 2799.0 * Min(b.Height(), b.Width())
    ensures !Tips(b, w, h)
  {
    SidesBelow(b, w, h, 2799.0);
    RoomyFactor(b, w, h);
    var g := Grown(b, w, h);
    hide Floor, Ceil, Times, Over, Factor, Placed, Roomy, Small;
    SpanBelow(g.left, g.right);
    SpanBelow(g.top, g.bottom);
  }

  lemma {:induction false} SpanBelow(lo: real, hi: real)
    requires hi - lo <= 2799.0
    ensures Ceil(hi) - Floor(lo) <= 2800.0
  {
    FloorBound(lo);
    CeilBound(hi);
    var n := SpanIsWhole(lo, hi);
    hide Floor, Ceil;
    assert (n as real) < 2801.0;
    assert n <= 2800;
  }

  lemma {:induction false} SpanIsWhole(lo: real, hi: real) returns (n: int)
    ensures Ceil(hi) - Floor(lo) == n as real
  {
    var a, b := -(-hi).Floor, lo.Floor;
    assert Ceil(hi) == a as real && Floor(lo) == b as real;
    n := a - b;
  }

  /** The image is so tight that the smaller side scales to 26 pixels at most. */
  predicate Cramped(b: Box, w: real, h: real) {
    var m := Min(b.Height(), b.Width());
    Times(w, m) <= Times(26.0, b.Width()) || Times(h, m) <= Times(26.0, b.Height())
  }

  /** A box in such an image is always rejected, however it lies on the pixel grid. */
  lemma {:induction false} CrampedFails(b: Box, w: nat, h: nat)
    requires var c := Clamped(b, w as real, h as real);
             && ValidBox(c) && Small(c)
             && Cramped(c, w as real, h as real)
    ensures Resized(b, w as real, h as real) == None
  {
    var wr, hr := w as real, h as real;
    var c := Clamped(b, wr, hr);
    assert c.left < c.right && c.top < c.bottom && Inside(c, wr, hr);
    hide Floor, Ceil, Times, Factor, Grown, Rounded, Cramped, ValidBox;
    CrampedSide(c, wr, hr);
    GrownFits(c, wr, hr);
    RoundedFits(Grown(c, wr, hr), w, h);
  }

  lemma {:induction false} CrampedSide(b: Box, w: real, h: real)
    requires b.left < b.right && b.top < b.bottom && Inside(b, w, h) && Small(b) && Cramped(b, w, h)
    ensures Min(Grown(b, w, h).Width(), Grown(b, w, h).Height()) <= 26.0
  {
    hide Times, Over, Grown;
    GrownFits(b, w, h);
    var m, f := Min(b.Height(), b.Width()), Factor(b.Width(), b.Height(), w, h);
    CrossQuotients(w, b.Width(), 26.0, m);
    CrossQuotients(h, b.Height(), 26.0, m);
    assert f <= Over(26.0, m);
    TimesOver(26.0, m);
    TimesOrder(f, Over(26.0, m), m);
    TimesSwap(f, m);
    TimesSwap(Over(26.0, m), m);
  }

  lemma {:induction false} TimesSwap(x: real, y: real)
    ensures Times(x, y) == Times(y, x)
  {}

  /** Rounding outwards can push an aspect ratio of exactly 100 above 100: this valid box, in an image with
      plenty of room, is rejected. A fifth of a pixel higher the same box is accepted. */
  lemma {:induction false} RoundingRejects()
    ensures var b := Box(1450.5, 49.5, 1550.5, 50.5);
            && ValidBox(Clamped(b, 3000.0, 100.0)) && Roomy(Clamped(b, 3000.0, 100.0), 3000.0, 100.0)
            && Resized(b, 3000.0, 100.0) == None
    ensures Resized(Box(1450.5, 49.3, 1550.5, 50.3), 3000.0, 100.0) == Some(Box(100.0, 35.0, 2901.0, 64.0))
  {
    var b, up := Box(1450.5, 49.5, 1550.5, 50.5), Box(1450.5, 49.3, 1550.5, 50.3);
    assert Clamped(b, 3000.0, 100.0) == b && Clamped(up, 3000.0, 100.0) == up;
    assert Factor(100.0, 1.0, 3000.0, 100.0) == 28.0;
    assert Grown(b, 3000.0, 100.0) == Box(100.5, 36.0, 2900.5, 64.0);
    assert Grown(up, 3000.0, 100.0) == Box(100.5, 35.8, 2900.5, 63.8);
    assert Floor(100.5) == 100.0 && Floor(36.0) == 36.0 && Floor(-2900.5) == -2901.0 && Floor(-64.0) == -64.0;
    assert Floor(35.8) == 35.0 && Floor(-63.8) == -64.0;
    assert Rounded(Grown(b, 3000.0, 100.0)) == Box(100.0, 36.0, 2901.0, 64.0);
    assert Rounded(Grown(up, 3000.0, 100.0)) == Box(100.0, 35.0, 2901.0, 64.0);
    assert Floor(64.0) == 64.0 && Floor(35.0) == 35.0 && Floor(2901.0) == 2901.0 && Floor(100.0) == 100.0;
  }

  /** No larger bound than 2799 / 28 is safe: for every ratio above it some box is rejected. */
  lemma {:induction false} SlackIsSharp(ratio: real) returns (b: Box)
    requires 2799.0 < 28.0 * ratio <= 2800.0
    ensures b.Height() == 1.0 && b.Width() == ratio && Clamped(b, 3000.0, 100.0) == b
    ensures ValidBox(b) && Roomy(b, 3000.0, 100.0) && Resized(b, 3000.0, 100.0) == None
  {
    var start := 100.0 + (2801.0 - 28.0 * ratio) / 2.0;
    var center := start + 14.0 * ratio;
    b := Box(center - ratio / 2.0, 49.5, center + ratio / 2.0, 50.5);
    assert Over(MIN_DIMENSION, 1.0) == 28.0;
    var tw := Times(b.Width(), 28.0);
    assert tw == 28.0 * ratio && Times(b.Height(), 28.0) == 28.0;
    assert Placed((b.left + b.right) / 2.0, tw, 3000.0) == start;
    assert Placed((b.top + b.bottom) / 2.0, 28.0, 100.0) == 36.0;
    FloorOfWhole(36);
    WideSpan(start, tw);
    hide Floor, Ceil;
    assert Tips(b, 3000.0, 100.0);
    RoomySucceeds(b, 3000, 100);
  }

  lemma {:induction false} WideSpan(start: real, size: real)
    requires 100.0 < start < 101.0 && start + size > 2900.0
    ensures Ceil(start + size) - Floor(start) > 2800.0
  {
    FloorBound(start);
    CeilBound(start + size);
    FloorAtLeast(start + size, 2900);
    assert start.Floor == 100;
  }
}
