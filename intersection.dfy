/**
  The bounding-box self-intersection detector of xy_interpolation.py:
  `range_intersects`, `box_intersects`, `curve_intersects_rec` and
  `curve_intersects`. Coordinates are reals; NumPy's `min`/`max` of an empty
  array raise ValueError, which the model returns as `Raised(ValueError)`.
 */
module Intersection {
  import opened Outcomes
  import opened Curves

  function SeqMin(s: seq<real>): (m: real)
    requires |s| > 0
    ensures m in s && forall k | 0 <= k < |s| :: m <= s[k]
  {
    if |s| == 1 then s[0]
    else var m := SeqMin(s[1..]); assert forall k | 0 < k < |s| :: s[k] == s[1..][k - 1]; if s[0] <= m then s[0] else m
  }

  function SeqMax(s: seq<real>): (m: real)
    requires |s| > 0
    ensures m in s && forall k | 0 <= k < |s| :: s[k] <= m
  {
    if |s| == 1 then s[0]
    else var m := SeqMax(s[1..]); assert forall k | 0 < k < |s| :: s[k] == s[1..][k - 1]; if s[0] >= m then s[0] else m
  }

  /** `box = (xmin, xmax, ymin, ymax)` */
  datatype Box = Box(xmin: real, xmax: real, ymin: real, ymax: real)

  /**
    `range_intersects((lo1, hi1), (lo2, hi2))`: one of the four endpoints lies
    inside the other range. For ordered ranges this is exactly the overlap of
    the two closed intervals.
   */
  function RangeIntersects(rng1: (real, real), rng2: (real, real)): (r: bool)
    ensures rng1.0 <= rng1.1 && rng2.0 <= rng2.1 ==>
              (r <==> rng1.0 <= rng2.1 && rng2.0 <= rng1.1)
  {
    || rng1.0 <= rng2.0 <= rng1.1
    || rng2.0 <= rng1.0 <= rng2.1
    || rng1.0 <= rng2.1 <= rng1.1
    || rng2.0 <= rng1.1 <= rng2.1
  }

  /** The endpoint test does not depend on which range comes first. */
  lemma RangeIntersectsSymmetric(rng1: (real, real), rng2: (real, real))
    ensures RangeIntersects(rng1, rng2) == RangeIntersects(rng2, rng1)
  {
  }

  predicate Ordered(b: Box) {
    b.xmin <= b.xmax && b.ymin <= b.ymax
  }

  /**
    `box_intersects`: the x ranges and the y ranges both intersect; for
    ordered boxes, the two closed rectangles have a point in common.
   */
  function BoxIntersects(box1: Box, box2: Box): (r: bool)
    ensures Ordered(box1) && Ordered(box2) ==>
              (r <==> box1.xmin <= box2.xmax && box2.xmin <= box1.xmax &&
                      box1.ymin <= box2.ymax && box2.ymin <= box1.ymax)
  {
    RangeIntersects((box1.xmin, box1.xmax), (box2.xmin, box2.xmax)) &&
    RangeIntersects((box1.ymin, box1.ymax), (box2.ymin, box2.ymax))
  }

  function BoundingBox(c: Curve): (b: Box)
    requires |c.xs| > 0 && |c.ys| > 0
    ensures Ordered(b)
  {
    Box(SeqMin(c.xs), SeqMax(c.xs), SeqMin(c.ys), SeqMax(c.ys))
  }

  /**
    `curve_intersects_rec(c1, c2, thresh)`: True as soon as c1 has at most
    `thresh` points; otherwise False for disjoint bounding boxes, else the
    short-circuit OR over the four half pairs. A `thresh` below 1 recurses
    without end in the source. Only ValueError (NumPy's min of an empty
    list) can escape.
   */
  function CurveIntersectsRec(c1: Curve, c2: Curve, thresh: int): (r: Outcome<bool>)
    requires thresh >= 1
    ensures |c1.xs| <= thresh ==> r == Ok(true)
    ensures r.Raised? ==> r.exn == ValueError
    decreases |c1.xs|, 1
  {
    if |c1.xs| <= thresh then Ok(true)
    else if |c1.ys| == 0 || |c2.xs| == 0 || |c2.ys| == 0 then Raised(ValueError)
    else if !BoxIntersects(BoundingBox(c1), BoundingBox(c2)) then Ok(false)
    else HalvesIntersect(c1, c2, thresh)
  }

  /**
    The recursive step of `curve_intersects_rec`: both arcs halved, then
    (c1a, c2a) or (c1a, c2b) or (c1b, c2a) or (c1b, c2b), evaluated left to
    right; the first answer that is not False is the answer.
   */
  function HalvesIntersect(c1: Curve, c2: Curve, thresh: int): (r: Outcome<bool>)
    requires thresh >= 1 && |c1.xs| >= 2
    ensures r.Raised? ==> r.exn == ValueError
    decreases |c1.xs|, 0
  {
    var h1 := Halve(c1);
    var h2 := Halve(c2);
    var r1 := CurveIntersectsRec(h1.0, h2.0, thresh);
    if r1 != Ok(false) then r1
    else var r2 := CurveIntersectsRec(h1.0, h2.1, thresh);
    if r2 != Ok(false) then r2
    else var r3 := CurveIntersectsRec(h1.1, h2.0, thresh);
    if r3 != Ok(false) then r3
    else CurveIntersectsRec(h1.1, h2.1, thresh)
  }

  /** Two well-formed arcs whose sizes differ by at most one point. */
  predicate Balanced(c1: Curve, c2: Curve) {
    WellFormed(c1) && WellFormed(c2) && |c1.xs| <= |c2.xs| + 1 && |c2.xs| <= |c1.xs| + 1
  }

  /** Halving sizes that differ by at most one gives halves that differ by at most one. */
  lemma HalfSizes(n1: nat, n2: nat)
    requires n1 <= n2 + 1 && n2 <= n1 + 1
    ensures var a1, b1, a2, b2 := n1 - n1 / 2, n1 / 2, n2 - n2 / 2, n2 / 2;
            && a1 <= a2 + 1 && a2 <= a1 + 1 && a1 <= b2 + 1 && b2 <= a1 + 1
            && b1 <= a2 + 1 && a2 <= b1 + 1 && b1 <= b2 + 1 && b2 <= b1 + 1
  {
    assert n1 == 2 * (n1 / 2) + n1 % 2;
    assert n2 == 2 * (n2 / 2) + n2 % 2;
  }

  /** Each of the four half pairs of balanced arcs is balanced. */
  lemma HalvesBalanced(c1: Curve, c2: Curve)
    requires Balanced(c1, c2)
    ensures var h1, h2 := Halve(c1), Halve(c2);
            Balanced(h1.0, h2.0) && Balanced(h1.0, h2.1) && Balanced(h1.1, h2.0) && Balanced(h1.1, h2.1)
  {
    HalfSizes(|c1.xs|, |c2.xs|);
  }

  /** The short-circuit OR of four answers that did not raise does not raise. */
  lemma HalvesOk(c1: Curve, c2: Curve, thresh: int)
    requires thresh >= 1 && |c1.xs| >= 2
    requires var h1, h2 := Halve(c1), Halve(c2);
             && CurveIntersectsRec(h1.0, h2.0, thresh).Ok? && CurveIntersectsRec(h1.0, h2.1, thresh).Ok?
             && CurveIntersectsRec(h1.1, h2.0, thresh).Ok? && CurveIntersectsRec(h1.1, h2.1, thresh).Ok?
    ensures HalvesIntersect(c1, c2, thresh).Ok?
  {
  }

  /** On balanced arcs no bounding box is ever taken of an empty list. */
  lemma {:induction false} RecNeverRaisesOnBalanced(c1: Curve, c2: Curve, thresh: int)
    requires thresh >= 1 && Balanced(c1, c2)
    ensures CurveIntersectsRec(c1, c2, thresh).Ok?
    decreases |c1.xs|
  {
    if |c1.xs| > thresh {
      var h1, h2 := Halve(c1), Halve(c2);
      assert |h1.0.xs| < |c1.xs| && |h1.1.xs| < |c1.xs|;
      HalvesBalanced(c1, c2);
      RecNeverRaisesOnBalanced(h1.0, h2.0, thresh);
      RecNeverRaisesOnBalanced(h1.0, h2.1, thresh);
      RecNeverRaisesOnBalanced(h1.1, h2.0, thresh);
      RecNeverRaisesOnBalanced(h1.1, h2.1, thresh);
      HalvesOk(c1, c2, thresh);
      assert |c1.ys| > 0 && |c2.xs| > 0 && |c2.ys| > 0;
      assert CurveIntersectsRec(c1, c2, thresh) ==
        if !BoxIntersects(BoundingBox(c1), BoundingBox(c2)) then Ok(false) else HalvesIntersect(c1, c2, thresh);
    }
  }

  /** The two arcs have a sample point in common. */
  ghost predicate SharePoint(c1: Curve, c2: Curve) {
    exists i, j, x, y :: HasPoint(c1, i, x, y) && HasPoint(c2, j, x, y)
  }

  lemma PointInHalf(c: Curve, i: int, x: real, y: real)
    requires WellFormed(c) && HasPoint(c, i, x, y)
    ensures var h := Halve(c);
            (i < |c.xs| / 2 && HasPoint(h.1, i, x, y)) ||
            (i >= |c.xs| / 2 && HasPoint(h.0, i - |c.xs| / 2, x, y))
  {
  }

  lemma PointInBox(c: Curve, i: int, x: real, y: real)
    requires HasPoint(c, i, x, y)
    ensures var b := BoundingBox(c); b.xmin <= x <= b.xmax && b.ymin <= y <= b.ymax
  {
  }

  /** A False answer comes from disjoint bounding boxes or from four False answers on the halves. */
  lemma RecFalseCases(c1: Curve, c2: Curve, thresh: int)
    requires thresh >= 1 && CurveIntersectsRec(c1, c2, thresh) == Ok(false)
    ensures |c1.xs| > thresh && |c1.ys| > 0 && |c2.xs| > 0 && |c2.ys| > 0
    ensures var h1, h2 := Halve(c1), Halve(c2);
            || !BoxIntersects(BoundingBox(c1), BoundingBox(c2))
            || (&& CurveIntersectsRec(h1.0, h2.0, thresh) == Ok(false)
                && CurveIntersectsRec(h1.0, h2.1, thresh) == Ok(false)
                && CurveIntersectsRec(h1.1, h2.0, thresh) == Ok(false)
                && CurveIntersectsRec(h1.1, h2.1, thresh) == Ok(false))
  {
  }

  /** A point common to two arcs is common to one of the four half pairs. */
  lemma SharedPointInHalves(c1: Curve, c2: Curve, i: int, j: int, x: real, y: real)
    requires WellFormed(c1) && WellFormed(c2) && HasPoint(c1, i, x, y) && HasPoint(c2, j, x, y)
    ensures var h1, h2 := Halve(c1), Halve(c2);
            || SharePoint(h1.0, h2.0) || SharePoint(h1.0, h2.1)
            || SharePoint(h1.1, h2.0) || SharePoint(h1.1, h2.1)
  {
    PointInHalf(c1, i, x, y);
    PointInHalf(c2, j, x, y);
    var h1, h2 := Halve(c1), Halve(c2);
    var i' := if i < |c1.xs| / 2 then i else i - |c1.xs| / 2;
    var j' := if j < |c2.xs| / 2 then j else j - |c2.xs| / 2;
    var a := if i < |c1.xs| / 2 then h1.1 else h1.0;
    var b := if j < |c2.xs| / 2 then h2.1 else h2.0;
    assert HasPoint(a, i', x, y) && HasPoint(b, j', x, y);
  }

  /**
    A False answer is sound for sample points: arcs reported as not
    intersecting have no point in common.
   */
  lemma {:induction false} RecFalseMeansNoSharedPoint(c1: Curve, c2: Curve, thresh: int)
    requires thresh >= 1 && WellFormed(c1) && WellFormed(c2)
    requires CurveIntersectsRec(c1, c2, thresh) == Ok(false)
    ensures !SharePoint(c1, c2)
    decreases |c1.xs|
  {
    RecFalseCases(c1, c2, thresh);
    if SharePoint(c1, c2) {
      var i, j, x, y :| HasPoint(c1, i, x, y) && HasPoint(c2, j, x, y);
      PointInBox(c1, i, x, y);
      PointInBox(c2, j, x, y);
      SharedPointInHalves(c1, c2, i, j, x, y);
      var h1, h2 := Halve(c1), Halve(c2);
      assert WellFormed(h1.0) && WellFormed(h1.1) && WellFormed(h2.0) && WellFormed(h2.1);
      RecFalseMeansNoSharedPoint(h1.0, h2.0, thresh);
      RecFalseMeansNoSharedPoint(h1.0, h2.1, thresh);
      RecFalseMeansNoSharedPoint(h1.1, h2.0, thresh);
      RecFalseMeansNoSharedPoint(h1.1, h2.1, thresh);
      assert false;
    }
  }

  /** `combinations(range(n), 2)` from index `i` on, in lexicographic order. */
  function PairsFrom(i: nat, n: nat): (r: seq<(nat, nat)>)
    ensures PairsIn(r, n)
    decreases n - i
  {
    if i >= n then []
    else seq(n - i - 1, k requires 0 <= k < n - i - 1 => (i, i + 1 + k)) + PairsFrom(i + 1, n)
  }

  /** The pairs are exactly the index pairs i <= a < b < n. */
  lemma {:induction false} PairsFromMembers(i: nat, n: nat)
    ensures forall p: (nat, nat) :: p in PairsFrom(i, n) <==> i <= p.0 < p.1 < n
    decreases n - i
  {
    if i < n {
      PairsFromMembers(i + 1, n);
      var head := seq(n - i - 1, k requires 0 <= k < n - i - 1 => (i, i + 1 + k));
      assert PairsFrom(i, n) == head + PairsFrom(i + 1, n);
      forall p: (nat, nat) | i <= p.0 < p.1 < n && p.0 == i
        ensures p in head
      {
        assert head[p.1 - i - 1] == p;
      }
    }
  }

  /** The position of the pair (a, b) in `PairsFrom(0, n)`. */
  lemma PairPosition(a: nat, b: nat, n: nat) returns (k: nat)
    requires a < b < n
    ensures k < |PairsFrom(0, n)| && PairsFrom(0, n)[k] == (a, b)
  {
    PairsFromMembers(0, n);
    var ps := PairsFrom(0, n);
    assert (a, b) in ps;
    k :| 0 <= k < |ps| && ps[k] == (a, b);
  }

  /** There are (n - i)(n - i - 1)/2 of them: 28 for the eight pieces. */
  lemma {:induction false} PairsFromCount(i: nat, n: nat)
    requires i <= n
    ensures 2 * |PairsFrom(i, n)| == (n - i) * (n - i - 1)
    decreases n - i
  {
    if i < n {
      PairsFromCount(i + 1, n);
      var m := n - i - 1;
      assert 2 * |PairsFrom(i, n)| == 2 * m + m * (m - 1);
      assert 2 * m + m * (m - 1) == (m + 1) * m;
    }
  }

  /**
    The `for pair in c_pairs` loop of `curve_intersects` over the answers of
    the pairs in order: the first True answers True, the first exception
    escapes, and False comes back only after every pair said False.
   */
  function FirstNotFalse(rs: seq<Outcome<bool>>): (r: Outcome<bool>)
    ensures r == Ok(false) <==> forall k | 0 <= k < |rs| :: rs[k] == Ok(false)
    ensures r != Ok(false) ==> r in rs
  {
    if rs == [] then Ok(false)
    else if rs[0] == Ok(false) then
      assert forall k | 0 < k < |rs| :: rs[k] == rs[1..][k - 1];
      FirstNotFalse(rs[1..])
    else rs[0]
  }

  /** One step of the scan from position `k`. */
  lemma FirstNotFalseStep(rs: seq<Outcome<bool>>, k: nat)
    requires k < |rs|
    ensures FirstNotFalse(rs[k..]) ==
              if rs[k] == Ok(false) then FirstNotFalse(rs[k + 1..]) else rs[k]
  {
    assert rs[k..][1..] == rs[k + 1..];
  }

  /** When no answer is an exception, the scan is the existential. */
  lemma {:induction false} FirstNotFalseIsAny(rs: seq<Outcome<bool>>)
    requires forall k | 0 <= k < |rs| :: rs[k].Ok?
    ensures FirstNotFalse(rs) == Ok(exists k | 0 <= k < |rs| :: rs[k] == Ok(true))
  {
    if rs != [] {
      if rs[0] == Ok(false) {
        var rest := rs[1..];
        FirstNotFalseIsAny(rest);
        if exists k | 0 <= k < |rs| :: rs[k] == Ok(true) {
          var k :| 0 <= k < |rs| && rs[k] == Ok(true);
          assert rest[k - 1] == rs[k];
        }
        if exists k | 0 <= k < |rest| :: rest[k] == Ok(true) {
          var k :| 0 <= k < |rest| && rest[k] == Ok(true);
          assert rs[k + 1] == rest[k];
        }
      } else {
        assert rs[0].Ok? && rs[0].value;
        assert rs[0] == Ok(true);
      }
    }
  }

  /** `curve_intersects_rec` on one pair of pieces. */
  function PairOutcome(pieces: seq<Curve>, p: (nat, nat), thresh: int): Outcome<bool>
    requires thresh >= 1 && p.0 < |pieces| && p.1 < |pieces|
  {
    CurveIntersectsRec(pieces[p.0], pieces[p.1], thresh)
  }

  /** Every pair is (a, b) with a < b < count. */
  predicate PairsIn(ps: seq<(nat, nat)>, count: nat) {
    forall k | 0 <= k < |ps| :: ps[k].0 < ps[k].1 < count
  }

  /** The answers of the pairs `ps`, in order. */
  function PairOutcomes(pieces: seq<Curve>, ps: seq<(nat, nat)>, thresh: int): (rs: seq<Outcome<bool>>)
    requires thresh >= 1 && PairsIn(ps, |pieces|)
    ensures |rs| == |ps|
  {
    seq(|ps|, k requires 0 <= k < |ps| => PairOutcome(pieces, ps[k], thresh))
  }

  /**
    `curve_intersects(c, thresh)` as a function: the two assertions, then the
    scan over the 28 pairs of the eight `breakup(c, 3)` pieces.
   */
  function SelfIntersects(c: Curve, thresh: int): Outcome<bool>
    requires thresh >= 1
  {
    if |c.xs| != |c.ys| then Raised(AssertionError)
    else if |c.xs| <= thresh * 4 then Raised(AssertionError)
    else FirstNotFalse(PairOutcomes(Breakup(c, 3), PairsFrom(0, 8), thresh))
  }

  /**
    `curve_intersects`: the loop over the pairs with its early return,
    proved to compute `SelfIntersects`.
   */
  method CurveIntersects(c: Curve, thresh: int) returns (r: Outcome<bool>)
    requires thresh >= 1
    ensures r == SelfIntersects(c, thresh)
  {
    if |c.xs| != |c.ys| {
      return Raised(AssertionError);
    }
    if |c.xs| <= thresh * 4 {
      return Raised(AssertionError);
    }
    var cs := Breakup(c, 3);
    var pairs := PairsFrom(0, 8);
    r := ScanPairs(cs, pairs, thresh);
  }

  /**
    `for pair in c_pairs: if curve_intersects_rec(...): return True`, then
    `return False`: the first answer that is not False, or False.
   */
  method ScanPairs(cs: seq<Curve>, pairs: seq<(nat, nat)>, thresh: int) returns (r: Outcome<bool>)
    requires thresh >= 1 && PairsIn(pairs, |cs|)
    ensures r == FirstNotFalse(PairOutcomes(cs, pairs, thresh))
  {
    ghost var rs := PairOutcomes(cs, pairs, thresh);
    assert rs[0..] == rs;
    var k := 0;
    while k < |pairs|
      invariant 0 <= k <= |pairs|
      invariant FirstNotFalse(rs[k..]) == FirstNotFalse(rs)
    {
      var hit := PairOutcome(cs, pairs[k], thresh);
      assert hit == rs[k];
      FirstNotFalseStep(rs, k);
      if hit != Ok(false) {
        return hit;
      }
      k := k + 1;
    }
    return Ok(false);
  }

  /** Over pieces of balanced sizes no pair raises. */
  lemma PairOutcomesNeverRaise(cs: seq<Curve>, ps: seq<(nat, nat)>, thresh: int, lo: nat)
    requires thresh >= 1 && PairsIn(ps, |cs|) && SizesWithin(cs, lo)
    ensures forall k | 0 <= k < |ps| :: PairOutcomes(cs, ps, thresh)[k].Ok?
  {
    forall k | 0 <= k < |ps|
      ensures PairOutcomes(cs, ps, thresh)[k].Ok?
    {
      assert cs[ps[k].0] in cs && cs[ps[k].1] in cs;
      RecNeverRaisesOnBalanced(cs[ps[k].0], cs[ps[k].1], thresh);
    }
  }

  /**
    Over `n` pieces of balanced sizes the scan never raises, and it answers
    True exactly when the pair at some position of `PairsFrom(0, n)` is
    reported as intersecting.
   */
  lemma ScanDecides(cs: seq<Curve>, n: nat, thresh: int, lo: nat)
    requires thresh >= 1 && |cs| == n && SizesWithin(cs, lo)
    ensures var rs := PairOutcomes(cs, PairsFrom(0, n), thresh);
            FirstNotFalse(rs) == Ok(exists k | 0 <= k < |rs| :: rs[k] == Ok(true))
  {
    var ps := PairsFrom(0, n);
    PairOutcomesNeverRaise(cs, ps, thresh, lo);
    FirstNotFalseIsAny(PairOutcomes(cs, ps, thresh));
  }

  /**
    For a well-formed curve of more than 4 * thresh points the detector
    never raises, and it answers True exactly when one of the pairs of
    pieces (all a < b < 8, by `PairsFromMembers`) is reported as
    intersecting.
   */
  lemma SelfIntersectsDecides(c: Curve, thresh: int)
    requires thresh >= 1 && WellFormed(c) && |c.xs| > 4 * thresh
    ensures var rs := PairOutcomes(Breakup(c, 3), PairsFrom(0, 8), thresh);
            SelfIntersects(c, thresh) == Ok(exists k | 0 <= k < |rs| :: rs[k] == Ok(true))
  {
    BreakupBalanced(c, 3, |c.xs|);
    ScanDecides(Breakup(c, 3), 8, thresh, HalvedTimes(|c.xs|, 3));
  }

  /** On a well-formed curve of more than 4 * thresh points the detector never raises. */
  lemma SelfIntersectsTotal(c: Curve, thresh: int)
    requires thresh >= 1 && WellFormed(c) && |c.xs| > 4 * thresh
    ensures SelfIntersects(c, thresh).Ok?
  {
    SelfIntersectsDecides(c, thresh);
  }

  /**
    The detector is conservative: when the first piece has at most
    `thresh` points, the pair (0, 1) already answers True.
   */
  lemma SmallPiecesReportIntersection(c: Curve, thresh: int)
    requires thresh >= 1 && WellFormed(c) && |c.xs| > 4 * thresh
    requires |Breakup(c, 3)[0].xs| <= thresh
    ensures SelfIntersects(c, thresh) == Ok(true)
  {
    var cs := Breakup(c, 3);
    var ps := PairsFrom(0, 8);
    var rs := PairOutcomes(cs, ps, thresh);
    assert ps[0] == (0, 1);
    assert rs[0] == Ok(true);
  }

  /** A scan that answers False leaves every pair of pieces without a common point. */
  lemma ScanFalseMeansApart(cs: seq<Curve>, n: nat, thresh: int, lo: nat, a: nat, b: nat)
    requires thresh >= 1 && |cs| == n && SizesWithin(cs, lo) && a < b < n
    requires FirstNotFalse(PairOutcomes(cs, PairsFrom(0, n), thresh)) == Ok(false)
    ensures !SharePoint(cs[a], cs[b])
  {
    var ps := PairsFrom(0, n);
    var k := PairPosition(a, b, n);
    var rs := PairOutcomes(cs, ps, thresh);
    assert rs[k] == Ok(false);
    assert rs[k] == CurveIntersectsRec(cs[a], cs[b], thresh);
    assert cs[a] in cs && cs[b] in cs;
    RecFalseMeansNoSharedPoint(cs[a], cs[b], thresh);
  }

  /**
    A curve reported as not self-intersecting has no sample point shared by
    two different pieces.
   */
  lemma NoIntersectionMeansPiecesApart(c: Curve, thresh: int, a: nat, b: nat)
    requires thresh >= 1 && SelfIntersects(c, thresh) == Ok(false)
    requires a < b < 8
    ensures !SharePoint(Breakup(c, 3)[a], Breakup(c, 3)[b])
  {
    BreakupBalanced(c, 3, |c.xs|);
    ScanFalseMeansApart(Breakup(c, 3), 8, thresh, HalvedTimes(|c.xs|, 3), a, b);
  }
}
