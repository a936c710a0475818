/**
  Coordinate-pair curves and the bisection helpers of xy_interpolation.py
  (`halve`, `breakup`). A curve is the pair of lists (x, y) the source passes
  around; the two lists are split independently, each at its own midpoint.
 */
module Curves {

  datatype Curve = Curve(xs: seq<real>, ys: seq<real>)

  /** Both coordinate lists have the same length. */
  predicate WellFormed(c: Curve) {
    |c.xs| == |c.ys|
  }

  const Empty := Curve([], [])

  /** (x, y) is point `i` of `c`. */
  ghost predicate HasPoint(c: Curve, i: int, x: real, y: real) {
    0 <= i < |c.xs| && i < |c.ys| && c.xs[i] == x && c.ys[i] == y
  }

  /** Every point of `sub` is a point of `c`. */
  ghost predicate PointsWithin(sub: Curve, c: Curve) {
    forall i, x, y | HasPoint(sub, i, x, y) :: exists j :: HasPoint(c, j, x, y)
  }

  /** Concatenation of two curves, coordinate by coordinate. */
  function Append(a: Curve, b: Curve): Curve {
    Curve(a.xs + b.xs, a.ys + b.ys)
  }

  function Pow2(k: nat): (r: nat)
    ensures r >= 1
  {
    if k == 0 then 1 else 2 * Pow2(k - 1)
  }

  /**
    `halve`: returns (second half, first half), each list cut at len // 2.
    Putting the first half back in front of the second gives the input.
   */
  function Halve(c: Curve): (r: (Curve, Curve))
    ensures Append(r.1, r.0) == c
    ensures |r.1.xs| == |c.xs| / 2 && |r.0.xs| == |c.xs| - |c.xs| / 2
    ensures |r.1.ys| == |c.ys| / 2 && |r.0.ys| == |c.ys| - |c.ys| / 2
  {
    var hx, hy := |c.xs| / 2, |c.ys| / 2;
    assert c.xs[..hx] + c.xs[hx..] == c.xs;
    assert c.ys[..hy] + c.ys[hy..] == c.ys;
    (Curve(c.xs[hx..], c.ys[hy..]), Curve(c.xs[..hx], c.ys[..hy]))
  }

  /**
    `breakup(ls, order)`: 2^order pieces. Order 0 recurses without end in the
    source (order - 1 never reaches the base case 1), hence order >= 1.
   */
  function Breakup(c: Curve, order: nat): (r: seq<Curve>)
    requires order >= 1
    ensures |r| == Pow2(order)
    decreases order
  {
    var h := Halve(c);
    if order == 1 then [h.0, h.1]
    else Breakup(h.0, order - 1) + Breakup(h.1, order - 1)
  }

  /** Concatenation of the pieces taken from last to first. */
  function JoinReversed(ps: seq<Curve>): Curve {
    if ps == [] then Empty else Append(JoinReversed(ps[1..]), ps[0])
  }

  lemma AppendEmpty(a: Curve)
    ensures Append(a, Empty) == a && Append(Empty, a) == a
  {
    assert a.xs + [] == a.xs && [] + a.xs == a.xs;
    assert a.ys + [] == a.ys && [] + a.ys == a.ys;
  }

  lemma AppendAssoc(a: Curve, b: Curve, c: Curve)
    ensures Append(Append(a, b), c) == Append(a, Append(b, c))
  {
    assert (a.xs + b.xs) + c.xs == a.xs + (b.xs + c.xs);
    assert (a.ys + b.ys) + c.ys == a.ys + (b.ys + c.ys);
  }

  lemma {:induction false} JoinReversedConcat(a: seq<Curve>, b: seq<Curve>)
    ensures JoinReversed(a + b) == Append(JoinReversed(b), JoinReversed(a))
  {
    if a == [] {
      assert a + b == b;
      AppendEmpty(JoinReversed(b));
    } else {
      assert (a + b)[1..] == a[1..] + b;
      assert (a + b)[0] == a[0];
      JoinReversedConcat(a[1..], b);
      AppendAssoc(JoinReversed(b), JoinReversed(a[1..]), a[0]);
    }
  }

  /** The pieces of `breakup`, read in reverse order, reconstruct the curve. */
  lemma {:induction false} BreakupReassembles(c: Curve, order: nat)
    requires order >= 1
    ensures JoinReversed(Breakup(c, order)) == c
    decreases order
  {
    var h := Halve(c);
    if order == 1 {
      assert [h.0, h.1][1..] == [h.1];
      assert [h.1][1..] == [];
      AppendEmpty(h.1);
      assert JoinReversed([h.1]) == h.1;
      assert JoinReversed([h.0, h.1]) == Append(h.1, h.0);
      assert Breakup(c, order) == [h.0, h.1];
    } else {
      var lo, hi := Breakup(h.0, order - 1), Breakup(h.1, order - 1);
      BreakupReassembles(h.0, order - 1);
      BreakupReassembles(h.1, order - 1);
      JoinReversedConcat(lo, hi);
      assert JoinReversed(lo + hi) == Append(h.1, h.0);
      assert Breakup(c, order) == lo + hi;
    }
  }

  /** Every piece is well formed and has `lo` or `lo + 1` points. */
  ghost predicate SizesWithin(ps: seq<Curve>, lo: nat) {
    forall p | p in ps :: WellFormed(p) && lo <= |p.xs| <= lo + 1
  }

  /** `lo` halved `k` times with integer division. */
  function HalvedTimes(lo: nat, k: nat): nat {
    if k == 0 then lo else HalvedTimes(lo / 2, k - 1)
  }

  /**
    Pieces of a well-formed curve are well formed and differ in size by at
    most one point: sizes in {lo, lo + 1} become {lo/2, lo/2 + 1} per level.
   */
  lemma {:induction false} BreakupBalanced(c: Curve, order: nat, lo: nat)
    requires order >= 1
    requires WellFormed(c) && lo <= |c.xs| <= lo + 1
    ensures SizesWithin(Breakup(c, order), HalvedTimes(lo, order))
    decreases order
  {
    var h := Halve(c);
    assert WellFormed(h.0) && WellFormed(h.1);
    assert lo / 2 <= |h.0.xs| <= lo / 2 + 1;
    assert lo / 2 <= |h.1.xs| <= lo / 2 + 1;
    if order > 1 {
      BreakupBalanced(h.0, order - 1, lo / 2);
      BreakupBalanced(h.1, order - 1, lo / 2);
    }
  }
}
