/**
  `make_shape` of xy_interpolation.py: close the control polygon, fit a
  periodic spline through it, reject self-intersecting fits, and keep every
  k-th sample so that at most `max_output_len` points remain.

  SciPy's `splprep`/`splev` are not modelled: the spline evaluator is the
  parameter `spline`, which maps the closed control points to the samples at
  `linspace(0, 1, n)` (or to the exception SciPy raises).
 */
module Shape {
  import opened Outcomes
  import opened PyNum
  import opened Curves
  import opened Intersection

  /** `interp`'s default sample count n. */
  const SampleCount: nat := 2000

  /** The self-intersection threshold `curve_intersects` uses by default. */
  const IntersectThresh: int := 100

  /**
    `np.append(x, x[0])` on both coordinate lists: the polygon closed by
    repeating its first point at the end.
   */
  function Close(pts: Curve): (r: Curve)
    requires |pts.xs| > 0 && |pts.ys| > 0
    ensures |r.xs| == |pts.xs| + 1 && |r.ys| == |pts.ys| + 1
    ensures r.xs[..|pts.xs|] == pts.xs && r.ys[..|pts.ys|] == pts.ys
    ensures r.xs[|r.xs| - 1] == r.xs[0] && r.ys[|r.ys| - 1] == r.ys[0]
  {
    Curve(pts.xs + [pts.xs[0]], pts.ys + [pts.ys[0]])
  }

  /**
    `interp(points)`: the spline samples with the first one removed
    (`np.delete(xnew, 0)`), since on a periodic spline it repeats the last.
    Deleting from an empty array raises IndexError.
   */
  function Interp(points: Curve, spline: Curve -> Outcome<Curve>): (r: Outcome<Curve>)
    ensures r.Ok? ==> spline(points).Ok? &&
                      |r.value.xs| + 1 == |spline(points).value.xs| &&
                      |r.value.ys| + 1 == |spline(points).value.ys|
  {
    match spline(points)
    case Raised(e) => Raised(e)
    case Ok(s) =>
      if |s.xs| == 0 || |s.ys| == 0 then Raised(IndexError)
      else Ok(Curve(s.xs[1..], s.ys[1..]))
  }

  /**
    `s[::k]` for a positive step: the elements at 0, k, 2k, ..., that is
    ceil(|s| / k) of them.
   */
  function EveryKth<T>(s: seq<T>, k: nat): (r: seq<T>)
    requires k >= 1
    ensures (|r| - 1) * k < |s| <= |r| * k
    decreases |s|
  {
    if |s| == 0 then []
    else if |s| <= k then [s[0]]
    else
      var rest := EveryKth(s[k..], k);
      assert (|rest| + 1 - 1) * k == (|rest| - 1) * k + k;
      assert (|rest| + 1) * k == |rest| * k + k;
      [s[0]] + rest
  }

  /** Element i of `s[::k]` is element i * k of s. */
  lemma {:induction false} EveryKthAt<T>(s: seq<T>, k: nat, i: nat)
    requires k >= 1 && i < |EveryKth(s, k)|
    ensures i * k < |s| && EveryKth(s, k)[i] == s[i * k]
    decreases |s|
  {
    if i > 0 {
      assert |s| > k;
      EveryKthAt(s[k..], k, i - 1);
      var j := (i - 1) * k;
      assert j + k == i * k;
      assert EveryKth(s, k)[i] == EveryKth(s[k..], k)[i - 1];
      assert s[k..][j] == s[j + k];
    }
  }

  function Reversed<T>(s: seq<T>): (r: seq<T>)
    ensures |r| == |s|
    ensures forall i | 0 <= i < |s| :: r[i] == s[|s| - 1 - i]
  {
    if s == [] then [] else Reversed(s[1..]) + [s[0]]
  }

  /**
    `s[::k]` for any nonzero step; a negative step walks backwards from the
    last element.
   */
  function Stride<T>(s: seq<T>, k: int): seq<T>
    requires k != 0
  {
    if k > 0 then EveryKth(s, k) else EveryKth(Reversed(s), -k)
  }

  /**
    The thinning step of `make_shape`: the step is
    `len(xs) // max_output_len + 1`; a zero `max_output_len` divides by
    zero, and a zero step is refused by Python's slicing.
   */
  function Sparse(fit: Curve, maxOutputLen: int): Outcome<Curve>
  {
    if maxOutputLen == 0 then Raised(ZeroDivisionError)
    else
      var k := FloorDiv(|fit.xs|, maxOutputLen) + 1;
      if k == 0 then Raised(ValueError)
      else Ok(Curve(Stride(fit.xs, k), Stride(fit.ys, k)))
  }

  /**
    `make_shape(pts, max_output_len)`: the length assertion, the closing
    `x[0]` (IndexError on empty lists), the spline fit, the ValueError for a
    self-intersecting fit, then the thinning.
   */
  function MakeShape(pts: Curve, maxOutputLen: int, spline: Curve -> Outcome<Curve>): Outcome<Curve>
  {
    if |pts.xs| != |pts.ys| then Raised(AssertionError)
    else if |pts.xs| == 0 then Raised(IndexError)
    else
      match Interp(Close(pts), spline)
      case Raised(e) => Raised(e)
      case Ok(fit) =>
        match SelfIntersects(fit, IntersectThresh)
        case Raised(e) => Raised(e)
        case Ok(crosses) => if crosses then Raised(ValueError) else Sparse(fit, maxOutputLen)
  }

  /** The positive step `n // m + 1` of a positive `max_output_len` m overshoots n after m steps. */
  lemma StepOvershoots(n: nat, m: int)
    requires m >= 1
    ensures FloorDiv(n, m) + 1 == n / m + 1 >= 1
    ensures m * (n / m + 1) > n
  {
    var q := n / m;
    assert FloorDiv(n, m) == q;
    assert n < m * q + m;
    assert m * (q + 1) == m * q + m;
  }

  lemma CountAtMost(c: int, k: int, n: int, m: int)
    requires k >= 1 && (c - 1) * k < n < m * k
    ensures c <= m
  {
  }

  /** Strides of equally long lists are equally long. */
  lemma {:induction false} EveryKthLength<T, U>(s: seq<T>, t: seq<U>, k: nat)
    requires k >= 1 && |s| == |t|
    ensures |EveryKth(s, k)| == |EveryKth(t, k)|
    decreases |s|
  {
    if |s| > k {
      EveryKthLength(s[k..], t[k..], k);
    }
  }

  /** `s[::k]` has at most m elements once m steps of k pass the end of s. */
  lemma EveryKthAtMost<T>(s: seq<T>, k: nat, m: nat)
    requires k >= 1 && m * k > |s|
    ensures |EveryKth(s, k)| <= m
  {
    CountAtMost(|EveryKth(s, k)|, k, |s|, m);
  }

  /**
    With a positive `max_output_len` the thinning never fails, keeps at
    most `max_output_len` points (and at least one of a non-empty fit), and
    every kept point is a sample of the fit.
   */
  lemma SparseKeepsSamples(fit: Curve, m: int)
    requires WellFormed(fit) && m >= 1
    ensures var r := Sparse(fit, m);
            && r.Ok? && WellFormed(r.value)
            && |r.value.xs| <= m
            && (|fit.xs| >= 1 ==> |r.value.xs| >= 1)
            && PointsWithin(r.value, fit)
  {
    var n := |fit.xs|;
    StepOvershoots(n, m);
    var k := n / m + 1;
    EveryKthAtMost(fit.xs, k, m);
    assert k > 0 && FloorDiv(n, m) + 1 == k;
    assert Stride(fit.xs, k) == EveryKth(fit.xs, k);
    assert Stride(fit.ys, k) == EveryKth(fit.ys, k);
    var r := Curve(EveryKth(fit.xs, k), EveryKth(fit.ys, k));
    assert Sparse(fit, m) == Ok(r);
    assert |r.xs| == |r.ys| by {
      EveryKthLength(fit.xs, fit.ys, k);
    }
    forall i, x, y | HasPoint(r, i, x, y)
      ensures exists j :: HasPoint(fit, j, x, y)
    {
      EveryKthAt(fit.xs, k, i);
      EveryKthAt(fit.ys, k, i);
      assert HasPoint(fit, i * k, x, y);
    }
  }

  /**
    With the default 2000 spline samples and `max_output_len = 100`, a
    non-self-intersecting shape has exactly 100 points (step 20 over 1999
    samples).
   */
  lemma DefaultShapeHasHundredPoints(fit: Curve)
    requires WellFormed(fit) && |fit.xs| == SampleCount - 1
    ensures Sparse(fit, 100).Ok? && |Sparse(fit, 100).value.xs| == 100
  {
    StepOvershoots(1999, 100);
  }

  /**
    Once the spline yields enough well-formed samples, `make_shape` raises
    exactly when the fit crosses itself, and then only ValueError; otherwise
    it returns at most `max_output_len` points, all on the fitted spline.
   */
  lemma MakeShapeRejectsExactlySelfIntersecting(
    pts: Curve, m: int, spline: Curve -> Outcome<Curve>)
    requires WellFormed(pts) && |pts.xs| > 0 && m >= 1
    requires spline(Close(pts)).Ok?
    requires var s := spline(Close(pts)).value;
             WellFormed(s) && |s.xs| > 4 * IntersectThresh + 1
    ensures var fit := Interp(Close(pts), spline).value;
            var r := MakeShape(pts, m, spline);
            && (r.Raised? <==> SelfIntersects(fit, IntersectThresh) == Ok(true))
            && (r.Raised? ==> r.exn == ValueError)
            && (r.Ok? ==>
                  r == Sparse(fit, m) && WellFormed(r.value) && |r.value.xs| <= m &&
                  PointsWithin(r.value, fit))
  {
    var fit := Interp(Close(pts), spline).value;
    assert Interp(Close(pts), spline) == Ok(fit);
    assert WellFormed(fit) && |fit.xs| > 4 * IntersectThresh;
    SelfIntersectsTotal(fit, IntersectThresh);
    var crosses := SelfIntersects(fit, IntersectThresh).value;
    assert MakeShape(pts, m, spline) == if crosses then Raised(ValueError) else Sparse(fit, m);
    SparseKeepsSamples(fit, m);
  }
}
