/**
  The petal generators of optimize/shape_generators.py (`gen_petal`) and
  backend/flask_app/shape_generators.py (`make_random_petal`), and the array
  helpers both files share (`ptl_find_thinner_half`, `ptl_flip_vertically`,
  `translate_base`, `translate_shape_up`).

  NumPy arrays the helpers update in place are Dafny arrays. The random
  draws (`np.random.uniform`, `pick_val`, the rejection loops over
  `np.random.beta` radii) and the trigonometric nodal base
  (`gen_nodal_base`) are parameters: a draw is the values one attempt
  received.
 */
module Petal {
  import opened Outcomes
  import opened PyNum
  import opened Curves
  import opened Shape

  /**
    `ptl_find_thinner_half(pts)`: -1 when the first x is the smaller (thin
    at the bottom), 1 when it is the larger, 0 on a tie; fewer than three
    values fail on `pts[2]` (or `pts[0]`).
   */
  function ThinnerHalf(pts: seq<real>): (r: Outcome<int>)
    ensures r.Raised? <==> |pts| < 3
    ensures r.Raised? ==> r.exn == IndexError
    ensures r.Ok? ==> -1 <= r.value <= 1
  {
    if |pts| < 3 then Raised(IndexError)
    else if pts[0] < pts[2] then Ok(-1)
    else if pts[0] > pts[2] then Ok(1)
    else Ok(0)
  }

  /** Entries 0 and 2 exchanged, the rest in place. */
  function Swap02<T>(s: seq<T>): (r: seq<T>)
    requires |s| >= 3
    ensures |r| == |s| && r[0] == s[2] && r[2] == s[0]
    ensures forall i | 0 <= i < |s| && i != 0 && i != 2 :: r[i] == s[i]
  {
    s[0 := s[2]][2 := s[0]]
  }

  /** Flipping twice gives the petal back. */
  lemma Swap02Involution<T>(s: seq<T>)
    requires |s| >= 3
    ensures Swap02(Swap02(s)) == s
  {
    assert Swap02(Swap02(s)) == s[0 := s[0]][2 := s[2]];
  }

  /** A flip turns the petal over: the thinner half reverses its sign. */
  lemma FlipTurnsThinnerHalf(s: seq<real>)
    requires |s| >= 3
    ensures ThinnerHalf(Swap02(s)).value == -ThinnerHalf(s).value
  {
  }

  /** `np.flip` of three x values turns the petal over as well. */
  lemma ReverseTurnsThinnerHalf(s: seq<real>)
    requires |s| == 3
    ensures ThinnerHalf(Reversed(s)).value == -ThinnerHalf(s).value
  {
  }

  /**
    `ptl_flip_vertically(x_vals, y_vals)`: swaps entries 0 and 2 of both
    arrays through two temporaries, statement by statement. An array too
    short stops it with IndexError where Python would: after `x_vals[0]`
    is overwritten when only `y_vals` is short. Passing one array twice
    still swaps it once.
   */
  method FlipVertically(xv: array<real>, yv: array<real>) returns (r: Outcome<()>)
    modifies xv, yv
    ensures r.Ok? <==> xv.Length >= 3 && yv.Length >= 3
    ensures r.Raised? ==> r.exn == IndexError
    ensures r.Ok? ==> xv[..] == Swap02(old(xv[..])) && yv[..] == Swap02(old(yv[..]))
    ensures xv.Length < 3 || yv.Length == 0 ==> xv[..] == old(xv[..]) && yv[..] == old(yv[..])
    ensures xv.Length >= 3 && 1 <= yv.Length < 3 ==>
              xv[..] == old(xv[..])[0 := old(xv[2])] && yv[..] == old(yv[..])
  {
    if xv.Length == 0 || yv.Length == 0 {
      return Raised(IndexError);
    }
    var tmpX := xv[0];
    var tmpY := yv[0];
    if xv.Length < 3 {
      return Raised(IndexError);
    }
    xv[0] := xv[2];
    if yv.Length < 3 {
      return Raised(IndexError);
    }
    yv[0] := yv[2];
    xv[2] := tmpX;
    yv[2] := tmpY;
    return Ok(());
  }

  /** `s` with `dist` added to each of its first `n` entries. */
  function ShiftPrefix(s: seq<real>, n: int, dist: real): (r: seq<real>)
    ensures |r| == |s|
  {
    seq(|s|, i requires 0 <= i < |s| => if i < n then s[i] + dist else s[i])
  }

  /** Two shifts of the same entries add up. */
  lemma ShiftPrefixAdds(s: seq<real>, n: int, a: real, b: real)
    ensures ShiftPrefix(ShiftPrefix(s, n, a), n, b) == ShiftPrefix(s, n, a + b)
  {
  }

  /** Shifting back undoes a shift. */
  lemma ShiftPrefixUndo(s: seq<real>, n: int, dist: real)
    ensures ShiftPrefix(ShiftPrefix(s, n, dist), n, -dist) == s
  {
    ShiftPrefixAdds(s, n, dist, -dist);
  }

  /**
    `translate_base(pts, dist)`: adds `dist` to `pts[1][n]` for n in
    range(9); the x array is never written. Fewer than nine y values raise
    IndexError after every existing one was shifted.
   */
  method TranslateBase(ys: array<real>, dist: real) returns (r: Outcome<()>)
    modifies ys
    ensures r.Ok? <==> ys.Length >= 9
    ensures r.Raised? ==> r.exn == IndexError
    ensures ys[..] == ShiftPrefix(old(ys[..]), 9, dist)
  {
    var n := 0;
    while n < 9
      invariant 0 <= n <= 9 && n <= ys.Length
      invariant ys[..] == ShiftPrefix(old(ys[..]), n, dist)
    {
      if n >= ys.Length {
        assert ShiftPrefix(old(ys[..]), n, dist) == ShiftPrefix(old(ys[..]), 9, dist);
        return Raised(IndexError);
      }
      ys[n] := ys[n] + dist;
      n := n + 1;
    }
    return Ok(());
  }

  /**
    `translate_shape_up(pts, dist)`: adds `dist` to `pts[1][n]` for n in
    range(len(pts[0])); y values past the length of x stay, and too few y
    values raise IndexError after every existing one was shifted.
   */
  method TranslateShapeUp(xs: array<real>, ys: array<real>, dist: real) returns (r: Outcome<()>)
    modifies ys
    ensures r.Ok? <==> ys.Length >= xs.Length
    ensures r.Raised? ==> r.exn == IndexError
    ensures ys[..] == ShiftPrefix(old(ys[..]), xs.Length, dist)
  {
    var len := xs.Length;
    var n := 0;
    while n < len
      invariant 0 <= n <= len && n <= ys.Length
      invariant ys[..] == ShiftPrefix(old(ys[..]), n, dist)
    {
      if n >= ys.Length {
        assert ShiftPrefix(old(ys[..]), n, dist) == ShiftPrefix(old(ys[..]), len, dist);
        return Raised(IndexError);
      }
      ys[n] := ys[n] + dist;
      n := n + 1;
    }
    return Ok(());
  }

  /** `translate_shape_up` on a curve value: the y values shifted as far as the x values reach. */
  function ShapeUp(c: Curve, dist: real): Outcome<Curve> {
    if |c.ys| < |c.xs| then Raised(IndexError)
    else Ok(Curve(c.xs, ShiftPrefix(c.ys, |c.xs|, dist)))
  }

  /** `translate_base` on a curve value. */
  function BaseUp(c: Curve, dist: real): Outcome<Curve> {
    if |c.ys| < 9 then Raised(IndexError)
    else Ok(Curve(c.xs, ShiftPrefix(c.ys, 9, dist)))
  }

  /** A fresh array holding `s`, as `np.array` or `np.append` builds one. */
  method FromSeq(s: seq<real>) returns (a: array<real>)
    ensures fresh(a) && a[..] == s
  {
    a := new real[|s|](i requires 0 <= i < |s| => s[i]);
  }

  /** `translate_shape_up` on arrays built from a curve gives `ShapeUp`. */
  method ShapeUpArrays(c: Curve, dist: real) returns (r: Outcome<Curve>)
    ensures r == ShapeUp(c, dist)
  {
    var ax := FromSeq(c.xs);
    var ay := FromSeq(c.ys);
    var t := TranslateShapeUp(ax, ay, dist);
    if t.Raised? {
      return Raised(t.exn);
    }
    return Ok(Curve(ax[..], ay[..]));
  }

  // ---- gen_petal: parameters ----

  /** A Python number argument: `isinstance(x, int)` and `x is -1` tell these apart. */
  datatype Number = PyInt(i: int) | PyFloat(f: real)

  function AsReal(n: Number): real {
    match n
    case PyInt(i) => i as real
    case PyFloat(f) => f
  }

  /** The variants `gen_petal` accepts. */
  const Variants: seq<string> := ["curve", "point", "standard", "custom"]

  /** Python's `needle in hay` on strings: a substring test. */
  function Contains(hay: string, needle: string): (r: bool)
    ensures |needle| > |hay| ==> !r
    decreases |hay|
  {
    if |needle| > |hay| then false
    else if hay[..|needle|] == needle then true
    else Contains(hay[1..], needle)
  }

  /**
    The deviation factor: the variant is matched with `in` against the
    strings "custom", "point", "curve" and "standard", so any substring of
    "custom" keeps the caller's factor.
   */
  function Deviation(variant: string, given: real): real {
    if Contains("custom", variant) then given
    else if Contains("point", variant) then 0.20
    else if Contains("curve", variant) then 0.10
    else if Contains("standard", variant) then 0.0
    else given
  }

  /** For the four accepted variants the substring tests pick the intended factor. */
  lemma DeviationOfVariants(variant: string, given: real)
    requires variant in Variants
    ensures Deviation(variant, given) ==
              if variant == "point" then 0.20
              else if variant == "curve" then 0.10
              else if variant == "standard" then 0.0
              else given
  {
    if variant == "curve" {
      assert !Contains("custom", "curve") by {
        assert "custom"[..5][2] != "curve"[2];
        assert "custom"[1..][..5][1] != "curve"[1];
        assert "custom"[1..][1..] == "stom";
      }
      assert !Contains("point", "curve") by {
        assert "point"[..5][0] != "curve"[0];
      }
      assert "curve"[..5] == "curve";
    } else if variant == "point" {
      assert !Contains("custom", "point") by {
        assert "custom"[..5][0] != "point"[0];
        assert "custom"[1..][..5][0] != "point"[0];
        assert "custom"[1..][1..] == "stom";
      }
      assert "point"[..5] == "point";
    } else if variant == "standard" {
      assert "standard"[..8] == "standard";
    } else {
      assert "custom"[..6] == "custom";
    }
  }

  /** CPython keeps one object per integer from -5 to 256. */
  predicate SmallInt(n: int) {
    -5 <= n <= 256
  }

  /**
    `a is not b` in CPython when `b` is a freshly computed sum: the objects
    are the same only for equal values inside the small-integer cache.
   */
  predicate IsNot(a: int, b: int) {
    a != b || !SmallInt(a)
  }

  /** `int(round(num_points / 2, 0))`: half of the points, ties to even. */
  function HalfPoints(n: int): int {
    RoundHalfEven(n as real / 2.0)
  }

  /** Half of the points is within half a point of n / 2. */
  lemma HalfPointsNear(n: int)
    ensures -1 <= 2 * HalfPoints(n) - n <= 1
  {
  }

  /** The split of `num_points` into upper and lower halves as written, with `is not`. */
  function HalvesAsWritten(n: int, upper: int, lower: int): (int, int) {
    if IsNot(n, upper + lower) then (HalfPoints(n), HalfPoints(n)) else (upper, lower)
  }

  /** The split as intended: the caller's halves stay when they add up to `num_points`. */
  function Halves(n: int, upper: int, lower: int): (int, int) {
    if n != upper + lower then (HalfPoints(n), HalfPoints(n)) else (upper, lower)
  }

  /**
    The intended split keeps a consistent caller split, and otherwise gives
    two equal halves that add up to `num_points` when it is even and to one
    more or one less when it is odd.
   */
  lemma HalvesSplit(n: int, upper: int, lower: int)
    ensures var h := Halves(n, upper, lower);
            && (n == upper + lower ==> h == (upper, lower))
            && (n != upper + lower ==> h.0 == h.1 && -1 <= h.0 + h.1 - n <= 1)
            && (n % 2 == 0 ==> h.0 + h.1 == n)
  {
    HalfPointsNear(n);
  }

  /** Inside the small-integer cache `is not` and `!=` agree. */
  lemma HalvesAsWrittenSmall(n: int, upper: int, lower: int)
    requires SmallInt(n)
    ensures HalvesAsWritten(n, upper, lower) == Halves(n, upper, lower)
  {
  }

  /** With 301 points split 150 + 151, `is not` discards the caller's split and loses a point. */
  lemma HalvesAsWrittenDropsPoint()
    ensures Halves(301, 150, 151) == (150, 151)
    ensures HalvesAsWritten(301, 150, 151) == (150, 150)
  {
    assert (301 as real / 2.0).Floor == 150;
  }

  /** What `gen_petal` settles before its retry loop. */
  datatype Setup = Setup(deviation: real, upper: int, lower: int, lengthUpper: real, lengthLower: real)

  /**
    The parameter checks and defaults of `gen_petal`: TypeError for a
    non-int `num_points` or an unknown variant, then the deviation factor,
    the halves, and the `-1` length sentinels (`is -1`, so only the int -1).
   */
  function GenPetalSetup(numPoints: Number, upper: int, lower: int, widthScale: real,
                         lengthUpper: Number, lengthLower: Number, variant: string, deviation: real)
    : Outcome<Setup>
  {
    if !numPoints.PyInt? then Raised(TypeError)
    else if variant !in Variants then Raised(TypeError)
    else
      var h := Halves(numPoints.i, upper, lower);
      var ll := if lengthLower == PyInt(-1) then 1.5 * widthScale else AsReal(lengthLower);
      var lu := if lengthUpper == PyInt(-1) then 1.0 - ll else AsReal(lengthUpper);
      Ok(Setup(Deviation(variant, deviation), h.0, h.1, lu, ll))
  }

  /**
    The setup fails exactly on a non-int point count or an unknown variant;
    otherwise point gets 0.20, curve 0.10, standard 0.00 and custom keeps
    the caller's factor, the lower length defaults to 1.5 * width_scale and
    the upper one to what the lower leaves of the unit length.
   */
  lemma GenPetalSetupRules(numPoints: Number, upper: int, lower: int, widthScale: real,
                           lengthUpper: Number, lengthLower: Number, variant: string, deviation: real)
    ensures var r := GenPetalSetup(numPoints, upper, lower, widthScale, lengthUpper, lengthLower, variant, deviation);
            && (r.Raised? <==> !numPoints.PyInt? || variant !in Variants)
            && (r.Raised? ==> r.exn == TypeError)
            && (r.Ok? ==>
                  && r.value.deviation == (if variant == "point" then 0.20
                                          else if variant == "curve" then 0.10
                                          else if variant == "standard" then 0.0
                                          else deviation)
                  && (r.value.upper, r.value.lower) == Halves(numPoints.i, upper, lower)
                  && (lengthLower == PyInt(-1) ==> r.value.lengthLower == 1.5 * widthScale)
                  && (lengthLower != PyInt(-1) ==> r.value.lengthLower == AsReal(lengthLower))
                  && (lengthUpper == PyInt(-1) ==> r.value.lengthUpper + r.value.lengthLower == 1.0)
                  && (lengthUpper != PyInt(-1) ==> r.value.lengthUpper == AsReal(lengthUpper)))
  {
    if numPoints.PyInt? && variant in Variants {
      DeviationOfVariants(variant, deviation);
    }
  }

  // ---- gen_petal: assembly ----

  /** `xs[1:]` on a NumPy array; empty stays empty. */
  function Tail(s: seq<real>): seq<real> {
    if s == [] then [] else s[1..]
  }

  function Negated(s: seq<real>): (r: seq<real>)
    ensures |r| == |s| && forall i | 0 <= i < |s| :: r[i] == -s[i]
  {
    seq(|s|, i requires 0 <= i < |s| => -s[i])
  }

  function Scaled(s: seq<real>, k: real): (r: seq<real>)
    ensures |r| == |s| && forall i | 0 <= i < |s| :: r[i] == s[i] * k
  {
    seq(|s|, i requires 0 <= i < |s| => s[i] * k)
  }

  /** `xs_l = -1*np.flip(xs_r[1:])`, `ys_l = np.flip(ys_r[1:])`. */
  function Mirror(side: Curve): Curve {
    Curve(Negated(Reversed(Tail(side.xs))), Reversed(Tail(side.ys)))
  }

  /**
    The mirrored side leaves out the first point and lists the others
    backwards, x negated and y kept.
   */
  lemma MirrorPoints(side: Curve)
    requires WellFormed(side) && |side.xs| >= 1
    ensures var m := Mirror(side);
            && WellFormed(m) && |m.xs| == |side.xs| - 1
            && forall k | 0 <= k < |m.xs| ::
                 m.xs[k] == -side.xs[|side.xs| - 1 - k] && m.ys[k] == side.ys[|side.ys| - 1 - k]
  {
  }

  /** What one pass of `gen_petal`'s retry loop draws. */
  datatype PetalDraw = PetalDraw(
    pLower: real,   // pick_val(length_lower, length_lower, deviation_factor)
    right: Curve,   // (rs*cos(ts), rs*sin(ts)) from the drawn radii
    other: Curve)   // the second right side drawn when the petal is not symmetric

  /** The settings of one `gen_petal` call that the attempts share. */
  datatype PetalSettings = PetalSettings(
    nodal: Curve,   // gen_nodal_base(diameter_transducer, radius_extension)
    baseAppend: bool, symmetric: bool, scaleL: real, maxOutLen: int,
    spline: Curve -> Outcome<Curve>)

  /**
    The middle of the outline: the nodal base raised by `p_upper * scale_l`,
    or, without a base, the single point (0, p_upper * scale_l).
   */
  function Middle(d: PetalDraw, ps: PetalSettings): Outcome<Curve> {
    if ps.baseAppend then ShapeUp(ps.nodal, UpperShift(d, ps)) else Ok(Curve([0.0], [UpperShift(d, ps)]))
  }

  /** `p_upper * scale_l` with `p_upper = 1 - p_lower`: how far the base is raised first. */
  function UpperShift(d: PetalDraw, ps: PetalSettings): real {
    (1.0 - d.pLower) * ps.scaleL
  }

  /** `p_lower * scale_l`: how far the whole outline is raised afterwards. */
  function LowerShift(d: PetalDraw, ps: PetalSettings): real {
    d.pLower * ps.scaleL
  }

  /** The two shifts add up to the petal length `scale_l`. */
  lemma ShiftsAddUp(d: PetalDraw, ps: PetalSettings)
    ensures UpperShift(d, ps) + LowerShift(d, ps) == ps.scaleL
  {
  }

  /** `np.append` of three pieces, x and y alike. */
  function Join3(a: Curve, b: Curve, c: Curve): Curve {
    Curve(a.xs + b.xs + c.xs, a.ys + b.ys + c.ys)
  }

  /** The outline of one attempt before the final shift: right side, middle, mirrored side. */
  function Outline(d: PetalDraw, ps: PetalSettings): Outcome<Curve> {
    match Middle(d, ps)
    case Raised(e) => Raised(e)
    case Ok(m) => Ok(Join3(d.right, m, Mirror(if ps.symmetric then d.right else d.other)))
  }

  /** One attempt of `gen_petal`: the outline shifted up by `p_lower * scale_l`, then `make_shape`. */
  function PetalAttempt(d: PetalDraw, ps: PetalSettings): Outcome<(Curve, Curve)> {
    match Outline(d, ps)
    case Raised(e) => Raised(e)
    case Ok(o) =>
      match ShapeUp(o, LowerShift(d, ps))
      case Raised(e) => Raised(e)
      case Ok(pts) =>
        match MakeShape(pts, ps.maxOutLen, ps.spline)
        case Raised(e) => Raised(e)
        case Ok(fit) => Ok((fit, pts))
  }

  /** `np.random.uniform(lo, hi)`: a value between the two bounds. */
  predicate PickedFrom(v: real, lo: real, hi: real) {
    (lo <= v <= hi) || (hi <= v <= lo)
  }

  /** The points of one right side: `1 + num_points_lower` radii below and `1 + num_points_upper` above. */
  function SidePoints(s: Setup): int {
    s.lower + s.upper + 2
  }

  /**
    A draw `gen_petal` can make under this setup: `p_lower` is picked around
    `length_lower` by the deviation factor, and, when both halves have
    points, every right side drawn has one point per radius.
   */
  predicate DrawFits(d: PetalDraw, s: Setup, ps: PetalSettings) {
    && PickedFrom(d.pLower, s.lengthLower * (1.0 - s.deviation), s.lengthLower * (1.0 + s.deviation))
    && (s.upper >= 1 && s.lower >= 1 ==>
          && WellFormed(d.right) && |d.right.xs| == SidePoints(s)
          && (!ps.symmetric ==> WellFormed(d.other) && |d.other.xs| == SidePoints(s)))
  }

  /**
    One attempt under a setup. A half without points fails with ValueError:
    `np.linspace` refuses a negative count, and a half with no radius drawn
    leaves its start array zero-dimensional, which neither sorts nor
    concatenates.
   */
  function SetupAttempt(d: PetalDraw, s: Setup, ps: PetalSettings): Outcome<(Curve, Curve)> {
    if s.upper < 1 || s.lower < 1 then Raised(ValueError) else PetalAttempt(d, ps)
  }

  /** One attempt, building the arrays and shifting them in place. */
  method PetalAttemptRun(d: PetalDraw, ps: PetalSettings) returns (r: Outcome<(Curve, Curve)>)
    ensures r == PetalAttempt(d, ps)
  {
    var up := UpperShift(d, ps);
    var m: Curve;
    if ps.baseAppend {
      var b := ShapeUpArrays(ps.nodal, up);
      if b.Raised? {
        return Raised(b.exn);
      }
      m := b.value;
    } else {
      m := Curve([0.0], [up]);
    }
    assert Middle(d, ps) == Ok(m);
    var o := Join3(d.right, m, Mirror(if ps.symmetric then d.right else d.other));
    var p := ShapeUpArrays(o, LowerShift(d, ps));
    if p.Raised? {
      return Raised(p.exn);
    }
    var fit := MakeShape(p.value, ps.maxOutLen, ps.spline);
    if fit.Raised? {
      return Raised(fit.exn);
    }
    return Ok((fit.value, p.value));
  }

  /** Every entry of `s` raised by `dist`. */
  function Shifted(s: seq<real>, dist: real): (r: seq<real>)
    ensures |r| == |s| && forall i | 0 <= i < |s| :: r[i] == s[i] + dist
  {
    ShiftPrefix(s, |s|, dist)
  }

  /** Raising a concatenation raises each piece. */
  lemma ShiftedConcat(a: seq<real>, b: seq<real>, dist: real)
    ensures Shifted(a + b, dist) == Shifted(a, dist) + Shifted(b, dist)
  {
  }

  /** Raising the mirrored y values is mirroring the raised ones. */
  lemma ShiftedMirror(ys: seq<real>, dist: real)
    requires |ys| >= 1
    ensures Shifted(Reversed(Tail(ys)), dist) == Reversed(Shifted(ys, dist)[1..])
  {
  }

  /**
    A symmetric petal with a base, piece by piece: the right side, the base
    raised by both shifts and the mirrored side, each raised by
    `p_lower * scale_l`.
   */
  lemma SymmetricPetalPieces(d: PetalDraw, ps: PetalSettings)
    requires ps.symmetric && ps.baseAppend
    requires WellFormed(d.right) && WellFormed(ps.nodal)
    ensures Outline(d, ps).Ok? && ShapeUp(Outline(d, ps).value, LowerShift(d, ps)).Ok?
    ensures var down := LowerShift(d, ps);
            ShapeUp(Outline(d, ps).value, down).value ==
              Curve(d.right.xs + ps.nodal.xs + Mirror(d.right).xs,
                    Shifted(d.right.ys, down) + Shifted(Shifted(ps.nodal.ys, UpperShift(d, ps)), down) +
                    Shifted(Mirror(d.right).ys, down))
  {
    var down := LowerShift(d, ps);
    var m := Curve(ps.nodal.xs, Shifted(ps.nodal.ys, UpperShift(d, ps)));
    assert Middle(d, ps) == Ok(m);
    var o := Join3(d.right, m, Mirror(d.right));
    assert Outline(d, ps) == Ok(o);
    assert |o.xs| == |o.ys|;
    ShiftedConcat(d.right.ys + m.ys, Mirror(d.right).ys, down);
    ShiftedConcat(d.right.ys, m.ys, down);
  }

  /**
    A symmetric petal with a base: neither shift fails, the right side is
    raised by `p_lower * scale_l`, the base by the whole length `scale_l`
    (the two shifts add up), and the left side mirrors the right one point
    for point after the first.
   */
  lemma SymmetricPetalShape(d: PetalDraw, ps: PetalSettings)
    requires ps.symmetric && ps.baseAppend
    requires WellFormed(d.right) && |d.right.xs| >= 1 && WellFormed(ps.nodal)
    ensures Outline(d, ps).Ok? && ShapeUp(Outline(d, ps).value, LowerShift(d, ps)).Ok?
    ensures var pts := ShapeUp(Outline(d, ps).value, LowerShift(d, ps)).value;
            var nr, nb := |d.right.xs|, |ps.nodal.xs|;
            && WellFormed(pts) && |pts.xs| == 2 * nr - 1 + nb
            && (forall i | 0 <= i < nr ::
                  pts.xs[i] == d.right.xs[i] && pts.ys[i] == d.right.ys[i] + LowerShift(d, ps))
            && (forall i | 0 <= i < nb ::
                  pts.xs[nr + i] == ps.nodal.xs[i] && pts.ys[nr + i] == ps.nodal.ys[i] + ps.scaleL)
            && pts.xs[nr + nb..] == Negated(Reversed(pts.xs[1..nr]))
            && pts.ys[nr + nb..] == Reversed(pts.ys[1..nr])
  {
    SymmetricPetalPieces(d, ps);
    var down := LowerShift(d, ps);
    var pts := ShapeUp(Outline(d, ps).value, down).value;
    var nr, nb := |d.right.xs|, |ps.nodal.xs|;
    var rys := Shifted(d.right.ys, down);
    var bys := Shifted(Shifted(ps.nodal.ys, UpperShift(d, ps)), down);
    var lys := Shifted(Mirror(d.right).ys, down);
    assert pts.ys == rys + bys + lys;
    assert pts.xs == d.right.xs + ps.nodal.xs + Mirror(d.right).xs;
    MirrorPoints(d.right);
    assert pts.xs[..nr] == d.right.xs && pts.ys[..nr] == rys;
    assert pts.xs[nr..nr + nb] == ps.nodal.xs && pts.ys[nr..nr + nb] == bys;
    assert pts.xs[nr + nb..] == Mirror(d.right).xs && pts.ys[nr + nb..] == lys;
    assert pts.xs[1..nr] == d.right.xs[1..] && pts.ys[1..nr] == rys[1..];
    ShiftedMirror(d.right.ys, down);
    ShiftsAddUp(d, ps);
  }

  /** A petal without a base has its tip at (0, scale_l): the two shifts add up to the full length. */
  lemma PetalTipAtLength(d: PetalDraw, ps: PetalSettings)
    requires !ps.baseAppend && WellFormed(d.right) && WellFormed(d.other)
    ensures Outline(d, ps).Ok? && ShapeUp(Outline(d, ps).value, LowerShift(d, ps)).Ok?
    ensures var pts := ShapeUp(Outline(d, ps).value, LowerShift(d, ps)).value;
            |pts.xs| > |d.right.xs| && pts.xs[|d.right.xs|] == 0.0 && pts.ys[|d.right.xs|] == ps.scaleL
  {
    var up := UpperShift(d, ps);
    var m := Curve([0.0], [up]);
    assert Middle(d, ps) == Ok(m);
    var o := Join3(d.right, m, Mirror(if ps.symmetric then d.right else d.other));
    assert Outline(d, ps) == Ok(o);
    ShiftsAddUp(d, ps);
  }

  /**
    The retry loops of both generators: attempts run in order until one
    does not raise ValueError; its result (or its other exception) is the
    answer. None means every attempt given was rejected and the loop would
    go on drawing.
   */
  function FirstAccepted<R(==)>(attempts: seq<Outcome<R>>): (r: Option<Outcome<R>>)
    decreases |attempts|
  {
    if attempts == [] then None
    else if attempts[0] == Raised(ValueError) then FirstAccepted(attempts[1..])
    else Some(attempts[0])
  }

  /**
    The answer is the first attempt that does not raise ValueError, and
    there is none exactly when every attempt raised it.
   */
  lemma {:induction false} FirstAcceptedIsFirst<R>(attempts: seq<Outcome<R>>)
    ensures FirstAccepted(attempts).None? <==> forall j | 0 <= j < |attempts| :: attempts[j] == Raised(ValueError)
    ensures FirstAccepted(attempts).Some? ==>
              exists k | 0 <= k < |attempts| ::
                && FirstAccepted(attempts).value == attempts[k] != Raised(ValueError)
                && forall j | 0 <= j < k :: attempts[j] == Raised(ValueError)
    decreases |attempts|
  {
    if attempts != [] && attempts[0] == Raised(ValueError) {
      var rest := attempts[1..];
      FirstAcceptedIsFirst(rest);
      assert forall j | 1 <= j < |attempts| :: attempts[j] == rest[j - 1];
      if FirstAccepted(rest).Some? {
        var k :| 0 <= k < |rest| && FirstAccepted(rest).value == rest[k] != Raised(ValueError) &&
                 forall j | 0 <= j < k :: rest[j] == Raised(ValueError);
        assert attempts[k + 1] == rest[k];
      }
    }
  }

  /** The attempts of `gen_petal` for the given draws. */
  function PetalAttempts(draws: seq<PetalDraw>, s: Setup, ps: PetalSettings): (r: seq<Outcome<(Curve, Curve)>>)
    ensures |r| == |draws| && forall i | 0 <= i < |draws| :: r[i] == SetupAttempt(draws[i], s, ps)
  {
    seq(|draws|, i requires 0 <= i < |draws| => SetupAttempt(draws[i], s, ps))
  }

  /** With a half that has no points every attempt fails, so the retry loop never ends. */
  lemma EmptyHalfNeverAccepted(draws: seq<PetalDraw>, s: Setup, ps: PetalSettings)
    requires s.upper < 1 || s.lower < 1
    ensures FirstAccepted(PetalAttempts(draws, s, ps)) == None
  {
    FirstAcceptedIsFirst(PetalAttempts(draws, s, ps));
  }

  /**
    With an even point count of at least two, an accepted symmetric petal
    with a base has two points per requested point, plus the base, plus the
    three that the two zero-angle radii and the bottom point add.
   */
  lemma GenPetalPointCount(numPoints: Number, upper: int, lower: int, widthScale: real,
                           lengthUpper: Number, lengthLower: Number, variant: string, deviation: real,
                           d: PetalDraw, ps: PetalSettings)
    requires numPoints.PyInt? && numPoints.i >= 2 && numPoints.i % 2 == 0
    requires ps.symmetric && ps.baseAppend && WellFormed(ps.nodal)
    requires var s := GenPetalSetup(numPoints, upper, lower, widthScale, lengthUpper, lengthLower, variant, deviation);
             s.Ok? && DrawFits(d, s.value, ps)
    ensures var s := GenPetalSetup(numPoints, upper, lower, widthScale, lengthUpper, lengthLower, variant, deviation);
            var a := SetupAttempt(d, s.value, ps);
            a.Ok? ==> |a.value.1.xs| == |a.value.1.ys| == 2 * numPoints.i + 3 + |ps.nodal.xs|
  {
    var s := GenPetalSetup(numPoints, upper, lower, widthScale, lengthUpper, lengthLower, variant, deviation).value;
    GenPetalSetupRules(numPoints, upper, lower, widthScale, lengthUpper, lengthLower, variant, deviation);
    HalvesSplit(numPoints.i, upper, lower);
    assert s.upper + s.lower == numPoints.i;
    var a := SetupAttempt(d, s, ps);
    if a.Ok? {
      SymmetricPetalShape(d, ps);
      var o := Outline(d, ps).value;
      var pts := ShapeUp(o, LowerShift(d, ps)).value;
      assert PetalAttempt(d, ps) == a;
      assert a.value.1 == pts;
    }
  }

  /**
    The standard variant has no deviation, so its outline is raised by
    exactly `length_lower * scale_l`; with the default lower length that is
    `1.5 * width_scale * length`.
   */
  lemma StandardPetalShift(numPoints: Number, upper: int, lower: int, widthScale: real,
                           lengthUpper: Number, lengthLower: Number, deviation: real,
                           d: PetalDraw, ps: PetalSettings)
    requires var s := GenPetalSetup(numPoints, upper, lower, widthScale, lengthUpper, lengthLower, "standard", deviation);
             s.Ok? && DrawFits(d, s.value, ps)
    ensures var s := GenPetalSetup(numPoints, upper, lower, widthScale, lengthUpper, lengthLower, "standard", deviation);
            && LowerShift(d, ps) == s.value.lengthLower * ps.scaleL
            && (lengthLower == PyInt(-1) ==> LowerShift(d, ps) == 1.5 * widthScale * ps.scaleL)
  {
    GenPetalSetupRules(numPoints, upper, lower, widthScale, lengthUpper, lengthLower, "standard", deviation);
  }

  /**
    `gen_petal(...)`: the parameter checks, then the retry loop over the
    given draws, each made under the settled setup; `counter_fail` counts
    the rejected attempts.
   */
  method GenPetal(numPoints: Number, upper: int, lower: int, widthScale: real,
                  lengthUpper: Number, lengthLower: Number, variant: string, deviation: real,
                  draws: seq<PetalDraw>, ps: PetalSettings)
    returns (r: Option<Outcome<(Curve, Curve)>>, counterFail: nat)
    requires var s := GenPetalSetup(numPoints, upper, lower, widthScale, lengthUpper, lengthLower, variant, deviation);
             s.Ok? ==> forall i | 0 <= i < |draws| :: DrawFits(draws[i], s.value, ps)
    ensures var s := GenPetalSetup(numPoints, upper, lower, widthScale, lengthUpper, lengthLower, variant, deviation);
            s.Raised? ==> r == Some(Raised(TypeError)) && counterFail == 0
    ensures var s := GenPetalSetup(numPoints, upper, lower, widthScale, lengthUpper, lengthLower, variant, deviation);
            s.Ok? ==>
              && r == FirstAccepted(PetalAttempts(draws, s.value, ps))
              && (r.Some? ==> counterFail < |draws| && r.value == SetupAttempt(draws[counterFail], s.value, ps))
              && (r.None? ==> counterFail == |draws|)
  {
    var s := GenPetalSetup(numPoints, upper, lower, widthScale, lengthUpper, lengthLower, variant, deviation);
    GenPetalSetupRules(numPoints, upper, lower, widthScale, lengthUpper, lengthLower, variant, deviation);
    counterFail := 0;
    if s.Raised? {
      return Some(Raised(s.exn)), 0;
    }
    ghost var all := PetalAttempts(draws, s.value, ps);
    var i := 0;
    while i < |draws|
      invariant 0 <= i <= |draws| && counterFail == i
      invariant FirstAccepted(all[i..]) == FirstAccepted(all)
    {
      assert all[i..][1..] == all[i + 1..];
      var a: Outcome<(Curve, Curve)>;
      if s.value.upper < 1 || s.value.lower < 1 {
        a := Raised(ValueError);
      } else {
        a := PetalAttemptRun(draws[i], ps);
      }
      if a != Raised(ValueError) {
        return Some(a), counterFail;
      }
      counterFail := counterFail + 1;
      i := i + 1;
    }
    return None, counterFail;
  }

  // ---- make_random_petal ----

  /** The five uniform draws of one `make_random_petal` attempt: points A, B, C of one half (B's x is 1). */
  datatype HalfDraw = HalfDraw(x0: real, x2: real, y0: real, y1: real, y2: real)

  /** Settings of one `make_random_petal` call. */
  datatype RandomPetalSettings = RandomPetalSettings(
    nodal: Curve,   // gen_nodal_base(base_d, extn_d)
    sWth: real, sLen: real, scale: real, maxOutLen: int,
    spline: Curve -> Outcome<Curve>)

  /** The half as drawn: x = (A, 1, C), y = (A, B, C). */
  function DrawnHalf(d: HalfDraw): Curve {
    Curve([d.x0, 1.0, d.x2], [d.y0, d.y1, d.y2])
  }

  /** `if ptl_find_thinner_half(xs_l) == -1: flip both`. */
  function Oriented(h: Curve): Curve {
    if ThinnerHalf(h.xs) == Ok(-1) then Curve(Reversed(h.xs), Reversed(h.ys)) else h
  }

  /** After orientation the first x is at least the last: the thin end points up. */
  lemma OrientedThinUp(d: HalfDraw)
    ensures var h := Oriented(DrawnHalf(d));
            |h.xs| == 3 && |h.ys| == 3 && ThinnerHalf(h.xs) != Ok(-1) && h.xs[0] >= h.xs[2]
  {
    var h0 := DrawnHalf(d);
    if ThinnerHalf(h0.xs) == Ok(-1) {
      ReverseTurnsThinnerHalf(h0.xs);
    }
  }

  /**
    The points of one attempt from the oriented half and the raised base:
    `[0] ++ left ++ base ++ right`, the right half the left one flipped,
    x negated.
   */
  function RandomPetalPoints(h: Curve, b: Curve, ps: RandomPetalSettings): Curve {
    var xsL := Scaled(h.xs, WidthFactor(ps));
    var ysL := Scaled(h.ys, LengthFactor(ps));
    Curve([0.0] + xsL + b.xs + Negated(Reversed(xsL)), [0.0] + ysL + b.ys + Reversed(ysL))
  }

  /** `s_wth / 2 * scale`: the factor on the drawn x values. */
  function WidthFactor(ps: RandomPetalSettings): real {
    (ps.sWth / 2.0) * ps.scale
  }

  /** `s_len * scale`: the factor on the drawn y values. */
  function LengthFactor(ps: RandomPetalSettings): real {
    ps.sLen * ps.scale
  }

  /** One attempt of `make_random_petal`: orient, raise the base by `scale`, assemble, `make_shape`. */
  function RandomPetalAttempt(d: HalfDraw, ps: RandomPetalSettings): Outcome<(Curve, Curve)> {
    match BaseUp(ps.nodal, ps.scale)
    case Raised(e) => Raised(e)
    case Ok(b) =>
      var pts := RandomPetalPoints(Oriented(DrawnHalf(d)), b, ps);
      match MakeShape(pts, ps.maxOutLen, ps.spline)
      case Raised(e) => Raised(e)
      case Ok(fit) => Ok((fit, pts))
  }

  /** `translate_base` on an array built from the nodal base gives `BaseUp`. */
  method BaseUpArrays(c: Curve, dist: real) returns (r: Outcome<Curve>)
    ensures r == BaseUp(c, dist)
  {
    var ay := FromSeq(c.ys);
    var t := TranslateBase(ay, dist);
    if t.Raised? {
      return Raised(t.exn);
    }
    return Ok(Curve(c.xs, ay[..]));
  }

  /** One attempt, with the nodal base's y array raised in place. */
  method RandomPetalAttemptRun(d: HalfDraw, ps: RandomPetalSettings) returns (r: Outcome<(Curve, Curve)>)
    ensures r == RandomPetalAttempt(d, ps)
  {
    var h := DrawnHalf(d);
    var t := ThinnerHalf(h.xs);
    if t == Ok(-1) {
      h := Curve(Reversed(h.xs), Reversed(h.ys));
    }
    var b := BaseUpArrays(ps.nodal, ps.scale);
    if b.Raised? {
      return Raised(b.exn);
    }
    var pts := RandomPetalPoints(h, b.value, ps);
    var fit := MakeShape(pts, ps.maxOutLen, ps.spline);
    if fit.Raised? {
      return Raised(fit.exn);
    }
    return Ok((fit.value, pts));
  }

  lemma ScaleKeepsOrder(a: real, c: real, k: real)
    requires a >= c && k > 0.0
    ensures a * k >= c * k
  {
  }

  /**
    A random petal from a nine-point base has 1 + 3 + 9 + 3 points: it
    starts at the origin, its thinner end points up (point A at least as
    wide as point C), the base sits `scale` higher than drawn, and the right
    half mirrors the left.
   */
  lemma RandomPetalShape(d: HalfDraw, ps: RandomPetalSettings)
    requires |ps.nodal.xs| == 9 && |ps.nodal.ys| == 9 && ps.sWth > 0.0 && ps.scale > 0.0
    ensures BaseUp(ps.nodal, ps.scale).Ok?
    ensures var pts := RandomPetalPoints(Oriented(DrawnHalf(d)), BaseUp(ps.nodal, ps.scale).value, ps);
            && |pts.xs| == 16 && |pts.ys| == 16
            && pts.xs[0] == 0.0 && pts.ys[0] == 0.0
            && pts.xs[1] >= pts.xs[3]
            && (forall i | 0 <= i < 9 :: pts.xs[4 + i] == ps.nodal.xs[i] && pts.ys[4 + i] == ps.nodal.ys[i] + ps.scale)
            && pts.xs[13..] == Negated(Reversed(pts.xs[1..4]))
            && pts.ys[13..] == Reversed(pts.ys[1..4])
  {
    var h := Oriented(DrawnHalf(d));
    OrientedThinUp(d);
    var k := WidthFactor(ps);
    assert k > 0.0;
    ScaleKeepsOrder(h.xs[0], h.xs[2], k);
    var b := Curve(ps.nodal.xs, ShiftPrefix(ps.nodal.ys, 9, ps.scale));
    assert BaseUp(ps.nodal, ps.scale) == Ok(b);
    var xsL := Scaled(h.xs, k);
    var ysL := Scaled(h.ys, LengthFactor(ps));
    var pts := RandomPetalPoints(h, b, ps);
    assert pts.xs == [0.0] + xsL + b.xs + Negated(Reversed(xsL));
    assert pts.ys == [0.0] + ysL + b.ys + Reversed(ysL);
    assert pts.xs[1..4] == xsL && pts.ys[1..4] == ysL;
    assert pts.xs[4..13] == b.xs && pts.ys[4..13] == b.ys;
    assert pts.xs[13..] == Negated(Reversed(xsL)) && pts.ys[13..] == Reversed(ysL);
  }

  /** The attempts of `make_random_petal` for the given draws. */
  function RandomPetalAttempts(draws: seq<HalfDraw>, ps: RandomPetalSettings): (r: seq<Outcome<(Curve, Curve)>>)
    ensures |r| == |draws| && forall i | 0 <= i < |draws| :: r[i] == RandomPetalAttempt(draws[i], ps)
  {
    seq(|draws|, i requires 0 <= i < |draws| => RandomPetalAttempt(draws[i], ps))
  }

  /** `make_random_petal(...)`: attempts until one does not raise ValueError; `fail_counter` counts the others. */
  method MakeRandomPetal(draws: seq<HalfDraw>, ps: RandomPetalSettings)
    returns (r: Option<Outcome<(Curve, Curve)>>, failCounter: nat)
    ensures r == FirstAccepted(RandomPetalAttempts(draws, ps))
    ensures r.Some? ==> failCounter < |draws| && r.value == RandomPetalAttempt(draws[failCounter], ps)
    ensures r.None? ==> failCounter == |draws|
  {
    ghost var all := RandomPetalAttempts(draws, ps);
    failCounter := 0;
    var i := 0;
    while i < |draws|
      invariant 0 <= i <= |draws| && failCounter == i
      invariant FirstAccepted(all[i..]) == FirstAccepted(all)
    {
      assert all[i..][1..] == all[i + 1..];
      var a := RandomPetalAttemptRun(draws[i], ps);
      if a != Raised(ValueError) {
        return Some(a), failCounter;
      }
      failCounter := failCounter + 1;
      i := i + 1;
    }
    return None, failCounter;
  }
}
