/**
  The flat parameter vector the optimizers work on: all x coordinates
  followed by all y coordinates (`np.append(x, y)`), split back at its
  midpoint (`flatpts[:len // 2]`, `flatpts[len // 2:]`), plus the Python
  slicing and penalty arithmetic shared by every optimizer revision.
 */
module FlatPoints {
  import opened Curves

  /** `np.append(x, y)`: the x coordinates, then the y coordinates. */
  function Flatten(c: Curve): (r: seq<real>)
    ensures |r| == |c.xs| + |c.ys|
    ensures r[..|c.xs|] == c.xs && r[|c.xs|..] == c.ys
  {
    c.xs + c.ys
  }

  /** `unflatten`: the first `len // 2` entries as x, the rest as y. */
  function Unflatten(flat: seq<real>): (r: Curve)
    ensures |r.xs| == |flat| / 2 && |r.xs| + |r.ys| == |flat|
    ensures |flat| % 2 == 0 ==> WellFormed(r)
  {
    Curve(flat[..|flat| / 2], flat[|flat| / 2..])
  }

  /** Splitting the flattening of a well-formed curve gives the curve back. */
  lemma UnflattenFlatten(c: Curve)
    requires WellFormed(c)
    ensures Unflatten(Flatten(c)) == c
  {
    var f := Flatten(c);
    assert |f| / 2 == |c.xs|;
  }

  /** Flattening the split of any vector gives the vector back. */
  lemma FlattenUnflatten(flat: seq<real>)
    ensures Flatten(Unflatten(flat)) == flat
  {
    var n := |flat| / 2;
    assert flat[..n] + flat[n..] == flat;
  }

  /** `s[:n]`: the first n entries, or all of s when it is shorter. */
  function Take<T>(s: seq<T>, n: int): (r: seq<T>)
    ensures |r| == if n <= 0 then 0 else if n < |s| then n else |s|
    ensures forall i | 0 <= i < |r| :: r[i] == s[i]
  {
    if n <= 0 then [] else if n < |s| then s[..n] else s
  }

  /**
    `crosspenalty * (random() + 1)`: a penalty that varies from call to
    call so that the optimizer does not mistake a run of penalties for
    convergence; `draw` is the value `random()` returned.
   */
  function Penalty(crosspenalty: real, draw: real): real {
    crosspenalty * (draw + 1.0)
  }

  lemma ProductBelow(a: real, b: real)
    requires a > 0.0 && 0.0 <= b < 1.0
    ensures 0.0 <= a * b < a
  {
  }

  /** With `random()` in [0, 1) the penalty lies in [crosspenalty, 2 crosspenalty). */
  lemma PenaltyRange(crosspenalty: real, draw: real)
    requires crosspenalty > 0.0 && 0.0 <= draw < 1.0
    ensures crosspenalty <= Penalty(crosspenalty, draw) < 2.0 * crosspenalty
  {
    calc {
      Penalty(crosspenalty, draw);
      crosspenalty * (draw + 1.0);
      crosspenalty * draw + crosspenalty;
    }
    ProductBelow(crosspenalty, draw);
  }
}
