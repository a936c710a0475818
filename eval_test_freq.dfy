/**
  `evalTestFreq` of Optimize_grad.py, an early objective: the outline's
  first four frequencies scored against the fixed ratios .5, 1, 1.5, 2,
  with the constant 100 (no random spread) for a shape that breaks.
 */
module TestFrequencies {
  import opened Outcomes
  import opened Curves
  import opened FlatPoints
  import opened Intersection
  import opened Shape
  import opened Fitness

  const TestTarget: seq<real> := [0.5, 1.0, 1.5, 2.0]
  /** The constant returned for a ValueError. */
  const BrokenScore: real := 100.0
  /** The plate thickness passed to the solver. */
  const Thickness: real := 5.0

  /** The `except ValueError` clause: the constant 100 in place of a ValueError. */
  function Handle(attempt: Outcome<Float>): Outcome<Float> {
    match attempt
    case Raised(e) => if e == ValueError then Ok(Finite(BrokenScore)) else Raised(e)
    case Ok(fit) => Ok(fit)
  }

  /** The rest of the `try` once the shape exists: solve, then score the first four frequencies. */
  function ScoreShape(s: Curve, solver: Curve -> Outcome<seq<real>>): Outcome<Float> {
    match solver(s)
    case Raised(e) => Raised(e)
    case Ok(fq) => Fitness.Fitness(Take(fq, 4), TestTarget)
  }

  /** `evalTestFreq(flatpts)`; `solver` stands for `find_eigenmodes(s, 5)`. */
  function EvalTestFreq(flat: seq<real>, spline: Curve -> Outcome<Curve>, solver: Curve -> Outcome<seq<real>>)
    : Outcome<Float>
  {
    if |flat| % 2 != 0 then Raised(AssertionError)
    else
      match MakeShape(Unflatten(flat), 50, spline)
      case Raised(e) => Handle(Raised(e))
      case Ok(s) => Handle(ScoreShape(s, solver))
  }

  /**
    On an even vector the result is the constant 100 when shaping or
    solving raised ValueError, and any other exception escapes.
   */
  lemma EvalTestFreqBroken(flat: seq<real>, spline: Curve -> Outcome<Curve>, solver: Curve -> Outcome<seq<real>>)
    requires |flat| % 2 == 0
    ensures var s := MakeShape(Unflatten(flat), 50, spline);
            var r := EvalTestFreq(flat, spline, solver);
            && (s == Raised(ValueError) ==> r == Ok(Finite(BrokenScore)))
            && (s.Raised? && s.exn != ValueError ==> r == Raised(s.exn))
            && (s.Ok? && solver(s.value) == Raised(ValueError) ==> r == Ok(Finite(BrokenScore)))
            && (s.Ok? && solver(s.value).Raised? && solver(s.value).exn != ValueError ==>
                  r == Raised(solver(s.value).exn))
  {
  }

  /**
    Once shaped, fewer than four frequencies fail `fitness`'s length
    assertion and the AssertionError escapes; otherwise the score is the
    fitness of the first four against .5, 1, 1.5, 2.
   */
  lemma ScoreShapeOutcomes(s: Curve, solver: Curve -> Outcome<seq<real>>)
    requires solver(s).Ok?
    ensures var fq := solver(s).value;
            && (|fq| < 4 ==> Handle(ScoreShape(s, solver)) == Raised(AssertionError))
            && (|fq| >= 4 ==> Handle(ScoreShape(s, solver)) == Fitness.Fitness(fq[..4], TestTarget))
  {
    var fq := solver(s).value;
    if |fq| >= 4 {
      assert Take(fq, 4) == fq[..4];
    } else {
      assert |Take(fq, 4)| != |TestTarget|;
    }
  }

  /** A self-intersecting spline scores the constant 100. */
  lemma SelfIntersectingScoresConstant(flat: seq<real>, spline: Curve -> Outcome<Curve>,
                                       solver: Curve -> Outcome<seq<real>>)
    requires |flat| % 2 == 0 && |flat| > 0
    requires var pts := Unflatten(flat);
             && spline(Close(pts)).Ok?
             && WellFormed(spline(Close(pts)).value)
             && |spline(Close(pts)).value.xs| > 4 * IntersectThresh + 1
             && SelfIntersects(Interp(Close(pts), spline).value, IntersectThresh) == Ok(true)
    ensures EvalTestFreq(flat, spline, solver) == Ok(Finite(BrokenScore))
  {
    MakeShapeRejectsExactlySelfIntersecting(Unflatten(flat), 50, spline);
  }
}
