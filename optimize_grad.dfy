/**
  optimize_grad.py, the history-free revision of the optimizer: every
  shape uses 50 output points, the penalty defaults to 100, nothing is
  recorded, and `findOptimumCurve` returns just the split terminal vector
  of a plain `fmin` run (at most 3000 objective calls).
 */
module OptimizeGrad {
  import opened Outcomes
  import opened Curves
  import opened FlatPoints
  import opened Intersection
  import opened Shape
  import opened Fitness
  import opened Optimization

  const Thickness: real := 6.35
  /** `TARGET`: frequency ratios, not yet scaled to Hz. */
  const Target: seq<real> := [0.5, 1.0, 1.2, 1.5, 2.0, 2.5, 2.667]
  const CrossPenalty: real := 100.0
  /** Every shape is realised with `max_output_len=50`. */
  const OutputLength: int := 50
  /** `fmin(..., maxfun=3000)`, with SciPy's default tolerances and iteration limit. */
  const Call: OptimizerCall := Simplex(None, None, None, Some(3000))

  datatype Collaborators = Collaborators(
    spline: Curve -> Outcome<Curve>,
    solver: Curve -> Outcome<seq<real>>,
    optimizer: (OptimizerCall, seq<real>) -> OptimizerRun)

  /** `evalFitness(flatpts, target, crosspenalty)`; its `fq` is carried along but not returned. */
  function Evaluate(target: seq<real>, flat: seq<real>, crosspenalty: real, draw: real, env: Collaborators)
    : Outcome<Evaluation>
  {
    if |flat| % 2 != 0 then Raised(AssertionError)
    else
      var attempt :=
        match MakeShape(Unflatten(flat), OutputLength, env.spline)
        case Raised(e) => Raised(e)
        case Ok(s) =>
          match env.solver(s)
          case Raised(e) => Raised(e)
          case Ok(fq) =>
            match Fitness.Fitness(Take(fq, |target|), target)
            case Raised(e) => Raised(e)
            case Ok(fit) => Ok(Evaluated(fit, fq));
      match attempt
      case Raised(e) => if e == ValueError then Ok(Penalised(Penalty(crosspenalty, draw))) else Raised(e)
      case Ok(v) => Ok(v)
  }

  /** `lambda pts: evalFitness(pts, target)`. */
  function Objective(target: seq<real>, env: Collaborators): Trial -> Outcome<Evaluation> {
    (t: Trial) => Evaluate(target, t.point, CrossPenalty, t.draw, env)
  }

  /**
    `findOptimumCurve(target, c0)`: from `c0`, or from the random 5-point
    shape `randomShape` when none is given, to the (x, y) halves of the
    terminal vector; an exception in any objective call escapes.
   */
  function FindOptimumCurve(target: seq<real>, c0: Option<Curve>, randomShape: Curve, env: Collaborators)
    : Outcome<Curve>
  {
    var start := if c0.None? then randomShape else c0.value;
    var run := env.optimizer(Call, Flatten(start));
    match Replay(Objective(target, env), run.trials, History([], [])).failure
    case Some(e) => Raised(e)
    case None => Ok(Unflatten(run.xopt))
  }

  /**
    An odd vector raises AssertionError before the `try`.
    An even vector is scored, penalised within [100, 200) by default, or
    fails with an exception other than ValueError; a score uses the 50-point
    shape and the solver's first `len(target)` frequencies.
   */
  lemma EvaluateOutcomes(target: seq<real>, flat: seq<real>, crosspenalty: real, draw: real, env: Collaborators)
    requires crosspenalty > 0.0 && 0.0 <= draw < 1.0
    ensures |flat| % 2 != 0 ==> Evaluate(target, flat, crosspenalty, draw, env) == Raised(AssertionError)
    ensures var r := Evaluate(target, flat, crosspenalty, draw, env);
            |flat| % 2 == 0 ==>
            && (r.Raised? ==> r.exn != ValueError)
            && (r.Ok? && r.value.Penalised? ==> crosspenalty <= r.value.penalty < 2.0 * crosspenalty)
            && (r.Ok? && r.value.Evaluated? ==>
                  var s := MakeShape(Unflatten(flat), 50, env.spline);
                  && s.Ok? && env.solver(s.value) == Ok(r.value.fq)
                  && |r.value.fq| >= |target|
                  && Fitness.Fitness(r.value.fq[..|target|], target) == Ok(r.value.fit))
  {
    if |flat| % 2 == 0 {
      var r := Evaluate(target, flat, crosspenalty, draw, env);
      if r.Ok? && r.value.Penalised? {
        PenaltyRange(crosspenalty, draw);
      }
      if r.Ok? && r.value.Evaluated? {
        assert Take(r.value.fq, |target|) == r.value.fq[..|target|];
      }
    }
  }

  /**
    When every objective call is penalised (every trial crosses itself, say)
    the optimizer's terminal vector comes back unchanged in shape: the first
    half as x, the second as y.
   */
  lemma PenalisedRunReturnsTerminal(target: seq<real>, c0: Option<Curve>, randomShape: Curve, env: Collaborators)
    requires var start := if c0.None? then randomShape else c0.value;
             var run := env.optimizer(Call, Flatten(start));
             forall i | 0 <= i < |run.trials| ::
               var e := Objective(target, env)(run.trials[i]);
               e.Ok? && e.value.Penalised?
    ensures var start := if c0.None? then randomShape else c0.value;
            var run := env.optimizer(Call, Flatten(start));
            && FindOptimumCurve(target, c0, randomShape, env) == Ok(Unflatten(run.xopt))
            && Flatten(FindOptimumCurve(target, c0, randomShape, env).value) == run.xopt
  {
    var start := if c0.None? then randomShape else c0.value;
    var run := env.optimizer(Call, Flatten(start));
    PenalisedRunRecordsNothing(Objective(target, env), run.trials, History([], []));
    FlattenUnflatten(run.xopt);
  }
}
