/**
  optimize.py, the first revision of the optimizer: module-level settings
  (`GRADE`, `METHOD`), a module-level history (`fits`, `fqs`) that
  `evalFitness` appends to, and `findOptimumCurve`, which runs SciPy from a
  starting outline and packs the result into `retdict`. Only ValueError is
  turned into a penalty here.

  The FEM solver (`find_eigenmodes(s, THICKNESS)`), the spline and the
  optimizers are collaborators passed in as functions; the module-level
  lists are the fields of a `Script` object.
 */
module OptimizeScript {
  import opened Outcomes
  import opened Curves
  import opened FlatPoints
  import opened Intersection
  import opened Shape
  import opened Fitness
  import opened Optimization

  /** `THICKNESS`: a quarter inch, in millimetres. */
  const Thickness: real := 6.35
  /** `TARGET`: the ratios .5, 1, 1.2, 1.5, 2, 2.5 of 440 Hz. */
  const Target: seq<real> := [220.0, 440.0, 528.0, 660.0, 880.0, 1100.0]
  const Method: string := "simplex"
  /** `GRADE`, spelled as the source spells it. */
  const Grade: string := "course"
  /** `evalFitness`'s default `crosspenalty`. */
  const CrossPenalty: real := 100000.0
  const SimplexMaxIter: nat := 300
  const BasinStep: real := 200.0
  /** `make_random_shape(7, ...)`: the control points of a default start. */
  const RandomShapePoints: nat := 7

  datatype Collaborators = Collaborators(
    spline: Curve -> Outcome<Curve>,
    solver: Curve -> Outcome<seq<real>>,
    optimizer: (OptimizerCall, seq<real>) -> OptimizerRun)

  /**
    `retdict`: `allvecs` is present only after the simplex (basin hopping
    returns just the terminal vector).
   */
  datatype RetDict = RetDict(
    xopt: seq<real>, allvecs: Option<seq<seq<real>>>, fits: seq<Float>, fqs: seq<seq<real>>,
    optpts: Curve, target: seq<real>, c0: Curve)

  /** `max_output_len`: 50 on the 'course' grade, 100 on any other. */
  function OutputLength(grade: string): int {
    if grade == "course" then 50 else 100
  }

  /** The optimizer call `findOptimumCurve` makes, or None for an unknown method. */
  function CallFor(methodName: string, grade: string): (r: Option<OptimizerCall>)
    ensures r.Some? <==> methodName == "simplex" || methodName == "basinhopping"
    ensures r.Some? && r.value.Simplex? ==>
              && r.value.xtol == r.value.ftol == Some(if grade == "course" then 1.0 else 0.1)
              && r.value.maxiter == Some(SimplexMaxIter) && r.value.maxfun == None
    ensures r.Some? && r.value.BasinHopping? ==> r.value.tol == None && r.value.stepsize == BasinStep
  {
    if methodName == "simplex" then
      var t := if grade == "course" then 1.0 else 0.1;
      Some(Simplex(Some(t), Some(t), Some(SimplexMaxIter), None))
    else if methodName == "basinhopping" then Some(BasinHopping(None, BasinStep))
    else None
  }

  /** The module's own settings: a coarse 50-point shape and a 300-iteration simplex with tolerance 1. */
  lemma ScriptSettings()
    ensures OutputLength(Grade) == 50
    ensures CallFor(Method, Grade) == Some(Simplex(Some(1.0), Some(1.0), Some(300), None))
  {
  }

  /**
    The body of `evalFitness`'s `try`: shape, solve, and score the first
    `len(target)` frequencies.
   */
  function Attempt(grade: string, target: seq<real>, flat: seq<real>, env: Collaborators): Outcome<Evaluation> {
    match MakeShape(Unflatten(flat), OutputLength(grade), env.spline)
    case Raised(e) => Raised(e)
    case Ok(s) =>
      match env.solver(s)
      case Raised(e) => Raised(e)
      case Ok(fq) =>
        match Fitness.Fitness(Take(fq, |target|), target)
        case Raised(e) => Raised(e)
        case Ok(fit) => Ok(Evaluated(fit, fq))
  }

  /** `evalFitness(flatpts, target, crosspenalty)`: ValueError alone becomes the penalty. */
  function Evaluate(grade: string, target: seq<real>, flat: seq<real>, crosspenalty: real,
                    draw: real, env: Collaborators): Outcome<Evaluation>
  {
    if |flat| % 2 != 0 then Raised(AssertionError)
    else
      match Attempt(grade, target, flat, env)
      case Raised(e) => if e == ValueError then Ok(Penalised(Penalty(crosspenalty, draw))) else Raised(e)
      case Ok(v) => Ok(v)
  }

  /** `lambda pts: evalFitness(pts, target)`. */
  function Objective(grade: string, target: seq<real>, env: Collaborators): Trial -> Outcome<Evaluation> {
    (t: Trial) => Evaluate(grade, target, t.point, CrossPenalty, t.draw, env)
  }

  /**
    An odd vector raises AssertionError before the `try`.
    An even vector is either scored, penalised within [crosspenalty,
    2 crosspenalty), or fails with an exception other than ValueError.
    A score is the fitness of the solver's first `len(target)` frequencies,
    so the solver returned at least that many.
   */
  lemma EvaluateOutcomes(grade: string, target: seq<real>, flat: seq<real>, crosspenalty: real,
                         draw: real, env: Collaborators)
    requires crosspenalty > 0.0 && 0.0 <= draw < 1.0
    ensures |flat| % 2 != 0 ==> Evaluate(grade, target, flat, crosspenalty, draw, env) == Raised(AssertionError)
    ensures var r := Evaluate(grade, target, flat, crosspenalty, draw, env);
            |flat| % 2 == 0 ==>
            && (r.Raised? ==> r.exn != ValueError)
            && (r.Ok? && r.value.Penalised? ==> crosspenalty <= r.value.penalty < 2.0 * crosspenalty)
            && (r.Ok? && r.value.Evaluated? ==>
                  var s := MakeShape(Unflatten(flat), OutputLength(grade), env.spline);
                  && s.Ok? && env.solver(s.value) == Ok(r.value.fq)
                  && |r.value.fq| >= |target|
                  && Fitness.Fitness(r.value.fq[..|target|], target) == Ok(r.value.fit))
  {
    if |flat| % 2 == 0 {
      var r := Evaluate(grade, target, flat, crosspenalty, draw, env);
      if r.Ok? && r.value.Penalised? {
        PenaltyRange(crosspenalty, draw);
      }
      if r.Ok? && r.value.Evaluated? {
        assert Take(r.value.fq, |target|) == r.value.fq[..|target|];
      }
    }
  }

  /**
    A solver that returns fewer frequencies than targets makes `fitness`
    fail its length assertion, and that AssertionError escapes: only
    ValueError is caught in this revision.
   */
  lemma ShortSpectrumEscapes(grade: string, target: seq<real>, flat: seq<real>, crosspenalty: real,
                             draw: real, env: Collaborators)
    requires |flat| % 2 == 0
    requires var s := MakeShape(Unflatten(flat), OutputLength(grade), env.spline);
             s.Ok? && env.solver(s.value).Ok? && |env.solver(s.value).value| < |target|
    ensures Evaluate(grade, target, flat, crosspenalty, draw, env) == Raised(AssertionError)
  {
    var s := MakeShape(Unflatten(flat), OutputLength(grade), env.spline).value;
    var fq := env.solver(s).value;
    assert |Take(fq, |target|)| < |target|;
    assert Fitness.Fitness(Take(fq, |target|), target) == Raised(AssertionError);
    assert Attempt(grade, target, flat, env) == Raised(AssertionError);
  }

  /** A self-intersecting spline is penalised. */
  lemma SelfIntersectingIsPenalised(grade: string, target: seq<real>, flat: seq<real>,
                                    crosspenalty: real, draw: real, env: Collaborators)
    requires |flat| % 2 == 0 && |flat| > 0
    requires var pts := Unflatten(flat);
             && env.spline(Close(pts)).Ok?
             && WellFormed(env.spline(Close(pts)).value)
             && |env.spline(Close(pts)).value.xs| > 4 * IntersectThresh + 1
             && SelfIntersects(Interp(Close(pts), env.spline).value, IntersectThresh) == Ok(true)
    ensures Evaluate(grade, target, flat, crosspenalty, draw, env) == Ok(Penalised(Penalty(crosspenalty, draw)))
  {
    MakeShapeRejectsExactlySelfIntersecting(Unflatten(flat), OutputLength(grade), env.spline);
  }

  /** The module-level state of optimize.py. */
  class Script {
    const grade: string
    const methodName: string
    var fits: seq<Float>
    var fqs: seq<seq<real>>

    ghost predicate Valid()
      reads this
    {
      |fits| == |fqs|
    }

    /**
      The module's settings, with `fits` and `fqs` empty as the `__main__`
      loop creates them before each attempt; at import they do not exist yet.
     */
    constructor(grade: string, methodName: string)
      ensures Valid() && this.grade == grade && this.methodName == methodName
      ensures fits == [] && fqs == []
    {
      this.grade := grade;
      this.methodName := methodName;
      fits := [];
      fqs := [];
    }

    /** `fits, fqs = [], []` between attempts in the script's main loop. */
    method Reset()
      modifies this
      ensures Valid() && fits == [] && fqs == []
    {
      fits := [];
      fqs := [];
    }

    /** `evalFitness`: a score is appended to `fits` and the frequencies to `fqs`. */
    method EvalFitness(flat: seq<real>, target: seq<real>, crosspenalty: real, draw: real, env: Collaborators)
      returns (r: Outcome<Evaluation>)
      requires Valid()
      modifies this
      ensures Valid()
      ensures r == Evaluate(grade, target, flat, crosspenalty, draw, env)
      ensures History(fits, fqs) == Record(old(History(fits, fqs)), r)
    {
      r := Evaluate(grade, target, flat, crosspenalty, draw, env);
      if r.Ok? && r.value.Evaluated? {
        fits := fits + [r.value.fit];
        fqs := fqs + [r.value.fq];
      }
    }

    /**
      `findOptimumCurve(target, c0)`: start from `c0`, or from the random
      7-point shape (`randomShape`) when none is given; run the optimizer;
      return the split terminal vector and the result dictionary.
     */
    method FindOptimumCurve(target: seq<real>, c0: Option<Curve>, randomShape: Curve, env: Collaborators)
      returns (r: Outcome<(Curve, RetDict)>)
      requires Valid()
      modifies this
      ensures Valid()
      ensures CallFor(methodName, grade).None? ==>
                r == Raised(ValueError) && fits == old(fits) && fqs == old(fqs)
      ensures CallFor(methodName, grade).Some? ==>
                var start := if c0.None? then randomShape else c0.value;
                var call := CallFor(methodName, grade).value;
                var run := env.optimizer(call, Flatten(start));
                var replay := Replay(Objective(grade, target, env), run.trials, old(History(fits, fqs)));
                && History(fits, fqs) == replay.hist
                && (replay.failure.Some? ==> r == Raised(replay.failure.value))
                && (replay.failure.None? ==>
                      r == Ok((Unflatten(run.xopt),
                               RetDict(run.xopt, if call.Simplex? then Some(run.allvecs) else None,
                                       fits, fqs, Unflatten(run.xopt), target, start))))
    {
      var start := if c0.None? then randomShape else c0.value;
      var flat := Flatten(start);
      var call := CallFor(methodName, grade);
      if call.None? {
        return Raised(ValueError);
      }
      var run := env.optimizer(call.value, flat);
      var failure := RunTrials(run.trials, target, env);
      if failure.Some? {
        return Raised(failure.value);
      }
      var allvecs := if call.value.Simplex? then Some(run.allvecs) else None;
      var optpts := Unflatten(run.xopt);
      r := Ok((optpts, RetDict(run.xopt, allvecs, fits, fqs, optpts, target, start)));
    }

    /** The optimizer's calls of the objective, in order, until the first exception. */
    method RunTrials(trials: seq<Trial>, target: seq<real>, env: Collaborators) returns (failure: Option<Exn>)
      requires Valid()
      modifies this
      ensures Valid()
      ensures var replay := Replay(Objective(grade, target, env), trials, old(History(fits, fqs)));
              History(fits, fqs) == replay.hist && failure == replay.failure
    {
      ghost var h0 := History(fits, fqs);
      var i := 0;
      while i < |trials|
        invariant 0 <= i <= |trials| && Valid()
        invariant Replay(Objective(grade, target, env), trials[i..], History(fits, fqs))
                  == Replay(Objective(grade, target, env), trials, h0)
      {
        var trial := trials[i];
        assert trials[i..][1..] == trials[i + 1..];
        var e := EvalFitness(trial.point, target, CrossPenalty, trial.draw, env);
        if e.Raised? {
          return Some(e.exn);
        }
        i := i + 1;
      }
      return None;
    }
  }
}
