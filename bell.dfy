/**
  The `Bell` candidate of optimize/optimize.py: a bell outline waiting to be
  optimised, with the history of every successful evaluation (`fits`,
  `fqs`), the optimised control points (`optpts`) and the best score seen.

  The FEM solver (`find_eigenmodes`), the spline inside `make_shape` and
  SciPy's optimizers are collaborators passed in as functions. An optimizer
  run is the sequence of trial vectors it evaluates (each with the value
  `random()` returns during that evaluation), its terminal vector and its
  recorded vectors.
 */
module Candidate {
  import opened Outcomes
  import opened Curves
  import opened FlatPoints
  import opened Intersection
  import opened Shape
  import opened Fitness
  import opened Optimization

  /**
    `self.allvecs`: the simplex's recorded vectors, or, after basin
    hopping, `list(res.x)`, the terminal vector's own coordinates.
   */
  datatype AllVecs = Vectors(vs: seq<seq<real>>) | Coordinates(xs: seq<real>)

  /** The code outside this model that a `Bell` calls. */
  datatype Collaborators = Collaborators(
    spline: Curve -> Outcome<Curve>,
    solver: (Curve, int) -> Outcome<seq<real>>,
    optimizer: (OptimizerCall, seq<real>) -> OptimizerRun)

  /** The dictionary `findOptimumCurve` returns (and pickles). */
  datatype RetDict = RetDict(
    xopt: seq<real>, allvecs: AllVecs, fits: seq<Float>, fqs: seq<seq<real>>,
    optpts: Curve, target: seq<real>, c0: Curve)

  datatype SimResult = SimResult(fit: Float, frequencies: seq<real>)

  const Version: string := "1.2"
  /** `evalFitness`'s default `crosspenalty`. */
  const CrossPenalty: real := 100000.0
  /** `evalFitness`'s default `num_freqs_to_sim`. */
  const EvalFreqsToSim: int := 36
  /** `singleSimulation`'s default `num_freqs_to_sim`. */
  const SingleFreqsToSim: int := 50
  /** The simplex stops after 10 iterations to give quick feedback. */
  const SimplexMaxIter: nat := 10

  /** `make_shape`'s `max_output_len`: 50 points on the coarse grade, 100 otherwise. */
  function OutputLength(grade: string): int {
    if grade == "coarse" then 50 else 100
  }

  /** `xtol` and `ftol`: 1.0 on the coarse grade, 0.1 otherwise. */
  function StopTolerance(grade: string): real {
    if grade == "coarse" then 1.0 else 0.1
  }

  /** The optimizer call for a `method`, or None for an unknown method. */
  function CallFor(methodName: string, grade: string): (r: Option<OptimizerCall>)
    ensures r.Some? <==> methodName == "simplex" || methodName == "basinhopping"
    ensures r.Some? && r.value.Simplex? ==>
              && r.value.xtol == r.value.ftol == Some(StopTolerance(grade))
              && r.value.maxiter == Some(SimplexMaxIter) && r.value.maxfun == None
    ensures r.Some? && r.value.BasinHopping? ==>
              r.value.tol == Some(100.0 * StopTolerance(grade)) && r.value.stepsize == 20.0
  {
    var t := StopTolerance(grade);
    if methodName == "simplex" then Some(Simplex(Some(t), Some(t), Some(SimplexMaxIter), None))
    else if methodName == "basinhopping" then Some(BasinHopping(Some(t * 100.0), 20.0))
    else None
  }

  /** The exceptions `evalFitness` turns into a penalty. */
  predicate Caught(e: Exn) {
    e == ValueError || e == FileNotFoundError || e == AssertionError || e == TypeError
  }

  /**
    The body of `evalFitness`'s `try`: shape the split vector, solve for
    its frequencies, pick those matching the target and score them.
   */
  function Attempt(grade: string, target: seq<real>, flat: seq<real>, numFreqs: int, env: Collaborators)
    : Outcome<Evaluation>
  {
    match MakeShape(Unflatten(flat), OutputLength(grade), env.spline)
    case Raised(e) => Raised(e)
    case Ok(s) =>
      match env.solver(s, numFreqs)
      case Raised(e) => Raised(e)
      case Ok(fq) =>
        match FindFrequenciesSpec(fq, target)
        case Raised(e) => Raised(e)
        case Ok(selected) =>
          match Fitness.Fitness(Take(selected, |target|), target)
          case Raised(e) => Raised(e)
          case Ok(fit) => Ok(Evaluated(fit, fq))
  }

  /**
    `evalFitness`: the even-length assertion sits before the `try`, so an
    odd vector raises; a caught exception inside becomes the penalty.
   */
  function Evaluate(grade: string, target: seq<real>, flat: seq<real>, crosspenalty: real,
                    draw: real, numFreqs: int, env: Collaborators): Outcome<Evaluation>
  {
    if |flat| % 2 != 0 then Raised(AssertionError)
    else
      match Attempt(grade, target, flat, numFreqs, env)
      case Raised(e) => if Caught(e) then Ok(Penalised(Penalty(crosspenalty, draw))) else Raised(e)
      case Ok(v) => Ok(v)
  }

  /** The objective the optimizers minimise: `lambda pts: self.evalFitness(pts)`. */
  function Objective(grade: string, target: seq<real>, env: Collaborators): Trial -> Outcome<Evaluation> {
    (t: Trial) => Evaluate(grade, target, t.point, CrossPenalty, t.draw, EvalFreqsToSim, env)
  }

  /** Python's `a < b` on floats; every comparison with NaN is false. */
  predicate Less(a: Float, b: Float) {
    match (a, b)
    case (Finite(x), Finite(y)) => x < y
    case (Finite(_), PosInf) => true
    case _ => false
  }

  /** `min`'s scan: the first item, replaced only by a strictly smaller one. */
  function MinFrom(cur: Float, rest: seq<Float>): Float
    decreases |rest|
  {
    if rest == [] then cur else MinFrom(if Less(rest[0], cur) then rest[0] else cur, rest[1..])
  }

  /** `min(fits)`. */
  function PyMin(s: seq<Float>): Float
    requires |s| > 0
  {
    MinFrom(s[0], s[1..])
  }

  /** `s.index(v)`: the first position holding v. */
  function FirstIndex(s: seq<Float>, v: Float): (i: nat)
    requires v in s
    ensures i < |s| && s[i] == v
    ensures forall j | 0 <= j < i :: s[j] != v
  {
    if s[0] == v then 0 else 1 + FirstIndex(s[1..], v)
  }

  lemma {:induction false} MinFromIsMember(cur: Float, rest: seq<Float>)
    ensures MinFrom(cur, rest) == cur || MinFrom(cur, rest) in rest
    decreases |rest|
  {
    if rest != [] {
      var next := if Less(rest[0], cur) then rest[0] else cur;
      MinFromIsMember(next, rest[1..]);
      assert forall x | x in rest[1..] :: x in rest;
    }
  }

  /** `min` returns one of the list's own values. */
  lemma MinIsMember(s: seq<Float>)
    requires |s| > 0
    ensures PyMin(s) in s
  {
    MinFromIsMember(s[0], s[1..]);
    assert s == [s[0]] + s[1..];
  }

  predicate NoNaN(s: seq<Float>) {
    forall i | 0 <= i < |s| :: !s[i].NaN?
  }

  lemma {:induction false} MinFromIsLeast(cur: Float, rest: seq<Float>)
    requires !cur.NaN? && NoNaN(rest)
    ensures !Less(cur, MinFrom(cur, rest)) && !MinFrom(cur, rest).NaN?
    ensures forall i | 0 <= i < |rest| :: !Less(rest[i], MinFrom(cur, rest))
    decreases |rest|
  {
    if rest != [] {
      var next := if Less(rest[0], cur) then rest[0] else cur;
      MinFromIsLeast(next, rest[1..]);
      forall i | 0 <= i < |rest|
        ensures !Less(rest[i], MinFrom(cur, rest))
      {
        if i > 0 {
          assert rest[i] == rest[1..][i - 1];
        }
      }
    }
  }

  /** Without NaN scores no recorded score is smaller than `min`'s. */
  lemma MinIsLeast(s: seq<Float>)
    requires |s| > 0 && NoNaN(s)
    ensures forall i | 0 <= i < |s| :: !Less(s[i], PyMin(s))
  {
    MinFromIsLeast(s[0], s[1..]);
    forall i | 0 < i < |s|
      ensures !Less(s[i], PyMin(s))
    {
      assert s[i] == s[1..][i - 1];
    }
  }

  /**
    An odd vector raises AssertionError before the `try`, and it is the only
    one that does. An even vector is either scored, penalised within [crosspenalty,
    2 crosspenalty), or fails with an exception the handler does not catch.
    A score is the fitness of the `len(target)` solver frequencies picked by
    `find_frequencies`, and comes with the solver's unnarrowed list.
   */
  lemma EvaluateOutcomes(grade: string, target: seq<real>, flat: seq<real>, crosspenalty: real,
                         draw: real, numFreqs: int, env: Collaborators)
    requires crosspenalty > 0.0 && 0.0 <= draw < 1.0
    ensures var r := Evaluate(grade, target, flat, crosspenalty, draw, numFreqs, env);
            r == Raised(AssertionError) <==> |flat| % 2 != 0
    ensures var r := Evaluate(grade, target, flat, crosspenalty, draw, numFreqs, env);
            |flat| % 2 == 0 ==>
            && (r.Raised? ==> !Caught(r.exn))
            && (r.Ok? && r.value.Penalised? ==>
                  crosspenalty <= r.value.penalty < 2.0 * crosspenalty)
            && (r.Ok? && r.value.Evaluated? ==>
                  var s := MakeShape(Unflatten(flat), OutputLength(grade), env.spline);
                  && s.Ok? && env.solver(s.value, numFreqs) == Ok(r.value.fq)
                  && var selected := FindFrequenciesSpec(r.value.fq, target);
                  && selected.Ok? && |selected.value| == |target|
                  && Fitness.Fitness(selected.value, target) == Ok(r.value.fit))
  {
    if |flat| % 2 == 0 {
      var r := Evaluate(grade, target, flat, crosspenalty, draw, numFreqs, env);
      if r.Ok? && r.value.Penalised? {
        PenaltyRange(crosspenalty, draw);
      }
      if r.Ok? && r.value.Evaluated? {
        var s := MakeShape(Unflatten(flat), OutputLength(grade), env.spline);
        var selected := FindFrequenciesSpec(r.value.fq, target);
        assert target != [];
        SubSampleDecides(Window(r.value.fq, target[0] - Tolerance, target[|target| - 1] + Tolerance,
                                |target|, [], 0), |target|);
        assert Take(selected.value, |target|) == selected.value;
      }
    }
  }

  /**
    A vector whose spline crosses itself is penalised: `make_shape` raises
    ValueError and the handler turns it into `crosspenalty * (random() + 1)`.
   */
  lemma SelfIntersectingIsPenalised(grade: string, target: seq<real>, flat: seq<real>,
                                    crosspenalty: real, draw: real, numFreqs: int, env: Collaborators)
    requires |flat| % 2 == 0 && |flat| > 0
    requires var pts := Unflatten(flat);
             && env.spline(Close(pts)).Ok?
             && WellFormed(env.spline(Close(pts)).value)
             && |env.spline(Close(pts)).value.xs| > 4 * IntersectThresh + 1
             && SelfIntersects(Interp(Close(pts), env.spline).value, IntersectThresh) == Ok(true)
    ensures Evaluate(grade, target, flat, crosspenalty, draw, numFreqs, env)
            == Ok(Penalised(Penalty(crosspenalty, draw)))
  {
    var pts := Unflatten(flat);
    MakeShapeRejectsExactlySelfIntersecting(pts, OutputLength(grade), env.spline);
  }

  class Bell {
    var version: string
    var target: seq<real>
    var thickness: real
    var elastic: string
    var density: real
    var scale: real
    var methodName: string
    var grade: string
    /** The initial outline; None once `refine` started from an empty `optpts`. */
    var c0: Option<Curve>
    var ctrlpoints: int
    /** The optimised outline, None while it is still the empty list. */
    var optpts: Option<Curve>
    var allvecs: AllVecs
    var fits: seq<Float>
    var fqs: seq<seq<real>>
    var bestFit: Option<Float>
    var bestFq: Option<seq<real>>

    /** Every recorded score has its frequency list. */
    ghost predicate Valid()
      reads this
    {
      |fits| == |fqs|
    }

    /**
      `Bell(target, ...)`: without `c0` the outline is the random shape
      `make_random_shape` draws (given here as `randomShape`) and keeps the
      requested number of control points; with `c0` the number of control
      points is the length of its x list.
     */
    constructor(target: seq<real>, thickness: real, elastic: string, density: real, scale: real,
                methodName: string, grade: string, ctrlpoints: int, c0: Option<Curve>, randomShape: Curve)
      ensures Valid()
      ensures this.version == Version && this.target == target && this.thickness == thickness
      ensures this.elastic == elastic && this.density == density && this.scale == scale
      ensures this.methodName == methodName && this.grade == grade
      ensures c0.None? ==> this.c0 == Some(randomShape) && this.ctrlpoints == ctrlpoints
      ensures c0.Some? ==> this.c0 == c0 && this.ctrlpoints == |c0.value.xs|
      ensures optpts == None && allvecs == Vectors([]) && fits == [] && fqs == []
      ensures bestFit == None && bestFq == None
    {
      this.version := Version;
      this.target := target;
      this.thickness := thickness;
      this.elastic := elastic;
      this.density := density;
      this.scale := scale;
      this.methodName := methodName;
      this.grade := grade;
      if c0.None? {
        this.ctrlpoints := ctrlpoints;
        this.c0 := Some(randomShape);
      } else {
        this.c0 := c0;
        this.ctrlpoints := |c0.value.xs|;
      }
      optpts := None;
      allvecs := Vectors([]);
      fits := [];
      fqs := [];
      bestFit := None;
      bestFq := None;
    }

    /**
      `evalFitness(flatpts, crosspenalty, single_sim, num_freqs_to_sim)`:
      a score is appended to `fits`, the raw frequencies to `fqs`; a penalty
      or an exception leaves both alone. (`single_sim` only decides whether
      the frequencies are returned beside the score; `Evaluated` carries both.)
     */
    method EvalFitness(flat: seq<real>, crosspenalty: real, draw: real, numFreqs: int, env: Collaborators)
      returns (r: Outcome<Evaluation>)
      requires Valid()
      modifies this`fits, this`fqs
      ensures Valid()
      ensures r == Evaluate(grade, target, flat, crosspenalty, draw, numFreqs, env)
      ensures History(fits, fqs) == Record(old(History(fits, fqs)), r)
    {
      r := Evaluate(grade, target, flat, crosspenalty, draw, numFreqs, env);
      if r.Ok? && r.value.Evaluated? {
        fits := fits + [r.value.fit];
        fqs := fqs + [r.value.fq];
      }
    }

    /**
      `singleSimulation()`: one evaluation of `c0`. The penalty is a bare
      number, so unpacking it into `fit, freqs` raises TypeError.
     */
    method SingleSimulation(draw: real, env: Collaborators) returns (r: Outcome<SimResult>)
      requires Valid()
      modifies this`fits, this`fqs
      ensures Valid()
      ensures c0.None? ==> r == Raised(ValueError) && fits == old(fits) && fqs == old(fqs)
      ensures c0.Some? ==>
                var e := Evaluate(grade, target, Flatten(c0.value), CrossPenalty, draw, SingleFreqsToSim, env);
                && History(fits, fqs) == Record(old(History(fits, fqs)), e)
                && (e.Raised? ==> r == Raised(e.exn))
                && (e.Ok? && e.value.Penalised? ==> r == Raised(TypeError))
                && (e.Ok? && e.value.Evaluated? ==> r == Ok(SimResult(e.value.fit, e.value.fq)))
    {
      if c0.None? {
        return Raised(ValueError);
      }
      var flat := Flatten(c0.value);
      var e := EvalFitness(flat, CrossPenalty, draw, SingleFreqsToSim, env);
      match e
      case Raised(x) => r := Raised(x);
      case Ok(Penalised(_)) => r := Raised(TypeError);
      case Ok(Evaluated(fit, fq)) => r := Ok(SimResult(fit, fq));
    }

    /**
      `findOptimumCurve()`: run the optimizer from the flattened `c0`,
      evaluating each of its trials; then store the split terminal vector
      as `optpts`, the recorded vectors as `allvecs`, and the smallest score
      with its frequencies as `best_fit`/`best_fq`. `min` of an empty
      history raises ValueError after `optpts` and `allvecs` are set.
     */
    method FindOptimumCurve(env: Collaborators) returns (r: Outcome<RetDict>)
      requires Valid()
      modifies this`fits, this`fqs, this`optpts, this`allvecs, this`bestFit, this`bestFq
      ensures Valid()
      ensures c0.None? || CallFor(methodName, grade).None? ==>
                r == Raised(ValueError) && unchanged(this)
      ensures c0.Some? && CallFor(methodName, grade).Some? ==>
                var call := CallFor(methodName, grade).value;
                var run := env.optimizer(call, Flatten(c0.value));
                var replay := Replay(Objective(grade, target, env), run.trials, old(History(fits, fqs)));
                && History(fits, fqs) == replay.hist
                && (replay.failure.Some? ==>
                      r == Raised(replay.failure.value) && optpts == old(optpts) &&
                      allvecs == old(allvecs) && bestFit == old(bestFit) && bestFq == old(bestFq))
                && (replay.failure.None? ==>
                      && optpts == Some(Unflatten(run.xopt))
                      && allvecs == (if call.Simplex? then Vectors(run.allvecs) else Coordinates(run.xopt))
                      && (fits == [] ==>
                            r == Raised(ValueError) && bestFit == old(bestFit) && bestFq == old(bestFq))
                      && (fits != [] ==>
                            && bestFit == Some(PyMin(fits))
                            && PyMin(fits) in fits
                            && bestFq == Some(fqs[FirstIndex(fits, PyMin(fits))])
                            && r == Ok(RetDict(run.xopt, allvecs, fits, fqs, Unflatten(run.xopt),
                                               target, c0.value))))
    {
      if c0.None? || CallFor(methodName, grade).None? {
        return Raised(ValueError);
      }
      var start := c0.value;
      var call := CallFor(methodName, grade).value;
      var run := env.optimizer(call, Flatten(start));
      var failure := RunTrials(run.trials, env);
      if failure.Some? {
        return Raised(failure.value);
      }
      var vecs := if call.Simplex? then Vectors(run.allvecs) else Coordinates(run.xopt);
      optpts := Some(Unflatten(run.xopt));
      allvecs := vecs;
      if fits == [] {
        return Raised(ValueError);
      }
      var best := PyMin(fits);
      MinIsMember(fits);
      bestFit := Some(best);
      bestFq := Some(fqs[FirstIndex(fits, best)]);
      r := Ok(RetDict(run.xopt, vecs, fits, fqs, Unflatten(run.xopt), target, start));
    }

    /** The optimizer's calls of the objective, in order, until the first exception. */
    method RunTrials(trials: seq<Trial>, env: Collaborators) returns (failure: Option<Exn>)
      requires Valid()
      modifies this`fits, this`fqs
      ensures Valid()
      ensures var replay := Replay(Objective(grade, target, env), trials, old(History(fits, fqs)));
              History(fits, fqs) == replay.hist && failure == replay.failure
    {
      ghost var h0 := History(fits, fqs);
      var i := 0;
      while i < |trials|
        invariant 0 <= i <= |trials| && Valid()
        invariant Replay(Objective(grade, target, env), trials[i..], History(fits, fqs))
                  == Replay(Objective(grade, target, env), trials, h0)
      {
        var trial := trials[i];
        assert trials[i..][1..] == trials[i + 1..];
        var e := EvalFitness(trial.point, CrossPenalty, trial.draw, EvalFreqsToSim, env);
        if e.Raised? {
          return Some(e.exn);
        }
        i := i + 1;
      }
      return None;
    }

    /**
      `refine()`: only on the coarse grade, switch to fine and optimise again
      from `optpts`, keeping the accumulated history; `c0` is put back only
      when that run returns. On the fine grade nothing happens.
     */
    method Refine(env: Collaborators) returns (r: Option<Outcome<RetDict>>)
      requires Valid()
      modifies this`grade, this`c0, this`fits, this`fqs, this`optpts, this`allvecs, this`bestFit, this`bestFq
      ensures Valid()
      ensures old(grade) != "coarse" ==> r == None && unchanged(this)
      ensures old(grade) == "coarse" ==>
                && grade == "fine" && r.Some?
                && (r.value.Ok? ==> c0 == old(c0))
                && (r.value.Raised? ==> c0 == old(optpts))
                && |old(fits)| <= |fits| && fits[..|old(fits)|] == old(fits)
      ensures old(grade) == "coarse" && (old(optpts).None? || CallFor(methodName, "fine").None?) ==>
                && r == Some(Raised(ValueError)) && fits == old(fits) && fqs == old(fqs)
                && optpts == old(optpts) && allvecs == old(allvecs)
                && bestFit == old(bestFit) && bestFq == old(bestFq)
      ensures old(grade) == "coarse" && old(optpts).Some? && CallFor(methodName, "fine").Some? ==>
                var call := CallFor(methodName, "fine").value;
                var run := env.optimizer(call, Flatten(old(optpts).value));
                var replay := Replay(Objective("fine", target, env), run.trials, old(History(fits, fqs)));
                && History(fits, fqs) == replay.hist
                && (replay.failure.Some? ==>
                      r == Some(Raised(replay.failure.value)) && optpts == old(optpts) &&
                      allvecs == old(allvecs) && bestFit == old(bestFit) && bestFq == old(bestFq))
                && (replay.failure.None? ==>
                      && optpts == Some(Unflatten(run.xopt))
                      && allvecs == (if call.Simplex? then Vectors(run.allvecs) else Coordinates(run.xopt))
                      && (fits == [] ==>
                            r == Some(Raised(ValueError)) && bestFit == old(bestFit) && bestFq == old(bestFq))
                      && (fits != [] ==>
                            && bestFit == Some(PyMin(fits))
                            && PyMin(fits) in fits
                            && bestFq == Some(fqs[FirstIndex(fits, PyMin(fits))])
                            && r == Some(Ok(RetDict(run.xopt, allvecs, fits, fqs, Unflatten(run.xopt),
                                                    target, old(optpts).value)))))
    {
      if grade != "coarse" {
        return None;
      }
      grade := "fine";
      var initial := c0;
      c0 := optpts;
      ghost var h := History(fits, fqs);
      var res := FindOptimumCurve(env);
      if c0.Some? && CallFor(methodName, grade).Some? {
        var run := env.optimizer(CallFor(methodName, grade).value, Flatten(c0.value));
        ReplayExtends(Objective(grade, target, env), run.trials, h);
      }
      if res.Ok? {
        c0 := initial;
      }
      r := Some(res);
    }
  }
}
