/**
  What every optimizer revision shares: the value an objective call
  produces, the SciPy optimizer calls, and an optimizer run seen as the
  sequence of objective calls it makes. SciPy itself is not modelled: a
  run is given as its trial vectors (each with the `random()` draw its
  evaluation consumes), its terminal vector and its recorded vectors.
 */
module Optimization {
  import opened Outcomes
  import opened Fitness

  /** An objective value: a score with the raw solver frequencies, or a penalty. */
  datatype Evaluation = Evaluated(fit: Float, fq: seq<real>) | Penalised(penalty: real)

  /** `fmin` or `basinhopping`, with the settings a call passes (None: SciPy's default). */
  datatype OptimizerCall =
    | Simplex(xtol: Option<real>, ftol: Option<real>, maxiter: Option<nat>, maxfun: Option<nat>)
    | BasinHopping(tol: Option<real>, stepsize: real)

  /** One call of the objective: the trial vector and the `random()` draw it consumes. */
  datatype Trial = Trial(point: seq<real>, draw: real)

  datatype OptimizerRun = OptimizerRun(trials: seq<Trial>, xopt: seq<real>, allvecs: seq<seq<real>>)

  /** The scores and frequency lists recorded so far (`fits`, `fqs`). */
  datatype History = History(fits: seq<Float>, fqs: seq<seq<real>>)

  /** The history after one objective call: only a score is recorded. */
  function Record(h: History, r: Outcome<Evaluation>): History {
    if r.Ok? && r.value.Evaluated? then History(h.fits + [r.value.fit], h.fqs + [r.value.fq])
    else h
  }

  datatype Replayed = Replayed(hist: History, failure: Option<Exn>)

  /**
    The objective calls of a run, in order; the first exception escapes
    the optimizer and leaves the history as it was at that point.
   */
  function Replay(objective: Trial -> Outcome<Evaluation>, trials: seq<Trial>, h: History): Replayed
    decreases |trials|
  {
    if trials == [] then Replayed(h, None)
    else
      var r := objective(trials[0]);
      if r.Raised? then Replayed(h, Some(r.exn))
      else Replay(objective, trials[1..], Record(h, r))
  }

  /** A run only appends to the history, at most once per trial, and keeps `fits` and `fqs` paired. */
  lemma {:induction false} ReplayExtends(objective: Trial -> Outcome<Evaluation>, trials: seq<Trial>, h: History)
    requires |h.fits| == |h.fqs|
    ensures var h' := Replay(objective, trials, h).hist;
            && |h'.fits| == |h'.fqs|
            && |h.fits| <= |h'.fits| <= |h.fits| + |trials|
            && h'.fits[..|h.fits|] == h.fits && h'.fqs[..|h.fqs|] == h.fqs
    decreases |trials|
  {
    if trials != [] {
      var r := objective(trials[0]);
      if r.Ok? {
        var h1 := Record(h, r);
        ReplayExtends(objective, trials[1..], h1);
        var h' := Replay(objective, trials[1..], h1).hist;
        assert h'.fits[..|h.fits|] == h'.fits[..|h1.fits|][..|h.fits|];
        assert h'.fqs[..|h.fqs|] == h'.fqs[..|h1.fqs|][..|h.fqs|];
      }
    }
  }

  /** A run whose every trial is penalised records nothing and does not fail. */
  lemma {:induction false} PenalisedRunRecordsNothing(objective: Trial -> Outcome<Evaluation>,
                                                      trials: seq<Trial>, h: History)
    requires forall i | 0 <= i < |trials| :: objective(trials[i]).Ok? && objective(trials[i]).value.Penalised?
    ensures Replay(objective, trials, h) == Replayed(h, None)
    decreases |trials|
  {
    if trials != [] {
      assert objective(trials[0]).Ok?;
      PenalisedRunRecordsNothing(objective, trials[1..], h);
    }
  }

  /** Every recorded score was produced by one of the run's trials. */
  lemma {:induction false} ReplayRecordsEvaluations(objective: Trial -> Outcome<Evaluation>,
                                                    trials: seq<Trial>, h: History, k: nat)
    requires |h.fits| == |h.fqs|
    requires |h.fits| <= k < |Replay(objective, trials, h).hist.fits|
    ensures var h' := Replay(objective, trials, h).hist;
            && k < |h'.fqs|
            && exists i | 0 <= i < |trials| :: objective(trials[i]) == Ok(Evaluated(h'.fits[k], h'.fqs[k]))
    decreases |trials|
  {
    ReplayExtends(objective, trials, h);
    var r := objective(trials[0]);
    var h1 := Record(h, r);
    var h' := Replay(objective, trials, h).hist;
    assert h' == Replay(objective, trials[1..], h1).hist;
    ReplayExtends(objective, trials[1..], h1);
    if k < |h1.fits| {
      assert h1.fits[k] == h'.fits[k] && h1.fqs[k] == h'.fqs[k] by {
        assert h'.fits[..|h1.fits|] == h1.fits && h'.fqs[..|h1.fqs|] == h1.fqs;
      }
      assert objective(trials[0]) == Ok(Evaluated(h'.fits[k], h'.fqs[k]));
    } else {
      ReplayRecordsEvaluations(objective, trials[1..], h1, k);
      var i :| 0 <= i < |trials[1..]| && objective(trials[1..][i]) == Ok(Evaluated(h'.fits[k], h'.fqs[k]));
      assert trials[1..][i] == trials[i + 1];
    }
  }

  /** The run fails with the exception of its first failing trial. */
  lemma {:induction false} ReplayFailsAtFirstRaise(objective: Trial -> Outcome<Evaluation>,
                                                   trials: seq<Trial>, h: History, k: nat)
    requires k < |trials| && objective(trials[k]).Raised?
    requires forall i | 0 <= i < k :: objective(trials[i]).Ok?
    ensures Replay(objective, trials, h).failure == Some(objective(trials[k]).exn)
    decreases k
  {
    if k > 0 {
      assert objective(trials[0]).Ok?;
      forall i | 0 <= i < k - 1
        ensures objective(trials[1..][i]).Ok?
      {
        assert trials[1..][i] == trials[i + 1];
      }
      assert trials[1..][k - 1] == trials[k];
      ReplayFailsAtFirstRaise(objective, trials[1..], Record(h, objective(trials[0])), k - 1);
    }
  }

  /** A run completes exactly when no trial raises. */
  lemma {:induction false} ReplayCompletesIffNoRaise(objective: Trial -> Outcome<Evaluation>,
                                                     trials: seq<Trial>, h: History)
    ensures Replay(objective, trials, h).failure.None? <==>
            forall i | 0 <= i < |trials| :: objective(trials[i]).Ok?
    decreases |trials|
  {
    if trials != [] {
      var r := objective(trials[0]);
      if r.Ok? {
        ReplayCompletesIffNoRaise(objective, trials[1..], Record(h, r));
        if forall i | 0 <= i < |trials[1..]| :: objective(trials[1..][i]).Ok? {
          forall i | 0 <= i < |trials|
            ensures objective(trials[i]).Ok?
          {
            if i > 0 { assert trials[i] == trials[1..][i - 1]; }
          }
        } else {
          var j :| 0 <= j < |trials[1..]| && !objective(trials[1..][j]).Ok?;
          assert trials[1..][j] == trials[j + 1];
        }
      }
    }
  }
}
