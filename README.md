# Bell and petal shape optimiser: a Dafny model of its core

The repository searches for plate outlines ("bells", "petals" and "sculptures") whose
vibration frequencies match a target chord. A handful of control points is turned into a
closed spline outline. Outlines that cross themselves are rejected. The rest are handed to a
finite-element solver, and the solver's frequencies are scored against the target; an
optimizer repeats this and keeps the history. Around that loop sit several smaller parts:
- a work queue that hands candidates to worker processes;
- petal generators that assemble outlines from random draws;
- a music-notation layer that names the frequencies and writes them out as LilyPond text;
- an in-memory table of sculptures behind a small web API.

This project models that core in Dafny and proves what each part promises:

- `Curves`, `Intersection` (xy_interpolation.py): `halve`, `breakup`, the range/box tests,
  the recursive bounding-box detector `curve_intersects_rec` and the pair scan
  `curve_intersects` (a method whose loop is proved to compute the scan function).
- `Shape`: `make_shape` (closing, the self-intersection rule, the stride), with the
  spline `interp` as a parameter.
- `Fitness`: `fitness` over a small float datatype that keeps NumPy's inf/NaN results, and
  `find_frequencies` (an imperative window loop plus the `ceil(linspace)` sub-sampler).
- `FlatPoints`: `unflatten`, `np.append(x, y)` and the random penalty.
- `Optimization`, `Candidate`, `OptimizeScript`, `OptimizeGrad`, `TestFrequencies`: the
  objective functions of the four optimiser revisions. Covered:
  - the class `Bell` of optimize/optimize.py;
  - the module-level `fits`/`fqs` of optimize.py;
  - the history-free optimize_grad.py;
  - `evalTestFreq` of Optimize_grad.py.

  A run of scipy's optimizer is a list of trials. Each trial is a vector plus the
  `random()` draw it consumes, and replaying the trials gives the history.
- `WorkQueue` (multitest.py): `flatten`, `get_candidate` and the batch coordinator, as a
  class over an insertion-ordered dictionary.
- `Petal` (optimize/shape_generators.py and backend/flask_app/shape_generators.py): the
  in-place array helpers on Dafny arrays, and the parameter rules of `gen_petal`. Also
  the mirror/assembly steps and the retry loops of `gen_petal` and `make_random_petal`, with
  the random draws as parameters.
- `Notes`, `PyStr`, `PyNum` (optimize/notes.py): Euclid's `find_gcf`, `find_min_mode`, the
  `Note` record and its octave/name/cents rules, `notation`, `find_scale_haromonics`,
  `get_lily`, and the harmonic tables.
- `Lily` (optimize/to_lily.py): range extraction, version/header text, the two clef
  separators, the score templates and the assembled file.
- `Sculptures` (optimize/app.py): `retrieve_sculpture`, `remove_sculpture` and the
  POST/PUT/DELETE handlers as operations on a table object.

Python exceptions are values: `Outcome<T>` is `Ok(value)` or `Raised(exn)`. The helpers
`ptl_find_thinner_half`, `ptl_flip_vertically` and `translate_base` appear in both
shape_generators.py files with the same bodies; the rows below cite optimize/shape_generators.py.

## Model

| member | source | states |
|---|---|---|
| Curves.Halve | xy_interpolation.py:50-54 | returns (second half, first half), each list cut at len // 2; the first half followed by the second is the input, with sizes n // 2 and n - n // 2 |
| Curves.Breakup | xy_interpolation.py:57-63 | for order >= 1 there are 2^order pieces (order 0 never reaches the base case) |
| Curves.BreakupReassembles | xy_interpolation.py:57-63 | the pieces, read from last to first, concatenate back to the curve |
| Curves.BreakupBalanced | xy_interpolation.py:57-63 | pieces of a well-formed curve are well formed and differ in size by at most one point |
| Intersection.RangeIntersects | xy_interpolation.py:66-71 | for ordered ranges the endpoint test is exactly the overlap of the closed intervals |
| Intersection.RangeIntersectsSymmetric | xy_interpolation.py:66-71 | the test does not depend on the order of its arguments |
| Intersection.BoxIntersects | xy_interpolation.py:74-77 | the conjunction of the x and y range tests; for ordered boxes, the closed rectangles share a point |
| Intersection.CurveIntersectsRec | xy_interpolation.py:80-102 | True whenever c1 has at most thresh points, before any box test; False on disjoint boxes; otherwise the short-circuit OR over the four half pairs; ValueError (NumPy's `min` of an empty array) only from an empty arc |
| Intersection.RecNeverRaisesOnBalanced | xy_interpolation.py:80-102 | on arcs whose sizes differ by at most one, no bounding box of an empty list is ever taken |
| Intersection.RecFalseMeansNoSharedPoint | xy_interpolation.py:80-102 | a False answer is sound: the two arcs share no sample point |
| Intersection.PairsFromMembers | xy_interpolation.py:115 | `combinations(range(n), 2)` lists exactly the pairs a < b < n |
| Intersection.PairsFromCount | xy_interpolation.py:115 | there are (n - i)(n - i - 1)/2 pairs, 28 for the eight pieces |
| Intersection.FirstNotFalseIsAny | xy_interpolation.py:124-134 | without exceptions, the early-return scan answers True exactly when some pair answers True |
| Intersection.CurveIntersects | xy_interpolation.py:105-134 | the loop with its early return computes the scan over the 28 pairs of the eight `breakup(c, 3)` pieces, after the two assertions |
| Intersection.ScanPairs | xy_interpolation.py:124-134 | the loop over the pairs returns the first answer that is not False (True, or the exception the recursion raised), and False when every pair answered False |
| Intersection.SelfIntersectsDecides | xy_interpolation.py:105-134 | for a well-formed curve of more than 4 * thresh points the detector never raises, and it answers True exactly when one pair of pieces is reported as intersecting |
| Intersection.SmallPiecesReportIntersection | xy_interpolation.py:111-126 | a curve whose first piece has at most thresh points is always reported as self-intersecting |
| Intersection.NoIntersectionMeansPiecesApart | xy_interpolation.py:105-134 | a curve reported as not self-intersecting has no sample point shared by two different pieces |
| Shape.Close | xy_interpolation.py:245 | the closed outline is the input followed by its own first point |
| Shape.Interp | xy_interpolation.py:137-146 | succeeds only when the spline does, with one sample fewer in each list (the repeated first sample removed) |
| Shape.EveryKth | xy_interpolation.py:258 | `s[::k]` holds ceil(len / k) elements |
| Shape.EveryKthAt | xy_interpolation.py:258 | element i of `s[::k]` is element i * k of s |
| Shape.SparseKeepsSamples | xy_interpolation.py:258 | with a positive max_output_len the stride never fails, keeps at most max_output_len points (at least one of a non-empty fit), and keeps only points of the fit |
| Shape.MakeShapeRejectsExactlySelfIntersecting | xy_interpolation.py:232-259 | once the spline succeeds, make_shape raises exactly when the fit crosses itself, then only ValueError; otherwise it returns at most max_output_len points of the fit |
| Fitness.Term | xy_interpolation.py:532 | (ideal - actual)^2 / ideal, with +inf for a zero ideal and NaN for 0/0 |
| Fitness.Fitness | xy_interpolation.py:518-532 | raises exactly on a length mismatch, and then AssertionError, which the `except TypeError` does not catch |
| Fitness.SumTermsPositive | xy_interpolation.py:532 | over positive ideal values the sum is finite, non-negative, and zero exactly on equal lists |
| Fitness.FitnessZeroExactlyOnMatch | xy_interpolation.py:518-532 | for positive targets the score is finite, non-negative, and zero exactly when the lists are equal |
| Fitness.FitnessOfFiniteSum | xy_interpolation.py:532 | a finite sum is averaged over the number of targets |
| Fitness.ZeroIdealIsSpecial | xy_interpolation.py:532 | a zero target makes the score infinite, or NaN if it is matched exactly |
| Fitness.FitnessOfSingle | xy_interpolation.py:532 | with one target the score is that target's term |
| Fitness.Index | xy_interpolation.py:571 | `ceil(i * L / num)` computed on integers |
| Fitness.FindFrequencies | xy_interpolation.py:535-574 | the scanning loop with its early break computes the window-and-sub-sample specification, including IndexError for an empty target |
| Fitness.WindowValues | xy_interpolation.py:558-568 | every pooled value comes from the input and lies inside or above the window |
| Fitness.WindowKeepsInsideValues | xy_interpolation.py:558-562 | when every value lies strictly inside the window the pool is the input |
| Fitness.WindowSorted | xy_interpolation.py:558-568 | the pool keeps the input's order |
| Fitness.IndexStrictlyIncreasing | xy_interpolation.py:571 | with at least num pooled values the indices climb strictly |
| Fitness.LastIndexInRange | xy_interpolation.py:571-574 | the last index is in range exactly when at least num values were pooled |
| Fitness.IndexMonotone | xy_interpolation.py:571 | the indices never decrease |
| Fitness.IndexZero | xy_interpolation.py:571 | the first index is 0 |
| Fitness.SubSampleDecides | xy_interpolation.py:571-574 | IndexError exactly when fewer values than targets were pooled; otherwise one value per target at strictly increasing pool positions |
| Fitness.FindFrequenciesSelects | xy_interpolation.py:535-574 | on a sorted spectrum a successful result has one sorted value per target, each from the spectrum and inside or above the window |
| FlatPoints.Flatten | optimize/optimize.py:164 | `np.append(x, y)`: the x values followed by the y values |
| FlatPoints.Unflatten | optimize/optimize.py:12 | the first len // 2 entries as x, the rest as y; an even vector gives equal lengths |
| FlatPoints.UnflattenFlatten | optimize/optimize.py:12 | splitting the flattening of a well-formed curve gives the curve back |
| FlatPoints.FlattenUnflatten | optimize/optimize.py:12 | flattening the split of any vector gives the vector back |
| FlatPoints.Take | optimize/optimize.py:106 | `s[:n]`: the first n entries, or all of s |
| FlatPoints.PenaltyRange | optimize/optimize.py:124 | `crosspenalty * (random() + 1)` lies in [crosspenalty, 2 crosspenalty) |
| Optimization.ReplayExtends | optimize/optimize.py:113-114 | a run only appends to the history, at most once per trial, keeping fits and fqs paired |
| Optimization.PenalisedRunRecordsNothing | optimize/optimize.py:121-133 | a run whose every trial is penalised records nothing and does not fail |
| Optimization.ReplayRecordsEvaluations | optimize/optimize.py:113-114 | every recorded score was produced by one of the run's trials |
| Optimization.ReplayFailsAtFirstRaise | optimize/optimize.py:173 | an exception the objective lets through ends the run with that exception |
| Optimization.ReplayCompletesIffNoRaise | optimize/optimize.py:173 | a run completes exactly when no trial raises |
| Candidate.CallFor | optimize/optimize.py:165-187 | simplex with xtol = ftol = 1.0 on 'coarse' (0.1 otherwise) and maxiter 10; basinhopping with tol 100 * ftol and step 20; None (ValueError) for any other method |
| Candidate.FirstIndex | optimize/optimize.py:210 | `list.index`: the first position holding the value |
| Candidate.MinIsMember | optimize/optimize.py:209 | `min` returns one of the list's values |
| Candidate.MinIsLeast | optimize/optimize.py:209 | without NaN scores no recorded score is smaller than `min`'s |
| Candidate.EvaluateOutcomes | optimize/optimize.py:59-133 | an odd vector raises AssertionError before the try, and no even vector raises it; an even one is scored, penalised within [crosspenalty, 2 crosspenalty), or fails with an exception the handler does not list |
| Candidate.SelfIntersectingIsPenalised | optimize/optimize.py:74-124 | a self-intersecting outline is penalised, never scored |
| Candidate.Bell.constructor | optimize/optimize.py:32-55 | the given settings; c0 is the random shape with the requested control points when absent, else c0 with len(c0[0]) control points; empty histories and no best values |
| Candidate.Bell.EvalFitness | optimize/optimize.py:59-133 | returns the evaluation and appends exactly one score and the raw frequencies on success, nothing on a penalty or exception |
| Candidate.Bell.SingleSimulation | optimize/optimize.py:136-153 | evaluates c0 once; a penalty cannot be unpacked into (fit, freqs) and raises TypeError |
| Candidate.Bell.FindOptimumCurve | optimize/optimize.py:155-214 | the history is the replay of the optimizer's trials; on completion optpts is the split terminal vector, allvecs the recorded vectors (basinhopping: the terminal coordinates), best_fit = min(fits) and best_fq its first partner; an empty history or an unknown method raises ValueError and changes nothing else |
| Candidate.Bell.RunTrials | optimize/optimize.py:173-184 | the optimizer's objective calls, in order, until the first exception, matching the replay |
| Candidate.Bell.Refine | optimize/optimize.py:216-223 | on 'coarse': switch to 'fine' and run the optimizer from the flattened optpts with the fine settings; the history is that run's replay appended to the accumulated one; optpts, allvecs, best_fit, best_fq and the returned dict are those of findOptimumCurve for that run, the dict's c0 being the old optpts; c0 is put back only when the run returns; an empty optpts or unknown method raises ValueError with nothing else changed; on 'fine' None and nothing changes |
| OptimizeScript.CallFor | optimize.py:63-79 | simplex with maxiter 300 and xtol = ftol = 1.0 on 'course' (0.1 otherwise); basinhopping with step 200; None (ValueError) otherwise |
| OptimizeScript.EvaluateOutcomes | optimize.py:13-45 | an odd vector raises AssertionError; an even one is scored, penalised within [crosspenalty, 2 crosspenalty), or fails with an exception other than ValueError |
| OptimizeScript.ShortSpectrumEscapes | optimize.py:35-36 | fewer frequencies than targets make `fitness` fail its assertion, and the AssertionError escapes |
| OptimizeScript.SelfIntersectingIsPenalised | optimize.py:30-45 | a self-intersecting outline is penalised |
| OptimizeScript.Script.constructor | optimize.py:8-11 | the module's GRADE and METHOD settings, with fits/fqs empty as the `__main__` loop first creates them (line 110); at import they do not exist yet |
| OptimizeScript.Script.Reset | optimize.py:110 | fits and fqs are emptied between attempts |
| OptimizeScript.Script.EvalFitness | optimize.py:13-45 | returns the evaluation and appends to the module-level fits/fqs only on success |
| OptimizeScript.Script.FindOptimumCurve | optimize.py:48-99 | starts from c0 or the random 7-point shape; the history is the replay of the trials; returns optpts, the split terminal vector, with the record dictionary; an unknown method raises ValueError |
| OptimizeScript.Script.RunTrials | optimize.py:63-76 | the optimizer's objective calls, in order, until the first exception, matching the replay |
| OptimizeGrad.EvaluateOutcomes | optimize_grad.py:11-36 | an odd vector raises AssertionError; an even one is scored with a 50-point shape, penalised within [100, 200) by default, or fails with an exception other than ValueError |
| OptimizeGrad.PenalisedRunReturnsTerminal | optimize_grad.py:39-57 | with every trial penalised, the result is the split of fmin's terminal vector, from c0 or the random 5-point shape |
| TestFrequencies.EvalTestFreqBroken | Optimize_grad.py:5-16 | on an even vector the result is the constant 100 when shaping or solving raised ValueError; other outcomes are the score or an escaping exception |
| TestFrequencies.ScoreShapeOutcomes | Optimize_grad.py:12-14 | fewer than four frequencies fail `fitness`'s assertion; otherwise the score is the fitness of the first four against [.5, 1.0, 1.5, 2.0] |
| TestFrequencies.SelfIntersectingScoresConstant | Optimize_grad.py:10-16 | a self-intersecting spline scores the constant 100, with no random part |
| WorkQueue.FlattenMembers | multitest.py:6-7 | flatten keeps every item of every sublist and adds none |
| WorkQueue.FlattenAppend | multitest.py:6-7 | flattening distributes over concatenation, so the order is kept |
| WorkQueue.PendingIsFlatten | multitest.py:20 | the waiting candidates are `flatten(process_dict.values())` |
| WorkQueue.LookupKeys | multitest.py:27-28 | a key is found exactly when the dictionary has it |
| WorkQueue.PopPending | multitest.py:28-30 | popping removes exactly the last candidate of the chosen list from the pending multiset |
| WorkQueue.PopKeepsInvariant | multitest.py:28-30 | popping (and deleting an emptied key) keeps every list non-empty and every key distinct |
| WorkQueue.PopLookup | multitest.py:28-30 | the chosen key's list loses its last candidate, the key goes when the list empties, every other key is unchanged |
| WorkQueue.DrawFailsExactly | multitest.py:20-24 | None exactly when no candidate is left; AssertionError exactly when candidates are left but some list is empty; the dictionary is unchanged in both cases |
| WorkQueue.DrawTakesOne | multitest.py:27-31 | a draw returns the last candidate of some key's list, the pending count drops by exactly one, and the invariant holds after |
| WorkQueue.DrawLookup | multitest.py:27-31 | an emptied key is deleted and every other key's list is untouched |
| WorkQueue.RemoveLookup | multitest.py:74 | `pop(trg, None)` leaves the key absent and the others unchanged, with no error for an absent key |
| WorkQueue.RemoveKeepsInvariant | multitest.py:74 | removal keeps the invariant, only takes candidates away, and ignores an absent key |
| WorkQueue.DrawStep | multitest.py:62-65 | one draw keeps the batch invariant and either moves one candidate out or finds the dictionary empty |
| WorkQueue.DrawBatchCounts | multitest.py:59-65 | a batch of n draws takes min(n, pending) candidates and sets finished exactly when fewer than n were pending |
| WorkQueue.DrawBatchDrawable | multitest.py:59-65 | the invariant holds after a batch |
| WorkQueue.DrawBatchKeeps | multitest.py:59-65 | the drawn candidates and the ones left are together the ones there were |
| WorkQueue.DropSucceededKeeps | multitest.py:71-74 | the removals after a batch keep the invariant and add no candidate |
| WorkQueue.DropSucceededRemoves | multitest.py:71-74 | a target with some result above the threshold is gone afterwards |
| WorkQueue.DropSucceededKeepsOthers | multitest.py:71-74 | a target whose results all stayed at or below the threshold keeps its list |
| WorkQueue.DropAbsentStaysAbsent | multitest.py:71-74 | a key absent before the removals stays absent |
| WorkQueue.Results | multitest.py:68 | `pool.map` gives one (target, value) result per drawn pair, with that pair's target |
| WorkQueue.AssignLookup | multitest.py:49-50 | after `d[k] = v`, k maps to v and every other key is unchanged |
| WorkQueue.Coordinator.constructor | multitest.py:45-50 | each target maps to [0 .. attempts - 1], nothing else is a key, and the invariant holds |
| WorkQueue.Coordinator.GetCandidate | multitest.py:9-31 | the result and the new dictionary are those of one draw |
| WorkQueue.Coordinator.DrawN | multitest.py:59-65 | the inner loop computes one batch of draws |
| WorkQueue.Coordinator.DropAll | multitest.py:71-74 | the results loop computes the removals |
| WorkQueue.Coordinator.Run | multitest.py:57-74 | the batch loop ends with no candidate left and the invariant intact, having run only candidates that were queued |
| Petal.ThinnerHalf | optimize/shape_generators.py:7-29 | -1 when pts[0] < pts[2], 1 when greater, 0 on a tie; IndexError for fewer than three values |
| Petal.Swap02 | optimize/shape_generators.py:47-56 | entries 0 and 2 exchanged, the others in place |
| Petal.Swap02Involution | optimize/shape_generators.py:47-56 | flipping twice is the identity |
| Petal.FlipTurnsThinnerHalf | optimize/shape_generators.py:7-56 | a flip reverses the sign of the thinner-half test |
| Petal.ReverseTurnsThinnerHalf | backend/flask_app/shape_generators.py:176-180 | `np.flip` of the three x values reverses the sign of the thinner-half test |
| Petal.FlipVertically | optimize/shape_generators.py:33-56 | swaps entries 0 and 2 of both arrays in place, statement by statement; too short an array raises IndexError after the writes before it |
| Petal.TranslateBase | optimize/shape_generators.py:60-64 | adds dist to the first nine y values only; fewer than nine raise IndexError after the earlier writes |
| Petal.TranslateShapeUp | optimize/shape_generators.py:68-72 | adds dist to the y values as far as the x values reach; the x array is untouched |
| Petal.ShapeUpArrays | optimize/shape_generators.py:68-72 | the in-place shift on arrays built from a curve gives the value-level shift |
| Petal.Contains | optimize/shape_generators.py:199-205 | Python's substring `in` |
| Petal.DeviationOfVariants | optimize/shape_generators.py:199-205 | point gets 0.20, curve 0.10, standard 0.00, custom keeps the caller's factor |
| Petal.HalfPointsNear | optimize/shape_generators.py:209-210 | round-half-even of num_points / 2 is within half a point of it |
| Petal.GenPetalSetupRules | optimize/shape_generators.py:194-215 | TypeError exactly for a non-int point count or an unknown variant; otherwise the deviation factor, the -1 length defaults as written, and the halves with the intended `!=` (see Findings) |
| Petal.MirrorPoints | optimize/shape_generators.py:342-343 | the mirrored side leaves out the first point and lists the others backwards, x negated and y kept |
| Petal.ShiftsAddUp | optimize/shape_generators.py:229-230 | p_upper * scale_l + p_lower * scale_l is the petal length |
| Petal.PetalAttemptRun | optimize/shape_generators.py:353-366 | one attempt with arrays shifted in place equals the value-level attempt |
| Petal.ShiftedMirror | optimize/shape_generators.py:342-365 | raising the mirrored y values is mirroring the raised ones |
| Petal.SymmetricPetalShape | optimize/shape_generators.py:353-365 | a symmetric petal with a base is the right side, the base and the mirrored side, with sizes adding up; the right side is raised by p_lower * scale_l and the base by the full length |
| Petal.PetalTipAtLength | optimize/shape_generators.py:355-365 | without a base the tip lies at (0, scale_l) |
| Petal.FirstAcceptedIsFirst | optimize/shape_generators.py:226-370 | the retry loop's answer is the first attempt that does not raise ValueError; there is none exactly when every attempt raised it |
| Petal.GenPetal | optimize/shape_generators.py:186-370 | setup errors give TypeError; otherwise, with every draw made under the setup, the answer is the first attempt that does not raise ValueError (a half without points makes every attempt raise it), and counter_fail is its position, or every draw when none is accepted; the halves are the corrected ones (see Findings) |
| Petal.EmptyHalfNeverAccepted | optimize/shape_generators.py:226-370 | a half with fewer than one point makes every attempt raise ValueError, so the loop never returns |
| Petal.GenPetalPointCount | optimize/shape_generators.py:208-366 | for an even num_points of at least two, an accepted symmetric petal with a base has 2 * num_points + 3 points plus the base's |
| Petal.StandardPetalShift | optimize/shape_generators.py:199-366 | the standard variant raises the outline by exactly length_lower * length, 1.5 * width_scale * length by default |
| Petal.OrientedThinUp | backend/flask_app/shape_generators.py:176-180 | after orientation the first x is at least the last: the thin end points up |
| Petal.BaseUpArrays | backend/flask_app/shape_generators.py:97-101 | the in-place base shift on an array built from the nodal base gives the value-level shift |
| Petal.RandomPetalAttemptRun | backend/flask_app/shape_generators.py:163-202 | one attempt with the base raised in place equals the value-level attempt |
| Petal.RandomPetalShape | backend/flask_app/shape_generators.py:176-196 | 1 + 3 + 9 + 3 points starting at the origin; the thin end up; the base raised by scale; the right half is the left one reversed with x negated |
| Petal.MakeRandomPetal | backend/flask_app/shape_generators.py:148-206 | the answer is the first attempt without ValueError, and the fail counter is its position (or every draw when none succeeds) |
| Notes.FindGcfIsGcd | optimize/notes.py:44-49 | on naturals find_gcf divides both arguments and every common divisor divides it |
| Notes.CountsMeaning | optimize/notes.py:53-60 | the counting dict holds exactly the values of the list, each with its number of occurrences |
| Notes.RepeatedMembers | optimize/notes.py:63-66 | a key survives into modes2 exactly when it is non-zero and repeated |
| Notes.MostFrequentIsEarliest | optimize/notes.py:72 | `max(freqs, key=freqs.count)` returns the earliest of the most frequent values |
| Notes.MinModeMeaning | optimize/notes.py:51-74 | the smallest non-zero repeated value (the only one when there is one); else the most frequent value, earliest on ties; ValueError for an empty list |
| Notes.FindMinMode | optimize/notes.py:51-74 | the counting loops compute that answer |
| Notes.M2O | optimize/notes.py:117-119 | the octave whose C lies at or below midi: floor(midi / 12) - 1 |
| Notes.M2N | optimize/notes.py:121-122 | the name of the nearest semitone, ties to even |
| Notes.M2NOctave | optimize/notes.py:121-122 | a pitch an octave up has the same name |
| Notes.PitchRoundTrip | optimize/notes.py:117-135 | octave, pitch class and cents put together give midi back, with the cents within half a semitone |
| Notes.PitchAsWrittenOffTie | optimize/notes.py:124-135 | away from the exact half-semitone the source's sign test agrees with the intended one |
| Notes.PitchAsWrittenTie | optimize/notes.py:124-135 | at midi 59.5 the source names C3 + 50 cents where C4 - 50 is meant |
| Notes.Note.Zero | optimize/notes.py:162-168 | all six fields are 0, the name too |
| Notes.Note.FromMidi | optimize/notes.py:143-161 | octave, name and cents from the midi value, by the corrected pitch rules (see Findings) |
| Notes.NewNote | optimize/notes.py:90-168 | a falsy frequency gives the zero note with all six fields 0; mode 1 fails (ValueError) exactly on a negative frequency and otherwise keeps freq, with rads = f2r(freq) and midi = f2m(freq); mode 2 keeps midi, with freq = m2f(midi) and rads = f2r(freq); other modes fail exactly below EPS and otherwise keep rads, with freq = r2f(rads) and midi = f2m(freq); every non-zero note's octave, name and cents follow midi by the corrected pitch rules (see Findings) |
| Notes.AngularRoundTrip | optimize/notes.py:91-106 | an angular frequency at or above EPS / 2π converts to a positive frequency and back to itself |
| Notes.CentsTextShowsRoundedCents | optimize/notes.py:183-191 | nothing when the cents round to 0; otherwise " - " or " + " by sign, then the rounded magnitude, which reads back as a number, then " cents" or " cent" |
| Notes.OctaveMarksRoundTrip | optimize/notes.py:280-287 | the octave marks read back as the octave they were written for |
| Notes.LilyPitchesDistinct | optimize/notes.py:275-279 | the twelve names stay twelve different LilyPond names |
| Notes.MarkupPlacement | optimize/notes.py:290-295 | a markup appears exactly for a whole cent or more, above for positive, below for negative |
| Notes.GetLily | optimize/notes.py:271-296 | a named note's text is its pitch, octave marks, mode and markup; a zero note raises TypeError |
| Notes.ScaleHarmonicsMembers | optimize/notes.py:195-204 | the harmonics of an in-tune note are exactly the other in-tune notes with its name, none for an out-of-tune note |
| Notes.ScaleHarmonicsSymmetric | optimize/notes.py:195-204 | being an octave harmonic is mutual |
| Notes.FindScaleHarmonics | optimize/notes.py:195-204 | the filtering loop computes those harmonics |
| Notes.Put | optimize/notes.py:29 | `d[k] = v` keeps a present key's place and adds a new one last |
| Notes.CollectEntries | optimize/notes.py:24-32 | every entry is a listed note with its own non-empty harmonic list |
| Notes.CollectComplete | optimize/notes.py:24-32 | every listed note with a non-empty harmonic list has its entry |
| Notes.GetAllScaleHarmonics | optimize/notes.py:24-32 | the loop builds that table |
| Notes.GetAllValueHarmonics | optimize/notes.py:34-42 | the loop builds that table with the given finder |
| PyStr.ParseNatToString | optimize/notes.py:185-187 | the digits `str` writes for a natural read back as it |
| PyStr.ParseIntToString | optimize/notes.py:181 | `int(str(i)) == i` |
| PyStr.Lower | optimize/notes.py:278 | `lower()` on ASCII text: each capital maps to its small letter and every other ASCII character stays; the note names it is applied to are ASCII |
| PyStr.RepeatChar | optimize/notes.py:283-287 | `n * c` is n copies of c, empty for n <= 0 |
| PyNum.FloorDiv | optimize/notes.py:119 | Python's `//` rounds toward minus infinity |
| PyNum.RoundHalfEven | optimize/notes.py:122 | Python's `round`: the nearest integer, ties to even |
| Lily.NotesInRangeMembers | optimize/to_lily.py:10-30 | a note is kept exactly when it is listed and strictly inside the range |
| Lily.NotesInRangeAppend | optimize/to_lily.py:10-30 | filtering distributes over concatenation, so the input order is kept |
| Lily.NotesInRangeIdempotent | optimize/to_lily.py:10-30 | extracting twice keeps what extracting once kept |
| Lily.ExtractNotesInRange | optimize/to_lily.py:10-30 | the loop keeps exactly the notes strictly inside (low, high), in order |
| Lily.Version | optimize/to_lily.py:53-64 | the version line followed by `\pointAndClickOff`, each ending in a newline |
| Lily.VersionReadBack | optimize/to_lily.py:53-64 | the version can be read back from the text |
| Lily.Header | optimize/to_lily.py:66-76 | the header block embeds the title |
| Lily.HeaderReadBack | optimize/to_lily.py:66-76 | the title can be read back from the header |
| Lily.EntryOf | optimize/to_lily.py:91-96 | a note below octave 4 goes on the bass staff, from octave 4 up on the treble staff |
| Lily.LayoutAppend | optimize/to_lily.py:90-96 | a staff of a concatenation is the staves of the parts in order |
| Lily.LayoutAllRests | optimize/to_lily.py:90-96 | notes all on the other staff leave one spacer each |
| Lily.RestsOnOtherStaff | optimize/to_lily.py:90-96 | notes all below octave 4 leave only rests on the treble staff, notes all from octave 4 up only rests on the bass staff |
| Lily.PlaceNotes | optimize/to_lily.py:90-96 | the note loop raises TypeError exactly when a note has no name; otherwise it appends one staff layout to each string |
| Lily.SeparateNotesByClefs | optimize/to_lily.py:78-98 | each note on its staff with `get_lily()` and a quarter rest on the other; TypeError exactly for a zero note |
| Lily.GroupsOf | optimize/to_lily.py:112-125 | each group is its key rendered with mode 1 and its harmonics with mode 4 |
| Lily.HarmLayoutAppend | optimize/to_lily.py:110-129 | groups rendered in two parts render the parts in order |
| Lily.HarmLayoutEndsWithBar | optimize/to_lily.py:127-128 | a staff of one or more groups ends with the bar line |
| Lily.SeparateHarmsByClefs | optimize/to_lily.py:100-131 | keys with `get_lily(1)` or a whole rest, harmonics with `get_lily(4)` or quarter rests, a bar line after each group on both staves; TypeError exactly for a zero note |
| Lily.HarmonicsTitlesDistinct | optimize/to_lily.py:178-189 | modes 0 to 3 give four different titles |
| Lily.AllNotesScore | optimize/to_lily.py:133-155 | the "All Notes" score, or TypeError exactly for a zero note |
| Lily.HarmonicsScore | optimize/to_lily.py:157-191 | the harmonics score, or TypeError exactly for a zero note in the table |
| Lily.GenerateLilyAllNotes | optimize/to_lily.py:133-155 | the method computes the "All Notes" score |
| Lily.GenerateLilyHarmonics | optimize/to_lily.py:157-191 | the method computes the harmonics score |
| Lily.AssembleParts | optimize/to_lily.py:40-49 | the file is the opening followed by the three scores in order, or the first exception |
| Lily.LilyContentRaises | optimize/to_lily.py:32-49 | the file fails, with TypeError, exactly when one of its three scores has a zero note |
| Lily.LilyContentOpening | optimize/to_lily.py:32-49 | a file that renders is the version line and the "Results" header, then all notes, scale harmonics (mode 1) and value harmonics (mode 2); the relative harmonics are not emitted |
| Lily.GenerateLilyContent | optimize/to_lily.py:32-49 | the method computes that file |
| Sculptures.FromBody | optimize/app.py:277-286 | the POST record: the fresh id and the request's six fields |
| Sculptures.FirstIndex | optimize/app.py:249-253 | the first position whose id matches, None when no record has it |
| Sculptures.FindFirstMeaning | optimize/app.py:249-253 | the record found has the id and no earlier one has it; nothing is found only when no record has it |
| Sculptures.RemoveFirstMeaning | optimize/app.py:242-247 | removal drops exactly the first matching record, keeping the others in order, and changes nothing without a match |
| Sculptures.RemoveFirstUnique | optimize/app.py:242-247 | with unique ids, removal keeps ids unique and leaves no record with the id |
| Sculptures.MergedFields | optimize/app.py:315-323 | each field is the request's value when truthy, else the stored one; the id is the requested id; an empty request keeps the record |
| Sculptures.MergedIdempotent | optimize/app.py:315-323 | merging the same request into its own result changes nothing |
| Sculptures.PutUnique | optimize/app.py:308-323 | with unique ids a PUT keeps ids unique, the merged record ends up last and is what GET finds, and repeating the PUT gives the same table |
| Sculptures.CreateFresh | optimize/app.py:277-286 | POST under an unused id keeps ids unique and GET then finds the new record |
| Sculptures.SculptureTable.constructor | optimize/app.py:36 | the table starts with the given records |
| Sculptures.SculptureTable.Retrieve | optimize/app.py:249-253 | the loop returns the first record with the id, or nothing |
| Sculptures.SculptureTable.Remove | optimize/app.py:242-247 | the loop removes the first record with the id and reports whether there was one |
| Sculptures.SculptureTable.Create | optimize/app.py:277-286 | POST appends the request's record under the fresh id |
| Sculptures.SculptureTable.Put | optimize/app.py:308-323 | PUT removes the stored record and appends the merged one; without a stored record it raises AttributeError (the table unchanged) unless every field is truthy |
| Sculptures.SculptureTable.Delete | optimize/app.py:326-328 | DELETE removes the first record with the id, whether or not there was one |
| Sculptures.MergeRecord | optimize/app.py:315-323 | the field-by-field `or` loop computes the merged record or the AttributeError |

## Left out

- The spline fit (`interp`'s `splprep`/`splev`) is a parameter: the model says what is done with its samples, not how they are fitted.
- The finite-element pipeline (`find_eigenmodes`, mesh files, subprocesses) is a parameter returning a frequency list or an exception.
- scipy's `fmin` and `basinhopping` are a parameter returning the trials the objective was called on and the terminal vector. Their convergence, and basinhopping's `accept_test`, are not modelled.
- `random()`, `make_random_shape`, `np.random.uniform`, `pick_val` and the rejection-sampling radii loops of `gen_petal` are parameters: each attempt receives the values it drew. For `gen_petal` the draws are tied to the setup only by p_lower's window and the number of radii; the radii values themselves are not constrained.
- `gen_nodal_base`, `make_base`, `make_circle`, `make_moon` and `bevel` are trigonometry or polygon clipping; `gen_nodal_base`'s result is a parameter.
- Floating point: reals are exact. NumPy's inf and NaN appear only where `fitness` produces them (the `Float` datatype). Rounding error is not modelled.
- Notes.Note.FromMidi and Notes.NewNote use the corrected pitch (`Pitch`), not `m2c` as written (`PitchAsWritten`): at an exact half semitone that rounds up, such as midi 59.5, the source gives octave 3 and +50 cents where the model gives octave 4 and -50 cents (see Findings).
- Petal.GenPetalSetup, Petal.GenPetalSetupRules and Petal.GenPetal use the corrected halves (`Halves`, with `!=`), not the source's `is not` (`HalvesAsWritten`): for num_points above 256 with a consistent caller split the source replaces the split by two rounded halves, the model keeps it, so GenPetal's point counts follow the caller's split there (see Findings).
- PyStr.Lower: only ASCII capitals are lowered; Python also lowers other Unicode capitals, which never occur in the note names it is applied to.
- Notes.NewNote: `math.log2`, `2 ** x` and `2 * math.pi` are parameters or constants. An `OverflowError` from `2 ** x` on huge midi values is not modelled.
- `find_value_harmonics` is float-modulo arithmetic; `get_all_value_harmonics` takes it as a parameter.
- `notation` and `get_lily` build their strings with `+=`; they are modelled as functions over the pieces appended, in the same order.
- `print`, logging, `pickle.dump` and plotting are left out; they change no modelled state.
- WorkQueue.Coordinator.Run: states that the loop ends with nothing pending, keeps the invariant and runs only queued candidates, each at most once; it does not state that the pairs run are the fold of DrawBatch and DropSucceeded over the batches. Each pass is Coordinator.DrawN then Coordinator.DropAll, whose contracts give that step.
- The multiprocessing pool runs sequentially: `pool.map` is a function from the drawn pairs to results, and `process`'s random values are a parameter.
- The retry loops of `gen_petal` and `make_random_petal` run over a finite list of draws; `None` means every draw was rejected, where the source would keep drawing.
- Flask routing, JSON parsing, `uuid` generation, `jsonify` responses and the GET-all handler are left out. A request body that is not a JSON object is not modelled.
- `generate_lily_content`'s `file_name` and `reltv_harms` arguments are unused by its body; the model takes and ignores them.
- The module-level script of Optimize_grad.py, the `__main__` block of optimize.py apart from its per-attempt reset of fits/fqs, the `__main__` block of optimize_grad.py, runner.py, genetic_algorithm.py, sounds.py, stats.py and the API modules are not part of this model.
- Candidate.Bell.EvalFitness: the `single_sim` flag only chooses whether the frequencies are returned beside the score; the model always returns both.

## Findings

| source | as written | input that shows it | evidently intended | confidence | as-written member | corrected member |
|---|---|---|---|---|---|---|
| optimize/shape_generators.py:208-210 | `num_points is not (num_points_upper + num_points_lower)` compares object identity; CPython caches only -5..256, so a consistent split of a larger count is discarded | num_points = 301, upper = 150, lower = 151: both halves become round(150.5) = 150, 300 points | `!=`: keep a caller's split that adds up to num_points | not executed | Petal.HalvesAsWrittenDropsPoint | Petal.HalvesSplit |
| optimize/notes.py:124-135 | `m2c` decides the sign of the cents from `c + floor(midi) < midi`; at an exact half semitone that rounds up (ties to even) the test is false, so the cents stay +50 and the octave is not advanced | midi = 59.5: rounds to 60 (C), octave 3, +50 cents, i.e. C3 + 50 = 48.5 | the sign by whether rounding went up (`round(midi) > midi`): C4 - 50 = 59.5 | not executed | Notes.PitchAsWrittenTie | Notes.PitchRoundTrip |
