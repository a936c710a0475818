/**
  The scoring helpers of xy_interpolation.py: `fitness`, the mean relative
  squared error of two frequency lists, and `find_frequencies`, which picks
  from a solver's frequency list the entries to compare against a target.
 */
module Fitness {
  import opened Outcomes

  /**
    A double-precision result where NumPy can produce special values:
    dividing by zero gives +inf (or NaN for 0/0), and the mean of an empty
    array is NaN. Rounding of finite values is not modelled.
   */
  datatype Float = Finite(v: real) | PosInf | NaN

  function FloatAdd(a: Float, b: Float): Float {
    match (a, b)
    case (Finite(x), Finite(y)) => Finite(x + y)
    case (NaN, _) => NaN
    case (_, NaN) => NaN
    case _ => PosInf
  }

  function Square(d: real): real {
    d * d
  }

  /** One term (ideal - actual)^2 / ideal of the sum: x / 0 is inf, and 0 / 0 is NaN. */
  function Term(ideal: real, actual: real): (t: Float)
    ensures ideal > 0.0 ==> t.Finite? && t.v >= 0.0 && (t.v == 0.0 <==> ideal == actual)
    ensures ideal == 0.0 ==> (t == NaN <==> actual == 0.0) && (t == PosInf <==> actual != 0.0)
  {
    var d := ideal - actual;
    if ideal != 0.0 then
      SquareOverPositive(d, ideal);
      Finite(Square(d) / ideal)
    else if d == 0.0 then NaN
    else PosInf
  }

  lemma ProductPositive(d: real)
    requires d != 0.0
    ensures d * d > 0.0
  {
  }

  lemma SquarePositive(d: real)
    requires d != 0.0
    ensures Square(d) > 0.0
  {
    calc {
      Square(d);
      d * d;
    > { ProductPositive(d); }
      0.0;
    }
  }

  lemma QuotientPositive(a: real, b: real)
    requires a > 0.0 && b > 0.0
    ensures a / b > 0.0
  {
  }

  lemma QuotientZero(a: real, b: real)
    requires a == 0.0 && b != 0.0
    ensures a / b == 0.0
  {
  }

  /** A square over a positive number is non-negative, and zero only for a zero base. */
  lemma SquareOverPositive(d: real, b: real)
    ensures b > 0.0 ==> Square(d) / b >= 0.0 && (Square(d) / b == 0.0 <==> d == 0.0)
  {
    if b > 0.0 && d != 0.0 {
      SquarePositive(d);
      QuotientPositive(Square(d), b);
    }
  }

  function SumTerms(ideal: seq<real>, actual: seq<real>): Float
    requires |ideal| == |actual|
  {
    if ideal == [] then Finite(0.0)
    else FloatAdd(Term(ideal[0], actual[0]), SumTerms(ideal[1..], actual[1..]))
  }

  /**
    `fitness(fq_ideal, fq_actual)`: the length assertion (its AssertionError
    is not the TypeError the handler catches, so it escapes), then
    `np.mean((ideal - actual)**2 / ideal)`. The division is by the FIRST
    argument.
   */
  function Fitness(ideal: seq<real>, actual: seq<real>): (r: Outcome<Float>)
    ensures r.Raised? <==> |ideal| != |actual|
    ensures r.Raised? ==> r.exn == AssertionError
  {
    if |ideal| != |actual| then Raised(AssertionError)
    else if |ideal| == 0 then Ok(NaN)
    else
      match SumTerms(ideal, actual)
      case Finite(s) => Ok(Finite(s / |ideal| as real))
      case special => Ok(special)
  }

  ghost predicate AllPositive(s: seq<real>) {
    forall i | 0 <= i < |s| :: s[i] > 0.0
  }

  /** Over positive ideal values the sum is finite, non-negative, and zero exactly on equal lists. */
  lemma {:induction false} SumTermsPositive(ideal: seq<real>, actual: seq<real>)
    requires |ideal| == |actual| && AllPositive(ideal)
    ensures SumTerms(ideal, actual).Finite?
    ensures SumTerms(ideal, actual).v >= 0.0
    ensures SumTerms(ideal, actual).v == 0.0 <==> ideal == actual
  {
    if ideal != [] {
      var ideal', actual' := ideal[1..], actual[1..];
      assert AllPositive(ideal') by {
        forall k | 0 <= k < |ideal'| ensures ideal'[k] > 0.0 {
          assert ideal'[k] == ideal[k + 1];
        }
      }
      SumTermsPositive(ideal', actual');
      var t, rest := Term(ideal[0], actual[0]), SumTerms(ideal', actual');
      assert SumTerms(ideal, actual) == FloatAdd(t, rest);
      assert SumTerms(ideal, actual) == Finite(t.v + rest.v);
      assert ideal == [ideal[0]] + ideal' && actual == [actual[0]] + actual';
    }
  }

  /**
    For matching lists with positive ideal values the score is a finite,
    non-negative number that is zero exactly when the lists are equal.
   */
  lemma FitnessZeroExactlyOnMatch(ideal: seq<real>, actual: seq<real>)
    requires |ideal| == |actual| > 0 && AllPositive(ideal)
    ensures Fitness(ideal, actual).Ok? && Fitness(ideal, actual).value.Finite?
    ensures Fitness(ideal, actual).value.v >= 0.0
    ensures Fitness(ideal, actual).value.v == 0.0 <==> ideal == actual
  {
    SumTermsPositive(ideal, actual);
    var s, n := SumTerms(ideal, actual).v, |ideal| as real;
    assert Fitness(ideal, actual) == Ok(Finite(s / n));
    if s > 0.0 {
      QuotientPositive(s, n);
    } else {
      QuotientZero(s, n);
    }
  }

  /** A finite sum of terms is averaged over the number of targets. */
  lemma FitnessOfFiniteSum(ideal: seq<real>, actual: seq<real>)
    requires |ideal| == |actual| > 0 && SumTerms(ideal, actual).Finite?
    ensures Fitness(ideal, actual) == Ok(Finite(SumTerms(ideal, actual).v / |ideal| as real))
  {
  }

  /** A zero ideal frequency makes the score infinite, or NaN if it is matched exactly. */
  lemma {:induction false} ZeroIdealIsSpecial(ideal: seq<real>, actual: seq<real>, i: nat)
    requires |ideal| == |actual| && i < |ideal| && ideal[i] == 0.0
    ensures !SumTerms(ideal, actual).Finite?
  {
    if i > 0 {
      ZeroIdealIsSpecial(ideal[1..], actual[1..], i - 1);
    }
  }

  /** The worked example: one target of 440 Hz against 220 Hz scores (440 - 220)^2 / 440 = 110. */
  lemma FitnessExample(ideal: seq<real>, actual: seq<real>)
    requires ideal == [440.0] && actual == [220.0]
    ensures Fitness(ideal, actual) == Ok(Finite(110.0))
  {
    assert SumTerms(ideal, actual) == Finite(110.0) by {
      TermExample();
      assert ideal[1..] == [] && actual[1..] == [];
    }
    FitnessOfSingle(ideal, actual);
  }

  lemma QuotientOne(a: real, b: real)
    requires b == 1.0
    ensures a / b == a
  {
  }

  /** With one target the score is that target's term. */
  lemma FitnessOfSingle(ideal: seq<real>, actual: seq<real>)
    requires |ideal| == |actual| == 1 && SumTerms(ideal, actual).Finite?
    ensures Fitness(ideal, actual) == Ok(SumTerms(ideal, actual))
  {
    FitnessOfFiniteSum(ideal, actual);
    QuotientOne(SumTerms(ideal, actual).v, |ideal| as real);
  }

  lemma TermExample()
    ensures Term(440.0, 220.0) == Finite(110.0)
  {
    assert Square(220.0) == 48400.0;
  }

  /** Two targets met exactly score zero. */
  lemma FitnessExampleExact()
    ensures Fitness([440.0, 880.0], [440.0, 880.0]) == Ok(Finite(0.0))
  {
    var two := [440.0, 880.0];
    assert AllPositive(two);
    FitnessZeroExactlyOnMatch(two, two);
  }

  // ---- find_frequencies ----

  /** `fq_tol`: the window extends 10 Hz beyond the lowest and highest target. */
  const Tolerance: real := 10.0

  /**
    The `for fq in fq_curr` loop of `find_frequencies`, continuing from a
    pool `out` holding `tot` in-window values: (A) a value strictly inside
    the window is kept and counted; (B) a value above the window is kept,
    uncounted, while fewer than `num` values were counted; (C) a value above
    the window ends the scan otherwise. Everything else, including a value
    exactly on the upper edge, is skipped.
   */
  function Window(curr: seq<real>, lo: real, hi: real, num: nat, out: seq<real>, tot: nat): seq<real>
    decreases |curr|
  {
    if curr == [] then out
    else
      var fq := curr[0];
      if lo < fq < hi then Window(curr[1..], lo, hi, num, out + [fq], tot + 1)
      else if tot < num && fq > hi then Window(curr[1..], lo, hi, num, out + [fq], tot)
      else if fq > hi then out
      else Window(curr[1..], lo, hi, num, out, tot)
  }

  /** `ceil(i * len / num)`: entry i of `np.ceil(np.linspace(0, len, num, endpoint=False))`. */
  function Index(i: nat, len: nat, num: nat): (k: nat)
    requires num >= 1
    ensures num * (k - 1) < i * len <= num * k
  {
    var k := (i * len + num - 1) / num;
    assert num * k <= i * len + num - 1 < num * k + num;
    k
  }

  /**
    `fq_out[indices]`: NumPy fancy indexing, IndexError as soon as one index
    is past the end.
   */
  function SubSample(pool: seq<real>, num: nat): Outcome<seq<real>>
    requires num >= 1
  {
    if forall i | 0 <= i < num :: Index(i, |pool|, num) < |pool| then
      Ok(seq(num, i requires 0 <= i < num => pool[Index(i, |pool|, num)]))
    else Raised(IndexError)
  }

  /**
    `find_frequencies(fq_curr, fq_trgt)`: `fq_trgt[0]` raises IndexError on
    an empty target; the window is (first target - 10, last target + 10).
   */
  function FindFrequenciesSpec(curr: seq<real>, target: seq<real>): Outcome<seq<real>> {
    if target == [] then Raised(IndexError)
    else
      var pool := Window(curr, target[0] - Tolerance, target[|target| - 1] + Tolerance, |target|, [], 0);
      SubSample(pool, |target|)
  }

  /** `find_frequencies` with its scanning loop and early `break`. */
  method FindFrequencies(curr: seq<real>, target: seq<real>) returns (r: Outcome<seq<real>>)
    ensures r == FindFrequenciesSpec(curr, target)
  {
    if target == [] {
      return Raised(IndexError);
    }
    var lo, hi, num := target[0] - Tolerance, target[|target| - 1] + Tolerance, |target|;
    var out: seq<real> := [];
    var tot: nat := 0;
    var i := 0;
    while i < |curr|
      invariant 0 <= i <= |curr|
      invariant Window(curr[i..], lo, hi, num, out, tot) == Window(curr, lo, hi, num, [], 0)
    {
      var fq := curr[i];
      assert curr[i..][1..] == curr[i + 1..];
      if lo < fq < hi {
        out := out + [fq];
        tot := tot + 1;
      } else if tot < num && fq > hi {
        out := out + [fq];
      } else if fq > hi {
        break;
      }
      i := i + 1;
    }
    r := SubSample(out, num);
  }

  // ---- properties of the window scan ----

  ghost predicate Pooled(x: real, src: seq<real>, lo: real, hi: real) {
    x in src && ((lo < x < hi) || x > hi)
  }

  /** Every pooled value comes from the input and is inside or above the window. */
  lemma {:induction false} WindowValues(curr: seq<real>, lo: real, hi: real, num: nat, out: seq<real>, tot: nat, src: seq<real>)
    requires forall x | x in curr :: x in src
    requires forall x | x in out :: Pooled(x, src, lo, hi)
    ensures forall x | x in Window(curr, lo, hi, num, out, tot) :: Pooled(x, src, lo, hi)
    decreases |curr|
  {
    if curr != [] {
      var fq := curr[0];
      assert forall x | x in curr[1..] :: x in curr;
      if (lo < fq < hi) || (tot < num && fq > hi) {
        assert Pooled(fq, src, lo, hi);
        assert forall x | x in out + [fq] :: x in out || x == fq;
        if lo < fq < hi {
          WindowValues(curr[1..], lo, hi, num, out + [fq], tot + 1, src);
        } else {
          WindowValues(curr[1..], lo, hi, num, out + [fq], tot, src);
        }
      } else if fq <= hi {
        WindowValues(curr[1..], lo, hi, num, out, tot, src);
      }
    }
  }

  /** When every value lies strictly inside the window the pool is the input itself. */
  lemma {:induction false} WindowKeepsInsideValues(curr: seq<real>, lo: real, hi: real, num: nat, out: seq<real>, tot: nat)
    requires forall i | 0 <= i < |curr| :: lo < curr[i] < hi
    ensures Window(curr, lo, hi, num, out, tot) == out + curr
    decreases |curr|
  {
    if curr != [] {
      WindowKeepsInsideValues(curr[1..], lo, hi, num, out + [curr[0]], tot + 1);
      assert (out + [curr[0]]) + curr[1..] == out + curr;
    }
  }

  ghost predicate Sorted(s: seq<real>) {
    forall i, j | 0 <= i < j < |s| :: s[i] <= s[j]
  }

  /** The pool keeps the input's order: a sorted spectrum gives a sorted pool. */
  lemma {:induction false} WindowSorted(curr: seq<real>, lo: real, hi: real, num: nat, out: seq<real>, tot: nat)
    requires Sorted(curr) && Sorted(out)
    requires forall i, j | 0 <= i < |out| && 0 <= j < |curr| :: out[i] <= curr[j]
    ensures Sorted(Window(curr, lo, hi, num, out, tot))
    decreases |curr|
  {
    if curr != [] {
      var out' := out + [curr[0]];
      assert Sorted(out');
      assert forall i, j | 0 <= i < |out'| && 0 <= j < |curr[1..]| :: out'[i] <= curr[1..][j] by {
        forall i, j | 0 <= i < |out'| && 0 <= j < |curr[1..]|
          ensures out'[i] <= curr[1..][j]
        {
          assert curr[1..][j] == curr[j + 1];
          if i < |out| { assert out'[i] == out[i]; } else { assert out'[i] == curr[0]; }
        }
      }
      assert forall i, j | 0 <= i < |out| && 0 <= j < |curr[1..]| :: out[i] <= curr[1..][j] by {
        forall i, j | 0 <= i < |out| && 0 <= j < |curr[1..]|
          ensures out[i] <= curr[1..][j]
        {
          assert curr[1..][j] == curr[j + 1];
        }
      }
      WindowSorted(curr[1..], lo, hi, num, out', tot + 1);
      WindowSorted(curr[1..], lo, hi, num, out', tot);
      WindowSorted(curr[1..], lo, hi, num, out, tot);
    }
  }

  // ---- properties of the index selection ----

  lemma MulCancel(n: int, a: int, b: int)
    requires n >= 1 && n * a < n * b
    ensures a < b
  {
  }

  /** With at least `num` pooled values the indices climb strictly from 0. */
  lemma IndexStrictlyIncreasing(i: nat, len: nat, num: nat)
    requires 1 <= num <= len
    ensures Index(i, len, num) < Index(i + 1, len, num)
  {
    var a, b := Index(i, len, num), Index(i + 1, len, num);
    assert (i + 1) * len == i * len + len;
    MulCancel(num, a as int - 1, b);
    assert num * (a as int - 1) + num == num * a;
  }

  /** The last index is in range exactly when there are at least `num` pooled values. */
  lemma LastIndexInRange(len: nat, num: nat)
    requires num >= 1
    ensures Index(num - 1, len, num) < len <==> len >= num
  {
    var k: int := Index(num - 1, len, num);
    var n, l := num as int, len as int;
    assert (n - 1) * l == n * l - l;
    assert n * (l - 1) == n * l - n;
    if len >= num {
      assert n * (k - 1) < n * (l - 1);
      MulCancel(n, k - 1, l - 1);
    } else {
      assert n * (l - 1) < n * k;
      MulCancel(n, l - 1, k);
    }
  }

  lemma IndexMonotone(i: nat, j: nat, len: nat, num: nat)
    requires 1 <= num <= len && i <= j
    ensures Index(i, len, num) <= Index(j, len, num)
    decreases j - i
  {
    if i < j {
      IndexStrictlyIncreasing(i, len, num);
      IndexMonotone(i + 1, j, len, num);
    }
  }

  /**
    The selection fails with IndexError exactly when fewer values than
    targets were pooled; otherwise it returns one value per target, taken
    at strictly increasing positions of the pool, starting with the first.
   */
  lemma SubSampleDecides(pool: seq<real>, num: nat)
    requires num >= 1
    ensures SubSample(pool, num).Ok? <==> |pool| >= num
    ensures SubSample(pool, num).Ok? ==>
              var r := SubSample(pool, num).value;
              |r| == num && r[0] == pool[0] &&
              forall i | 0 <= i < num - 1 :: Index(i, |pool|, num) < Index(i + 1, |pool|, num)
  {
    LastIndexInRange(|pool|, num);
    if |pool| >= num {
      IndicesInRange(|pool|, num);
      IndicesIncreasing(|pool|, num);
      IndexZero(|pool|, num);
    }
  }

  lemma IndexZero(len: nat, num: nat)
    requires num >= 1
    ensures Index(0, len, num) == 0
  {
    assert 0 * len + num - 1 == num - 1;
    assert (num - 1) / num == 0;
  }

  lemma IndicesInRange(len: nat, num: nat)
    requires 1 <= num <= len
    ensures forall i | 0 <= i < num :: Index(i, len, num) < len
  {
    LastIndexInRange(len, num);
    forall i | 0 <= i < num
      ensures Index(i, len, num) < len
    {
      IndexMonotone(i, num - 1, len, num);
    }
  }

  lemma IndicesIncreasing(len: nat, num: nat)
    requires 1 <= num <= len
    ensures forall i | 0 <= i < num - 1 :: Index(i, len, num) < Index(i + 1, len, num)
  {
    forall i | 0 <= i < num - 1
      ensures Index(i, len, num) < Index(i + 1, len, num)
    {
      IndexStrictlyIncreasing(i, len, num);
    }
  }

  /**
    `find_frequencies` on a sorted spectrum returns, when it succeeds, one
    sorted value per target, each from the spectrum and inside or above the
    window.
   */
  lemma FindFrequenciesSelects(curr: seq<real>, target: seq<real>)
    requires Sorted(curr)
    ensures var r := FindFrequenciesSpec(curr, target);
            r.Ok? ==>
              && |r.value| == |target|
              && Sorted(r.value)
              && forall x | x in r.value ::
                   x in curr && (target[0] - Tolerance < x < target[|target| - 1] + Tolerance ||
                                 x > target[|target| - 1] + Tolerance)
  {
    var r := FindFrequenciesSpec(curr, target);
    if r.Ok? {
      var lo, hi, num := target[0] - Tolerance, target[|target| - 1] + Tolerance, |target|;
      var pool := Window(curr, lo, hi, num, [], 0);
      WindowValues(curr, lo, hi, num, [], 0, curr);
      WindowSorted(curr, lo, hi, num, [], 0);
      SubSampleDecides(pool, num);
      var v := r.value;
      forall i, j | 0 <= i < j < |v|
        ensures v[i] <= v[j]
      {
        IndexMonotone(i, j, |pool|, num);
      }
      forall x | x in v
        ensures x in pool
      {
        var i :| 0 <= i < |v| && v[i] == x;
      }
    }
  }
}
