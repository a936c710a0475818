/**
  optimize/notes.py: the `Note` record a solver frequency becomes (octave,
  name and cents derived from a midi value), its text renderings, the
  octave-harmonic search and the helpers `find_gcf` and `find_min_mode`.

  `Note` is a class: notes are compared and used as dictionary keys by
  identity, as Python does for objects without `__eq__`. Its fields are
  set once, in the constructor. `math.log2` and `2 ** x` are parameters;
  2π is the double `2 * math.pi` written as a decimal.
 */
module Notes {
  import opened Outcomes
  import opened PyNum
  import opened PyStr

  // ---- find_gcf ----

  /** `find_gcf(f1, f2)` on integers: Euclid's algorithm with Python's `%`. */
  function FindGcf(f1: int, f2: int): int
    decreases Abs(f2)
  {
    if f2 == 0 then f1 else FindGcf(f2, Mod(f1, f2))
  }

  /** d divides n (only 0 is divisible by 0). */
  predicate Divides(d: nat, n: nat) {
    if d == 0 then n == 0 else n % d == 0
  }

  /** Euclidean division has one quotient and one remainder. */
  lemma DivModUnique(n: int, d: int, q: int, r: int)
    requires d > 0 && 0 <= r < d && n == d * q + r
    ensures n / d == q && n % d == r
  {
    var q', r' := n / d, n % d;
    assert d * (q - q') == r' - r;
    if q > q' {
      MulAtLeast(d, q - q');
    } else if q < q' {
      MulAtLeast(d, q' - q);
    }
  }

  lemma MulAtLeast(d: int, k: int)
    requires d > 0 && k >= 1
    ensures d * k >= d
  {
  }

  /** A multiple of d added to x does not change x's remainder. */
  lemma ModAddMultiple(x: int, k: int, d: int)
    requires d > 0
    ensures (d * k + x) % d == x % d
  {
    DivModUnique(d * k + x, d, k + x / d, x % d);
  }

  /** When d divides b, d divides a exactly when it divides a % b. */
  lemma DividesThroughMod(a: nat, b: nat, d: nat)
    requires b > 0 && d > 0 && b % d == 0
    ensures a % d == 0 <==> (a % b) % d == 0
  {
    var q, m := a / b, b / d;
    assert a == b * q + a % b;
    assert b == d * m;
    assert a == d * (m * q) + a % b;
    ModAddMultiple(a % b, m * q, d);
  }

  /**
    On naturals `find_gcf` is the greatest common divisor: it divides both
    arguments and every common divisor divides it.
   */
  lemma {:induction false} FindGcfIsGcd(a: nat, b: nat)
    ensures FindGcf(a, b) >= 0
    ensures Divides(FindGcf(a, b) as nat, a) && Divides(FindGcf(a, b) as nat, b)
    ensures forall d: nat | Divides(d, a) && Divides(d, b) :: Divides(d, FindGcf(a, b) as nat)
    ensures a != 0 || b != 0 ==> FindGcf(a, b) > 0
    decreases b
  {
    if b != 0 {
      var r := a % b;
      assert Mod(a, b) == r;
      FindGcfIsGcd(b, r);
      var g := FindGcf(b, r);
      assert g > 0;
      DividesThroughMod(a, b, g);
      forall d: nat | Divides(d, a) && Divides(d, b)
        ensures Divides(d, g)
      {
        if d > 0 {
          DividesThroughMod(a, b, d);
        }
      }
    }
  }

  // ---- find_min_mode ----

  /** How often x occurs in s. */
  function Count(s: seq<real>, x: real): nat {
    multiset(s)[x]
  }

  /** The distinct values of s in order of first appearance: the key order of a counting dict. */
  function Dedup(s: seq<real>): seq<real>
    decreases |s|
  {
    if s == [] then []
    else
      var d := Dedup(s[..|s| - 1]);
      if s[|s| - 1] in d then d else d + [s[|s| - 1]]
  }

  /** The keys are the values of s. */
  lemma {:induction false} DedupMembers(s: seq<real>)
    ensures forall x :: x in Dedup(s) <==> x in s
    decreases |s|
  {
    if s != [] {
      DedupMembers(s[..|s| - 1]);
      assert s == s[..|s| - 1] + [s[|s| - 1]];
    }
  }

  /** Appending a value adds it to the keys unless it is already one. */
  lemma DedupSnoc(s: seq<real>, f: real)
    ensures Dedup(s + [f]) == if f in Dedup(s) then Dedup(s) else Dedup(s) + [f]
  {
    assert (s + [f])[..|s|] == s;
  }

  /** The counting dict `find_min_mode` fills: value to number of occurrences. */
  function Counts(s: seq<real>): map<real, nat>
    decreases |s|
  {
    if s == [] then map[]
    else
      var c := Counts(s[..|s| - 1]);
      var f := s[|s| - 1];
      c[f := if f in c then c[f] + 1 else 1]
  }

  /** Counting one more value. */
  lemma CountsSnoc(s: seq<real>, f: real)
    ensures Counts(s + [f]) == Counts(s)[f := if f in Counts(s) then Counts(s)[f] + 1 else 1]
  {
    assert (s + [f])[..|s|] == s;
  }

  /** The dict holds exactly the values of s, each with its number of occurrences. */
  lemma {:induction false} CountsMeaning(s: seq<real>)
    ensures forall k :: k in Counts(s) <==> k in s
    ensures forall k | k in Counts(s) :: Counts(s)[k] == Count(s, k)
    decreases |s|
  {
    if s != [] {
      var p := s[..|s| - 1];
      CountsMeaning(p);
      assert s == p + [s[|s| - 1]];
    }
  }

  /** The dict and the key list agree on what has been seen. */
  lemma CountsKeys(s: seq<real>, f: real)
    ensures f in Counts(s) <==> f in Dedup(s)
  {
    CountsMeaning(s);
    DedupMembers(s);
  }

  /** A key's entry is its number of occurrences. */
  lemma CountOfKey(s: seq<real>, k: real)
    requires k in Dedup(s)
    ensures k in Counts(s) && Counts(s)[k] == Count(s, k)
  {
    CountsMeaning(s);
    DedupMembers(s);
  }

  /** The keys that survive into `modes2`: non-zero and counted more than once in s. */
  function Repeated(keys: seq<real>, s: seq<real>): seq<real>
    decreases |keys|
  {
    if keys == [] then []
    else
      var k := keys[|keys| - 1];
      var rest := Repeated(keys[..|keys| - 1], s);
      if k != 0.0 && Count(s, k) > 1 then rest + [k] else rest
  }

  /** A key survives exactly when it is non-zero and repeated. */
  lemma {:induction false} RepeatedMembers(keys: seq<real>, s: seq<real>)
    ensures forall x :: x in Repeated(keys, s) <==> x in keys && x != 0.0 && Count(s, x) > 1
    decreases |keys|
  {
    if keys != [] {
      RepeatedMembers(keys[..|keys| - 1], s);
      assert keys == keys[..|keys| - 1] + [keys[|keys| - 1]];
    }
  }

  /** `min(keys)`. */
  function MinOf(ks: seq<real>): (m: real)
    requires |ks| >= 1
    ensures m in ks && forall x | x in ks :: m <= x
    decreases |ks|
  {
    if |ks| == 1 then ks[0]
    else
      assert ks == ks[..|ks| - 1] + [ks[|ks| - 1]];
      var m := MinOf(ks[..|ks| - 1]);
      if ks[|ks| - 1] < m then ks[|ks| - 1] else m
  }

  /** `max(t, key=s.count)` scanning t from the left: a later value wins only with a larger count. */
  function MostFrequent(t: seq<real>, s: seq<real>): (m: real)
    requires |t| >= 1
    ensures m in t && forall x | x in t :: Count(s, x) <= Count(s, m)
    decreases |t|
  {
    if |t| == 1 then t[0]
    else
      assert t == t[..|t| - 1] + [t[|t| - 1]];
      var b := MostFrequent(t[..|t| - 1], s);
      if Count(s, t[|t| - 1]) > Count(s, b) then t[|t| - 1] else b
  }

  /** Among the most frequent values `max` returns the earliest. */
  lemma {:induction false} MostFrequentIsEarliest(t: seq<real>, s: seq<real>)
    requires |t| >= 1
    ensures exists i | 0 <= i < |t| ::
              t[i] == MostFrequent(t, s) && forall j | 0 <= j < i :: Count(s, t[j]) < Count(s, t[i])
    decreases |t|
  {
    if |t| == 1 {
      assert t[0] == MostFrequent(t, s);
    } else {
      var p := t[..|t| - 1];
      var b := MostFrequent(p, s);
      MostFrequentIsEarliest(p, s);
      var i :| 0 <= i < |p| && p[i] == b && forall j | 0 <= j < i :: Count(s, p[j]) < Count(s, p[i]);
      assert p == t[..|t| - 1];
      if Count(s, t[|t| - 1]) > Count(s, b) {
        assert MostFrequent(t, s) == t[|t| - 1];
        forall j | 0 <= j < |t| - 1
          ensures Count(s, t[j]) < Count(s, t[|t| - 1])
        {
          assert t[j] == p[j] && p[j] in p;
        }
      } else {
        assert MostFrequent(t, s) == b;
        assert t[i] == p[i];
        assert forall j | 0 <= j < i :: t[j] == p[j];
      }
    }
  }

  /** What `find_min_mode(freqs)` returns (ValueError from `max` of an empty list). */
  function MinMode(freqs: seq<real>): Outcome<real> {
    var rep := Repeated(Dedup(freqs), freqs);
    if |rep| == 1 then Ok(rep[0])
    else if |rep| == 0 then (if freqs == [] then Raised(ValueError) else Ok(MostFrequent(freqs, freqs)))
    else Ok(MinOf(rep))
  }

  /**
    `find_min_mode`: the smallest non-zero value that occurs more than once
    (the only one, when there is just one); when there is none, the most
    frequent value, earliest on ties; an empty list raises.
   */
  lemma MinModeMeaning(freqs: seq<real>)
    ensures MinMode(freqs).Raised? <==> freqs == []
    ensures MinMode(freqs).Raised? ==> MinMode(freqs).exn == ValueError
    ensures MinMode(freqs).Ok? ==>
              var r := MinMode(freqs).value;
              && r in freqs
              && ((exists k | k in freqs :: k != 0.0 && Count(freqs, k) > 1) ==>
                    && r != 0.0 && Count(freqs, r) > 1
                    && forall k | k in freqs && k != 0.0 && Count(freqs, k) > 1 :: r <= k)
              && ((forall k | k in freqs :: k == 0.0 || Count(freqs, k) <= 1) ==>
                    && (forall x | x in freqs :: Count(freqs, x) <= Count(freqs, r))
                    && exists i | 0 <= i < |freqs| ::
                         freqs[i] == r && forall j | 0 <= j < i :: Count(freqs, freqs[j]) < Count(freqs, r))
  {
    var rep := Repeated(Dedup(freqs), freqs);
    DedupMembers(freqs);
    RepeatedMembers(Dedup(freqs), freqs);
    if |rep| == 1 {
      assert forall k | k in rep :: k == rep[0];
    } else if |rep| == 0 {
      if freqs != [] {
        MostFrequentIsEarliest(freqs, freqs);
      }
    }
  }

  /**
    `find_min_mode(freqs)`: counts every value into a dict, keeps the
    non-zero keys counted more than once, then picks as the source does.
   */
  method FindMinMode(freqs: seq<real>) returns (r: Outcome<real>)
    ensures r == MinMode(freqs)
  {
    var modes: map<real, nat> := map[];
    var keys: seq<real> := [];
    for i := 0 to |freqs|
      invariant keys == Dedup(freqs[..i])
      invariant modes == Counts(freqs[..i])
    {
      var f := freqs[i];
      assert freqs[..i + 1] == freqs[..i] + [f];
      DedupSnoc(freqs[..i], f);
      CountsSnoc(freqs[..i], f);
      CountsKeys(freqs[..i], f);
      if f in modes {
        modes := modes[f := modes[f] + 1];
      } else {
        modes := modes[f := 1];
        keys := keys + [f];
      }
    }
    assert freqs[..|freqs|] == freqs;
    var modes2: seq<real> := [];
    for j := 0 to |keys|
      invariant modes2 == Repeated(keys[..j], freqs)
    {
      var k := keys[j];
      assert keys[..j + 1][..j] == keys[..j];
      CountOfKey(freqs, k);
      if k != 0.0 && modes[k] > 1 {
        modes2 := modes2 + [k];
      }
    }
    assert keys[..|keys|] == keys;
    if |modes2| == 1 {
      return Ok(modes2[0]);
    } else if |modes2| == 0 {
      if freqs == [] {
        return Raised(ValueError);
      }
      return Ok(MostFrequent(freqs, freqs));
    }
    return Ok(MinOf(modes2));
  }

  // ---- pitch ----

  /** `Note.midi_note`: the names of the twelve pitch classes from C. */
  const MidiNote: seq<string> := ["C", "Db", "D", "Eb", "E", "F", "Gb", "G", "Ab", "A", "Bb", "B"]

  /** `Note.EPS`: angular frequencies below it count as zero. */
  const Eps: real := 0.1

  /** `Note.f_fac`, the experimentally obtained conversion factor. */
  const FFac: real := 39.478843774402250

  /** `2 * math.pi` as a double. */
  const TwoPi: real := 6.283185307179586

  function RealAbs(x: real): real {
    if x < 0.0 then -x else x
  }

  /** `m2o(midi)`: `int(midi // 12 + 1 - 2)`, the octave whose C lies at or below midi. */
  function M2O(midi: real): (o: int)
    ensures 12.0 * (o + 1) as real <= midi < 12.0 * (o + 2) as real
  {
    (midi / 12.0).Floor - 1
  }

  /** `m2n(midi)`: the name of the nearest semitone. */
  function M2N(midi: real): (name: string)
    ensures name in MidiNote
  {
    MidiNote[RoundHalfEven(midi) % 12]
  }

  /** The nearest integer, ties to even, is the only integer with that property. */
  lemma RoundUnique(x: real, n: int)
    requires n as real - 0.5 <= x <= n as real + 0.5
    requires x == n as real - 0.5 || x == n as real + 0.5 ==> n % 2 == 0
    ensures RoundHalfEven(x) == n
  {
  }

  /** Rounding commutes with an even shift. */
  lemma RoundShiftEven(x: real, k: int)
    requires k % 2 == 0
    ensures RoundHalfEven(x + k as real) == RoundHalfEven(x) + k
  {
    RoundUnique(x + k as real, RoundHalfEven(x) + k);
  }

  /** Rounding is symmetric about zero. */
  lemma RoundNegate(x: real)
    ensures RoundHalfEven(-x) == -RoundHalfEven(x)
  {
    RoundUnique(-x, -RoundHalfEven(x));
  }

  /** A pitch an octave up has the same name. */
  lemma M2NOctave(midi: real)
    ensures M2N(midi + 12.0) == M2N(midi)
  {
    var n := RoundHalfEven(midi);
    RoundShiftEven(midi, 12);
    assert RoundHalfEven(midi + 12.0) == n + 12;
    assert (n + 12) % 12 == n % 12;
  }

  /**
    (octave, pitch class, cents) as `m2o`, `m2n` and `m2c` leave them: the
    cents are negated, and a C reached by rounding up moves to the next
    octave, when `c + floor(midi) < midi`.
   */
  function PitchAsWritten(midi: real): (int, int, real) {
    var n := RoundHalfEven(midi);
    var c := RealAbs(midi - n as real);
    if c + midi.Floor as real < midi then
      (if n > midi.Floor && n % 12 == 0 then M2O(midi + 1.0) else M2O(midi), n % 12, 100.0 * -c)
    else (M2O(midi), n % 12, 100.0 * c)
  }

  /** The same with the sign decided by whether rounding went up (`round(midi) > midi`). */
  function Pitch(midi: real): (int, int, real) {
    var n := RoundHalfEven(midi);
    var c := RealAbs(midi - n as real);
    if n as real > midi then
      (if n > midi.Floor && n % 12 == 0 then M2O(midi + 1.0) else M2O(midi), n % 12, 100.0 * -c)
    else (M2O(midi), n % 12, 100.0 * c)
  }

  lemma OctaveOf(x: real, j: int)
    requires 12.0 * j as real <= x < 12.0 * (j + 1) as real
    ensures M2O(x) == j - 1
  {
  }

  /**
    A pitch reads back as its midi value: octave, pitch class and cents
    put together give midi again, the cents stay within half a semitone,
    and the pitch class is the rounded midi value's.
   */
  lemma PitchRoundTrip(midi: real)
    ensures var p := Pitch(midi);
            && 0 <= p.1 < 12 && p.1 == RoundHalfEven(midi) % 12
            && -50.0 <= p.2 <= 50.0
            && 12.0 * (p.0 + 1) as real + p.1 as real + p.2 / 100.0 == midi
  {
    var n := RoundHalfEven(midi);
    var j, r := n / 12, n % 12;
    assert n == 12 * j + r;
    if n as real > midi {
      assert n > midi.Floor;
      if r == 0 {
        OctaveOf(midi + 1.0, j);
      } else {
        OctaveOf(midi, j);
      }
    } else {
      OctaveOf(midi, j);
    }
  }

  /** Away from the exact half-semitone the source's sign test agrees with the intended one. */
  lemma PitchAsWrittenOffTie(midi: real)
    requires midi - midi.Floor as real != 0.5
    ensures PitchAsWritten(midi) == Pitch(midi)
  {
  }

  /**
    At midi 59.5 (between B3 and C4) the source rounds to C, keeps +50
    cents and octave 3: it names C3 + 50, an octave low; the intended
    reading is C4 - 50.
   */
  lemma PitchAsWrittenTie()
    ensures PitchAsWritten(59.5) == (3, 0, 50.0)
    ensures 12.0 * (3 + 1) as real + 0.0 + 50.0 / 100.0 != 59.5
    ensures Pitch(59.5) == (4, 0, -50.0)
  {
    assert (59.5).Floor == 59;
    assert RoundHalfEven(59.5) == 60;
    assert (59.5 / 12.0).Floor == 4;
    assert (60.5 / 12.0).Floor == 5;
  }

  /** `self.note`: a name from `midi_note`, or the integer 0 of a zero note. */
  datatype Label = Name(s: string) | NoName

  /** The parts of `math` the constructor needs beyond arithmetic: `math.log2` and `2 ** x`. */
  datatype Transcendental = Transcendental(log2: real -> real, exp2: real -> real)

  /** `r2f(radian)`: 2πr, zeroed below EPS, over the conversion factor. */
  function R2F(rad: real): real {
    var frq := TwoPi * rad;
    (if frq < Eps then 0.0 else frq) / FFac
  }

  /** `f2r(frequency)`. */
  function F2R(f: real): real {
    f * FFac / TwoPi
  }

  /** `f2m(frequency)`: `math.log2` of a non-positive ratio raises ValueError. */
  function F2M(f: real, t: Transcendental): Outcome<real> {
    if f / 440.0 <= 0.0 then Raised(ValueError) else Ok(12.0 * t.log2(f / 440.0) + 69.0)
  }

  /**
    An angular frequency the last mode accepts converts to a frequency and
    back to itself, so mode 1 on `r2f(rads)` and the last mode on `rads`
    agree on rads and freq.
   */
  lemma AngularRoundTrip(rad: real)
    requires TwoPi * rad >= Eps
    ensures R2F(rad) > 0.0 && F2R(R2F(rad)) == rad
  {
    var frq := TwoPi * rad;
    assert R2F(rad) == frq / FFac;
    assert F2R(frq / FFac) == (frq / FFac) * FFac / TwoPi;
  }

  /** `m2f(midi)`. */
  function M2F(m: real, t: Transcendental): real {
    440.0 * t.exp2((m - 69.0) / 12.0)
  }

  class Note {
    const rads: real
    const freq: real
    const midi: real
    const octv: int
    const note: Label
    const cent: real

    /** `Note(0)`: a falsy frequency leaves all six fields 0, the name too. */
    constructor Zero()
      ensures rads == 0.0 && freq == 0.0 && midi == 0.0 && octv == 0 && note == NoName && cent == 0.0
    {
      rads := 0.0;
      freq := 0.0;
      midi := 0.0;
      octv := 0;
      note := NoName;
      cent := 0.0;
    }

    /** A non-zero note: octave, name and cents from the midi value. */
    constructor FromMidi(r: real, f: real, m: real)
      ensures rads == r && freq == f && midi == m
      ensures octv == Pitch(m).0 && note == Name(MidiNote[Pitch(m).1]) && cent == Pitch(m).2
    {
      var p := Pitch(m);
      PitchRoundTrip(m);
      rads := r;
      freq := f;
      midi := m;
      octv := p.0;
      note := Name(MidiNote[p.1]);
      cent := p.2;
    }
  }

  /**
    `Note(frequency, mode)`: zero for a falsy frequency; mode 1 takes a
    frequency, mode 2 a midi value, any other mode an angular frequency.
    A frequency that is negative, or an angular one below EPS / 2π, makes
    `math.log2` raise ValueError.
   */
  method NewNote(frequency: real, mode: int, t: Transcendental) returns (r: Outcome<Note>)
    ensures frequency == 0.0 ==>
              r.Ok? && r.value.rads == 0.0 && r.value.freq == 0.0 && r.value.midi == 0.0 &&
              r.value.octv == 0 && r.value.note.NoName? && r.value.cent == 0.0
    ensures frequency != 0.0 && mode == 1 ==> (r.Raised? <==> frequency < 0.0)
    ensures frequency != 0.0 && mode == 1 && r.Ok? ==>
              r.value.freq == frequency && r.value.rads == F2R(frequency) &&
              F2M(frequency, t).Ok? && r.value.midi == F2M(frequency, t).value
    ensures frequency != 0.0 && mode == 2 ==>
              r.Ok? && r.value.midi == frequency &&
              r.value.freq == M2F(frequency, t) && r.value.rads == F2R(M2F(frequency, t))
    ensures frequency != 0.0 && mode != 1 && mode != 2 ==> (r.Raised? <==> TwoPi * frequency < Eps)
    ensures frequency != 0.0 && mode != 1 && mode != 2 && r.Ok? ==>
              r.value.rads == frequency && r.value.freq == R2F(frequency) &&
              F2M(R2F(frequency), t).Ok? && r.value.midi == F2M(R2F(frequency), t).value
    ensures r.Raised? ==> r.exn == ValueError
    ensures r.Ok? ==> fresh(r.value)
    ensures r.Ok? && frequency != 0.0 ==>
              r.value.octv == Pitch(r.value.midi).0 && r.value.note == Name(MidiNote[Pitch(r.value.midi).1]) &&
              r.value.cent == Pitch(r.value.midi).2
  {
    if frequency == 0.0 {
      var n := new Note.Zero();
      return Ok(n);
    }
    if mode == 1 {
      var m := F2M(frequency, t);
      if m.Raised? {
        return Raised(m.exn);
      }
      var n := new Note.FromMidi(F2R(frequency), frequency, m.value);
      return Ok(n);
    } else if mode == 2 {
      var f := M2F(frequency, t);
      var n := new Note.FromMidi(F2R(f), f, frequency);
      return Ok(n);
    }
    var f := R2F(frequency);
    var m := F2M(f, t);
    if m.Raised? {
      return Raised(m.exn);
    }
    var n := new Note.FromMidi(frequency, f, m.value);
    return Ok(n);
  }

  // ---- notation ----

  /** `str(self.note)`. */
  function LabelText(l: Label): string {
    match l
    case Name(s) => s
    case NoName => "0"
  }

  /** `str(self.note) + str(self.octv)`. */
  function NameOctave(n: Note): string {
    LabelText(n.note) + IntToString(n.octv)
  }

  /** The cents part of `notation()`. */
  function CentsText(cent: real): string {
    if RoundHalfEven(cent) == 0 then ""
    else
      (if cent < 0.0 then " - " + IntToString(RoundHalfEven(RealAbs(cent)))
       else " + " + IntToString(RoundHalfEven(cent)))
      + (if RealAbs(cent) > 1.0 then " cents" else " cent")
  }

  /** `notation()`. */
  function Notation(n: Note): string {
    NameOctave(n) + CentsText(n.cent)
  }

  /**
    The cents part shows the rounded cents: nothing when they round to 0,
    otherwise " - " or " + " by their sign and then their magnitude in
    digits, which read back as that magnitude.
   */
  lemma CentsTextShowsRoundedCents(cent: real)
    ensures var k := RoundHalfEven(cent);
            && (CentsText(cent) == "" <==> k == 0)
            && (k != 0 ==>
                  CentsText(cent) == (if k < 0 then " - " else " + ") + NatToString(Abs(k)) +
                                     (if RealAbs(cent) > 1.0 then " cents" else " cent"))
            && ParseNat(NatToString(Abs(k))) == Abs(k)
  {
    RoundNegate(cent);
    ParseNatToString(Abs(RoundHalfEven(cent)));
  }

  // ---- get_lily ----

  /** LilyPond's pitch: a two-letter name (a flat) becomes its lower-case letter and "es". */
  function LilyPitch(name: string): string {
    if |name| > 1 then [LowerChar(name[0])] + "es" else Lower(name)
  }

  /** The octave marks: (octv - 3) apostrophes from octave 4 up, (3 - octv) commas below. */
  function OctaveMarks(octv: int): string {
    if octv >= 4 then RepeatChar('\'', octv - 3) else RepeatChar(',', 3 - octv)
  }

  /** The octave a run of LilyPond marks stands for, relative to octave 3. */
  function MarksOctave(marks: string): int {
    if |marks| > 0 && marks[0] == '\'' then 3 + |marks| else 3 - |marks|
  }

  /** The marks read back as the octave they were written for. */
  lemma OctaveMarksRoundTrip(octv: int)
    ensures MarksOctave(OctaveMarks(octv)) == octv
  {
  }

  /** The twelve pitch names stay twelve different LilyPond names. */
  lemma LilyPitchesDistinct()
    ensures forall i, j | 0 <= i < 12 && 0 <= j < 12 && i != j :: LilyPitch(MidiNote[i]) != LilyPitch(MidiNote[j])
  {
    // first letter and length tell the LilyPond names apart
    var code := [('c', 1), ('d', 3), ('d', 1), ('e', 3), ('e', 1), ('f', 1),
                 ('g', 3), ('g', 1), ('a', 3), ('a', 1), ('b', 3), ('b', 1)];
    forall i | 0 <= i < 12
      ensures |LilyPitch(MidiNote[i])| == code[i].1 && LilyPitch(MidiNote[i])[0] == code[i].0
    {
    }
  }

  /** The cents markup: above the note for int(cent) > 0, below for int(cent) < 0. */
  function Markup(cent: real): string {
    var t := Trunc(cent);
    if t > 0 then "^\\markup { " + IntToString(RoundHalfEven(cent)) + " }"
    else if t < 0 then "_\\markup { " + IntToString(RoundHalfEven(cent)) + " }"
    else ""
  }

  /** A markup appears exactly for a whole cent or more either way, on the side of its sign. */
  lemma MarkupPlacement(cent: real)
    ensures Markup(cent) == "" <==> -1.0 < cent < 1.0
    ensures cent >= 1.0 ==> Markup(cent)[0] == '^'
    ensures cent <= -1.0 ==> Markup(cent)[0] == '_'
  {
  }

  /** The pieces `get_lily` appends with `+=`, in order. */
  datatype Piece = PitchPiece(name: string) | MarksPiece(octv: int) | ModePiece(mode: int) | MarkupPiece(cent: real)

  function PieceText(p: Piece): string {
    match p
    case PitchPiece(name) => LilyPitch(name)
    case MarksPiece(octv) => OctaveMarks(octv)
    case ModePiece(mode) => if mode != 0 then IntToString(mode) else ""
    case MarkupPiece(cent) => Markup(cent)
  }

  /** The pieces' texts one after another. */
  function Render(ps: seq<Piece>): string {
    if ps == [] then "" else PieceText(ps[0]) + Render(ps[1..])
  }

  /** The text `get_lily(mode)` builds for a named note. */
  function LilyText(name: string, octv: int, mode: int, cent: real): string {
    Render([PitchPiece(name), MarksPiece(octv), ModePiece(mode), MarkupPiece(cent)])
  }

  /**
    `get_lily(mode)`: pitch, octave marks, the mode when non-zero, the
    cents markup; a zero note has no name to measure and raises TypeError.
   */
  function GetLily(n: Note, mode: int): (r: Outcome<string>)
    ensures r.Raised? <==> n.note.NoName?
    ensures r.Raised? ==> r.exn == TypeError
    ensures r.Ok? ==> r.value == LilyText(n.note.s, n.octv, mode, n.cent)
  {
    match n.note
    case NoName => Raised(TypeError)
    case Name(s) => Ok(LilyText(s, n.octv, mode, n.cent))
  }

  // ---- harmonics ----

  /** `abs(cent/100) < tolerance`. */
  predicate InTune(n: Note, tolerance: real) {
    RealAbs(n.cent / 100.0) < tolerance
  }

  /** `find_scale_haromonics`: the other in-tune notes of the same name, in list order. */
  function ScaleHarmonics(n: Note, notes: seq<Note>, tolerance: real): seq<Note>
    decreases |notes|
  {
    if !InTune(n, tolerance) || notes == [] then []
    else
      var x := notes[|notes| - 1];
      var rest := ScaleHarmonics(n, notes[..|notes| - 1], tolerance);
      if x != n && InTune(x, tolerance) && x.note == n.note then rest + [x] else rest
  }

  /** The harmonics of an in-tune note are exactly the other in-tune notes with its name. */
  lemma {:induction false} ScaleHarmonicsMembers(n: Note, notes: seq<Note>, tolerance: real)
    ensures forall x :: x in ScaleHarmonics(n, notes, tolerance) <==>
              InTune(n, tolerance) && x in notes && x != n && InTune(x, tolerance) && x.note == n.note
    decreases |notes|
  {
    if InTune(n, tolerance) && notes != [] {
      ScaleHarmonicsMembers(n, notes[..|notes| - 1], tolerance);
      assert notes == notes[..|notes| - 1] + [notes[|notes| - 1]];
    }
  }

  /** Being an octave harmonic is mutual. */
  lemma ScaleHarmonicsSymmetric(a: Note, b: Note, notes: seq<Note>, tolerance: real)
    requires a in notes && b in notes
    ensures b in ScaleHarmonics(a, notes, tolerance) <==> a in ScaleHarmonics(b, notes, tolerance)
  {
    ScaleHarmonicsMembers(a, notes, tolerance);
    ScaleHarmonicsMembers(b, notes, tolerance);
  }

  /** `find_scale_haromonics(self, all_notes, tolerance)`: the filtering loop. */
  method FindScaleHarmonics(n: Note, allNotes: seq<Note>, tolerance: real) returns (harmNotes: seq<Note>)
    ensures harmNotes == ScaleHarmonics(n, allNotes, tolerance)
  {
    harmNotes := [];
    if InTune(n, tolerance) {
      for i := 0 to |allNotes|
        invariant harmNotes == ScaleHarmonics(n, allNotes[..i], tolerance)
      {
        var x := allNotes[i];
        assert allNotes[..i + 1][..i] == allNotes[..i];
        if x != n && InTune(x, tolerance) && x.note == n.note {
          harmNotes := harmNotes + [x];
        }
      }
      assert allNotes[..|allNotes|] == allNotes;
    }
  }

  /** A dict from notes (by identity) to their harmonics, in insertion order. */
  type HarmonicTable = seq<(Note, seq<Note>)>

  /** Python dict keys are distinct. */
  predicate DistinctKeys(d: HarmonicTable) {
    forall i, j | 0 <= i < j < |d| :: d[i].0 != d[j].0
  }

  predicate HasKey(d: HarmonicTable, k: Note) {
    exists i | 0 <= i < |d| :: d[i].0 == k
  }

  /** `d[k] = v`: a present key keeps its place and takes the new value, a new one goes last. */
  function Put(d: HarmonicTable, k: Note, v: seq<Note>): (r: HarmonicTable)
    requires DistinctKeys(d)
    ensures DistinctKeys(r) && HasKey(r, k)
    ensures !HasKey(d, k) ==> r == d + [(k, v)]
    ensures HasKey(d, k) ==> |r| == |d| && forall i | 0 <= i < |d| :: r[i] == (if d[i].0 == k then (k, v) else d[i])
  {
    if HasKey(d, k) then
      var r := seq(|d|, i requires 0 <= i < |d| => if d[i].0 == k then (k, v) else d[i]);
      assert forall i | 0 <= i < |d| :: r[i].0 == d[i].0;
      r
    else
      var r := d + [(k, v)];
      assert r[|d|].0 == k;
      r
  }

  /**
    The table `get_all_*_harmonics` builds: a note is a key exactly when
    its harmonic list is non-empty.
   */
  function Collect(notes: seq<Note>, finder: Note -> seq<Note>): (d: HarmonicTable)
    ensures DistinctKeys(d)
    decreases |notes|
  {
    if notes == [] then []
    else
      var d := Collect(notes[..|notes| - 1], finder);
      var x := notes[|notes| - 1];
      if |finder(x)| > 0 then Put(d, x, finder(x)) else d
  }

  /** Every entry is a listed note with its own non-empty harmonic list. */
  lemma {:induction false} CollectEntries(notes: seq<Note>, finder: Note -> seq<Note>, i: int)
    requires 0 <= i < |Collect(notes, finder)|
    ensures Collect(notes, finder)[i].0 in notes
    ensures Collect(notes, finder)[i].1 == finder(Collect(notes, finder)[i].0)
    ensures |Collect(notes, finder)[i].1| > 0
    decreases |notes|
  {
    var p := notes[..|notes| - 1];
    var x := notes[|notes| - 1];
    assert notes == p + [x];
    var d := Collect(p, finder);
    if |finder(x)| == 0 {
      CollectEntries(p, finder, i);
    } else if HasKey(d, x) {
      if d[i].0 != x {
        CollectEntries(p, finder, i);
      }
    } else if i < |d| {
      CollectEntries(p, finder, i);
    }
  }

  /** Every listed note with a non-empty harmonic list has its entry. */
  lemma {:induction false} CollectComplete(notes: seq<Note>, finder: Note -> seq<Note>, y: Note)
    requires y in notes && |finder(y)| > 0
    ensures (y, finder(y)) in Collect(notes, finder)
    decreases |notes|
  {
    var p := notes[..|notes| - 1];
    var x := notes[|notes| - 1];
    assert notes == p + [x];
    var d := Collect(p, finder);
    var r := Collect(notes, finder);
    if y == x {
      var i :| 0 <= i < |r| && r[i].0 == x;
    } else {
      CollectComplete(p, finder, y);
      var j :| 0 <= j < |d| && d[j] == (y, finder(y));
      if |finder(x)| > 0 {
        assert r[j] == d[j];
      }
    }
  }

  /** The finder `get_all_scale_harmonics` applies to each note. */
  function ScaleFinder(allNotes: seq<Note>, tolerance: real): Note -> seq<Note> {
    x => ScaleHarmonics(x, allNotes, tolerance)
  }

  /** `get_all_scale_harmonics(all_notes, tolerance)`. */
  method GetAllScaleHarmonics(allNotes: seq<Note>, tolerance: real) returns (table: HarmonicTable)
    ensures table == Collect(allNotes, ScaleFinder(allNotes, tolerance))
  {
    table := [];
    for i := 0 to |allNotes|
      invariant table == Collect(allNotes[..i], ScaleFinder(allNotes, tolerance))
    {
      var currHarms := FindScaleHarmonics(allNotes[i], allNotes, tolerance);
      assert allNotes[..i + 1][..i] == allNotes[..i];
      if |currHarms| > 0 {
        table := Put(table, allNotes[i], currHarms);
      }
    }
    assert allNotes[..|allNotes|] == allNotes;
  }

  /**
    `get_all_value_harmonics(all_notes, tolerance, mode)` with
    `find_value_harmonics` given as `finder`.
   */
  method GetAllValueHarmonics(allNotes: seq<Note>, finder: Note -> seq<Note>) returns (table: HarmonicTable)
    ensures table == Collect(allNotes, finder)
  {
    table := [];
    for i := 0 to |allNotes|
      invariant table == Collect(allNotes[..i], finder)
    {
      var currHarms := finder(allNotes[i]);
      assert allNotes[..i + 1][..i] == allNotes[..i];
      if |currHarms| > 0 {
        table := Put(table, allNotes[i], currHarms);
      }
    }
    assert allNotes[..|allNotes|] == allNotes;
  }
}
