/**
  optimize/to_lily.py: turning notes and their harmonic tables into a
  LilyPond score. Every note goes on one staff of a treble/bass pair and
  a spacer rest of the same length goes on the other; a note without a
  name (the zero note) makes `get_lily` raise TypeError, which ends the
  rendering.
 */
module Lily {
  import opened Outcomes
  import opened PyStr
  import opened Notes

  // ---- extract_notes_in_range ----

  /** The default audible range, in Hz. */
  const LowRange: real := 20.0
  const HighRange: real := 20000.0

  predicate InRange(n: Note, low: real, high: real) {
    low < n.freq < high
  }

  /** The notes strictly inside (low, high), in their input order. */
  function NotesInRange(notes: seq<Note>, low: real, high: real): seq<Note>
    decreases |notes|
  {
    if notes == [] then []
    else
      var rest := NotesInRange(notes[..|notes| - 1], low, high);
      if InRange(notes[|notes| - 1], low, high) then rest + [notes[|notes| - 1]] else rest
  }

  /** A note is kept exactly when it is listed and inside the range. */
  lemma {:induction false} NotesInRangeMembers(notes: seq<Note>, low: real, high: real)
    ensures forall x :: x in NotesInRange(notes, low, high) <==> x in notes && InRange(x, low, high)
    decreases |notes|
  {
    if notes != [] {
      NotesInRangeMembers(notes[..|notes| - 1], low, high);
      assert notes == notes[..|notes| - 1] + [notes[|notes| - 1]];
    }
  }

  /** Filtering distributes over concatenation, so the input order is kept. */
  lemma {:induction false} NotesInRangeAppend(a: seq<Note>, b: seq<Note>, low: real, high: real)
    ensures NotesInRange(a + b, low, high) == NotesInRange(a, low, high) + NotesInRange(b, low, high)
    decreases |b|
  {
    if b == [] {
      assert a + b == a;
    } else {
      var b' := b[..|b| - 1];
      assert (a + b)[..|a + b| - 1] == a + b';
      NotesInRangeAppend(a, b', low, high);
    }
  }

  /** Extracting twice keeps what extracting once kept. */
  lemma {:induction false} NotesInRangeIdempotent(notes: seq<Note>, low: real, high: real)
    ensures NotesInRange(NotesInRange(notes, low, high), low, high) == NotesInRange(notes, low, high)
    decreases |notes|
  {
    if notes != [] {
      var p := notes[..|notes| - 1];
      var x := notes[|notes| - 1];
      NotesInRangeIdempotent(p, low, high);
      if InRange(x, low, high) {
        NotesInRangeAppend(NotesInRange(p, low, high), [x], low, high);
        assert NotesInRange([x], low, high) == [x] by {
          assert [x][..0] == [];
        }
      }
    }
  }

  /** `extract_notes_in_range(all_notes, low_range, high_range)`. */
  method ExtractNotesInRange(allNotes: seq<Note>, lowRange: real, highRange: real) returns (notes: seq<Note>)
    ensures notes == NotesInRange(allNotes, lowRange, highRange)
  {
    notes := [];
    for i := 0 to |allNotes|
      invariant notes == NotesInRange(allNotes[..i], lowRange, highRange)
    {
      var n := allNotes[i];
      assert allNotes[..i + 1][..i] == allNotes[..i];
      if lowRange < n.freq < highRange {
        notes := notes + [n];
      }
    }
    assert allNotes[..|allNotes|] == allNotes;
  }

  // ---- version and header ----

  const DefaultVersion: string := "2.18.2"

  const VersionOpen: string := "\\version \""
  const VersionClose: string := "\"\n\\pointAndClickOff\n"

  /** `generate_lily_version(version)`. */
  function Version(version: string): (o: string)
    ensures o == VersionOpen + version + VersionClose
  {
    "\\version \"" + version + "\"\n" + "\\pointAndClickOff\n"
  }

  /** The version can be read back from the line it is written into. */
  lemma VersionReadBack(version: string)
    ensures |Version(version)| == |VersionOpen| + |version| + |VersionClose|
    ensures Version(version)[|VersionOpen|..|VersionOpen| + |version|] == version
    ensures Version(version)[|VersionOpen| + |version|..] == VersionClose
  {
  }

  const HeaderOpen: string := "\\header {\n  title = "
  const HeaderClose: string := "\n}\n"

  /** `generate_lily_header(title)`. */
  function Header(title: string): (o: string)
    ensures o == HeaderOpen + title + HeaderClose
  {
    "\\header {\n  title = " + title + "\n}\n"
  }

  /** The title can be read back from the header block. */
  lemma HeaderReadBack(title: string)
    ensures |Header(title)| == |HeaderOpen| + |title| + |HeaderClose|
    ensures Header(title)[|HeaderOpen|..|HeaderOpen| + |title|] == title
  {
  }

  // ---- separating notes onto the two staves ----

  /** Every note has a name, so `get_lily` renders it without raising. */
  predicate Named(ns: seq<Note>) {
    forall i | 0 <= i < |ns| :: ns[i].note.Name?
  }

  /** A named prefix followed by a named note is a named prefix one longer. */
  lemma NamedSnoc(ns: seq<Note>, i: int)
    requires 0 <= i < |ns| && Named(ns[..i]) && ns[i].note.Name?
    ensures Named(ns[..i + 1])
  {
    assert ns[..i + 1] == ns[..i] + [ns[i]];
  }

  /** The text `get_lily(mode)` gives a named note. */
  function LilyOf(n: Note, mode: int): string {
    match n.note
    case Name(s) => LilyText(s, n.octv, mode, n.cent)
    case NoName => ""
  }

  /** A note as the staves see it: whether it belongs on the bass staff, and its text. */
  datatype Entry = Entry(bass: bool, text: string)

  /** Below octave 4 a note is written on the bass staff, from octave 4 up on the treble staff. */
  function EntryOf(n: Note, mode: int): (e: Entry)
    ensures e.bass <==> n.octv < 4
  {
    Entry(n.octv < 4, LilyOf(n, mode))
  }

  /** The entries of the notes, in order. */
  function Entries(ns: seq<Note>, mode: int): (es: seq<Entry>)
    ensures |es| == |ns|
  {
    seq(|ns|, i requires 0 <= i < |ns| => EntryOf(ns[i], mode))
  }

  /** The entries of a longer prefix add the next note's entry. */
  lemma EntriesSnoc(ns: seq<Note>, i: int, mode: int)
    requires 0 <= i < |ns|
    ensures Entries(ns[..i + 1], mode) == Entries(ns[..i], mode) + [EntryOf(ns[i], mode)]
  {
    assert ns[..i + 1][..i] == ns[..i];
  }

  /** What one entry puts on one staff: its text on its own staff, the spacer rest on the other. */
  function Cell(e: Entry, spacer: string, bass: bool): string {
    if e.bass == bass then e.text + " " else spacer
  }

  /** An entry is written on exactly one staff and is a rest on the other. */
  lemma CellOnOneStaff(e: Entry, spacer: string)
    ensures Cell(e, spacer, e.bass) == e.text + " "
    ensures Cell(e, spacer, !e.bass) == spacer
  {
  }

  /** One staff of the entries, in order. */
  function Layout(es: seq<Entry>, spacer: string, bass: bool): string
    decreases |es|
  {
    if es == [] then ""
    else Layout(es[..|es| - 1], spacer, bass) + Cell(es[|es| - 1], spacer, bass)
  }

  /** A staff of a concatenation is the staves of the parts one after the other. */
  lemma {:induction false} LayoutAppend(a: seq<Entry>, b: seq<Entry>, spacer: string, bass: bool)
    ensures Layout(a + b, spacer, bass) == Layout(a, spacer, bass) + Layout(b, spacer, bass)
    decreases |b|
  {
    if b == [] {
      assert a + b == a;
    } else {
      var b', e := b[..|b| - 1], b[|b| - 1];
      assert a + b == (a + b') + [e];
      assert b == b' + [e];
      LayoutSnoc(a + b', e, spacer, bass);
      LayoutSnoc(b', e, spacer, bass);
      LayoutAppend(a, b', spacer, bass);
      AppendAssoc(Layout(a, spacer, bass), Layout(b', spacer, bass), Cell(e, spacer, bass));
    }
  }

  lemma LayoutSnoc(es: seq<Entry>, e: Entry, spacer: string, bass: bool)
    ensures Layout(es + [e], spacer, bass) == Layout(es, spacer, bass) + Cell(e, spacer, bass)
  {
    assert (es + [e])[..|es|] == es;
  }

  lemma EmptyConcat(x: string)
    ensures "" + x == x
  {
  }

  lemma ConcatParts(x: string, y: string)
    ensures (x + y)[..|x|] == x && (x + y)[|x|..] == y
  {
  }

  lemma AppendAssoc(x: string, y: string, z: string)
    ensures x + y + z == x + (y + z)
  {
  }

  /** `n` copies of s, one after another. */
  function RepeatStr(s: string, n: nat): (r: string)
    ensures |r| == n * |s|
  {
    if n == 0 then "" else RepeatStr(s, n - 1) + s
  }

  /** Entries that all belong on the other staff leave one spacer each on this one. */
  lemma {:induction false} LayoutAllRests(es: seq<Entry>, spacer: string, bass: bool)
    requires forall i | 0 <= i < |es| :: es[i].bass != bass
    ensures Layout(es, spacer, bass) == RepeatStr(spacer, |es|)
    decreases |es|
  {
    if es != [] {
      LayoutAllRests(es[..|es| - 1], spacer, bass);
    }
  }

  /**
    Notes all below octave 4 leave only rests on the treble staff, and
    notes all from octave 4 up leave only rests on the bass staff.
   */
  lemma RestsOnOtherStaff(ns: seq<Note>, mode: int, spacer: string, bass: bool)
    requires forall i | 0 <= i < |ns| :: (ns[i].octv < 4) != bass
    ensures Layout(Entries(ns, mode), spacer, bass) == RepeatStr(spacer, |ns|)
  {
    LayoutAllRests(Entries(ns, mode), spacer, bass);
  }

  /** The quarter-note spacer. */
  const Quarter: string := "s4 "
  /** The whole-note spacer. */
  const Whole: string := "s1 "

  /**
    The loop both separators run over a list of notes: each note's
    `get_lily(mode)` text and a space on its own staff, a quarter rest on
    the other, appended to the staves built so far; a zero note raises
    TypeError.
   */
  method PlaceNotes(treble0: string, bass0: string, ns: seq<Note>, mode: int) returns (r: Outcome<(string, string)>)
    ensures r.Raised? <==> !Named(ns)
    ensures r.Raised? ==> r.exn == TypeError
    ensures r.Ok? ==> r.value == (treble0 + Layout(Entries(ns, mode), Quarter, false), bass0 + Layout(Entries(ns, mode), Quarter, true))
  {
    var treble := treble0;
    var bass := bass0;
    ghost var es: seq<Entry> := [];
    for i := 0 to |ns|
      invariant Named(ns[..i])
      invariant es == Entries(ns[..i], mode)
      invariant treble == treble0 + Layout(es, Quarter, false)
      invariant bass == bass0 + Layout(es, Quarter, true)
    {
      var n := ns[i];
      var l := GetLily(n, mode);
      if l.Raised? {
        assert !ns[i].note.Name?;
        return Raised(l.exn);
      }
      ghost var e := EntryOf(n, mode);
      assert e.text == l.value;
      EntriesSnoc(ns, i, mode);
      NamedSnoc(ns, i);
      LayoutSnoc(es, e, Quarter, false);
      LayoutSnoc(es, e, Quarter, true);
      AppendAssoc(treble0, Layout(es, Quarter, false), Cell(e, Quarter, false));
      AppendAssoc(bass0, Layout(es, Quarter, true), Cell(e, Quarter, true));
      if n.octv < 4 {
        treble := treble + Quarter;
        bass := bass + (l.value + " ");
      } else {
        treble := treble + (l.value + " ");
        bass := bass + Quarter;
      }
      es := es + [e];
    }
    assert ns[..|ns|] == ns;
    return Ok((treble, bass));
  }

  /**
    `separate_notes_by_clefs(all_notes)`: each note with `get_lily()`,
    spaced by quarter rests; a zero note raises TypeError.
   */
  method SeparateNotesByClefs(allNotes: seq<Note>) returns (r: Outcome<(string, string)>)
    ensures r.Raised? <==> !Named(allNotes)
    ensures r.Raised? ==> r.exn == TypeError
    ensures r.Ok? ==> r.value == (Layout(Entries(allNotes, 0), Quarter, false), Layout(Entries(allNotes, 0), Quarter, true))
  {
    r := PlaceNotes("", "", allNotes, 0);
    EmptyConcat(Layout(Entries(allNotes, 0), Quarter, false));
    EmptyConcat(Layout(Entries(allNotes, 0), Quarter, true));
  }

  // ---- separating harmonic groups ----

  /** The final bar line closing each group. */
  const Bar: string := "\\bar \"|.\"\n"

  /** Every key and every harmonic in the table has a name. */
  predicate TableNamed(harms: HarmonicTable) {
    forall i | 0 <= i < |harms| :: harms[i].0.note.Name? && Named(harms[i].1)
  }

  /** A group as the staves see it: the key's entry and its harmonics' entries. */
  type Group = (Entry, seq<Entry>)

  /** The groups of a table: keys rendered with mode 1, harmonics with mode 4. */
  function GroupsOf(harms: HarmonicTable): (gs: seq<Group>)
    ensures |gs| == |harms|
  {
    seq(|harms|, i requires 0 <= i < |harms| => (EntryOf(harms[i].0, 1), Entries(harms[i].1, 4)))
  }

  /** One group on one staff: the key as a whole note, its harmonics as quarter notes, the bar line. */
  function GroupText(g: Group, bass: bool): string {
    Cell(g.0, Whole, bass) + Layout(g.1, Quarter, bass) + Bar
  }

  /** One staff of the groups, in order. */
  function HarmLayout(gs: seq<Group>, bass: bool): string
    decreases |gs|
  {
    if gs == [] then ""
    else HarmLayout(gs[..|gs| - 1], bass) + GroupText(gs[|gs| - 1], bass)
  }

  /** Groups rendered in two parts render the parts one after the other. */
  lemma {:induction false} HarmLayoutAppend(a: seq<Group>, b: seq<Group>, bass: bool)
    ensures HarmLayout(a + b, bass) == HarmLayout(a, bass) + HarmLayout(b, bass)
    decreases |b|
  {
    if b == [] {
      assert a + b == a;
    } else {
      var b', g := b[..|b| - 1], b[|b| - 1];
      assert a + b == (a + b') + [g];
      assert b == b' + [g];
      HarmLayoutSnoc(a + b', g, bass);
      HarmLayoutSnoc(b', g, bass);
      HarmLayoutAppend(a, b', bass);
      AppendAssoc(HarmLayout(a, bass), HarmLayout(b', bass), GroupText(g, bass));
    }
  }

  /** A staff of one or more groups ends with the bar line of its last group. */
  lemma HarmLayoutEndsWithBar(gs: seq<Group>, bass: bool)
    requires gs != []
    ensures var s := HarmLayout(gs, bass); |s| >= |Bar| && s[|s| - |Bar|..] == Bar
  {
    var n := |gs| - 1;
    var g := gs[n];
    assert gs == gs[..n] + [g];
    HarmLayoutSnoc(gs[..n], g, bass);
    var x, c := HarmLayout(gs[..n], bass), Cell(g.0, Whole, bass) + Layout(g.1, Quarter, bass);
    AppendAssoc(x, c, Bar);
    ConcatParts(x + c, Bar);
  }

  /**
    `separate_harms_by_clefs(harms)`: each key with `get_lily(1)` or a
    whole rest, its harmonics with `get_lily(4)` or quarter rests, a bar
    line after every group; a zero note raises TypeError.
   */
  method SeparateHarmsByClefs(harms: HarmonicTable) returns (r: Outcome<(string, string)>)
    ensures r.Raised? <==> !TableNamed(harms)
    ensures r.Raised? ==> r.exn == TypeError
    ensures r.Ok? ==> r.value == (HarmLayout(GroupsOf(harms), false), HarmLayout(GroupsOf(harms), true))
  {
    var treble := "";
    var bass := "";
    for i := 0 to |harms|
      invariant TableNamed(harms[..i])
      invariant treble == HarmLayout(GroupsOf(harms[..i]), false)
      invariant bass == HarmLayout(GroupsOf(harms[..i]), true)
    {
      var (k, v) := harms[i];
      ghost var ke, ve := EntryOf(k, 1), Entries(v, 4);
      var kl := GetLily(k, 1);
      if kl.Raised? {
        assert !harms[i].0.note.Name?;
        return Raised(kl.exn);
      }
      assert ke.text == kl.value;
      ghost var t, b := treble, bass;
      if k.octv < 4 {
        treble := treble + Whole;
        bass := bass + (kl.value + " ");
      } else {
        treble := treble + (kl.value + " ");
        bass := bass + Whole;
      }
      var placed := PlaceNotes(treble, bass, v, 4);
      if placed.Raised? {
        assert !TableNamed(harms) by {
          assert !Named(harms[i].1);
        }
        return Raised(placed.exn);
      }
      treble, bass := placed.value.0, placed.value.1;
      GroupsSnoc(harms, i);
      HarmLayoutSnoc(GroupsOf(harms[..i]), (ke, ve), false);
      HarmLayoutSnoc(GroupsOf(harms[..i]), (ke, ve), true);
      GroupAssoc(t, Cell(ke, Whole, false), Layout(ve, Quarter, false));
      GroupAssoc(b, Cell(ke, Whole, true), Layout(ve, Quarter, true));
      treble := treble + Bar;
      bass := bass + Bar;
    }
    assert harms[..|harms|] == harms;
    return Ok((treble, bass));
  }

  /** The groups of a longer prefix add the next group, and a named prefix stays named. */
  lemma GroupsSnoc(harms: HarmonicTable, i: int)
    requires 0 <= i < |harms|
    ensures GroupsOf(harms[..i + 1]) == GroupsOf(harms[..i]) + [(EntryOf(harms[i].0, 1), Entries(harms[i].1, 4))]
    ensures TableNamed(harms[..i]) && harms[i].0.note.Name? && Named(harms[i].1) ==> TableNamed(harms[..i + 1])
  {
    var longer, shorter := harms[..i + 1], harms[..i];
    var g := (EntryOf(harms[i].0, 1), Entries(harms[i].1, 4));
    forall k | 0 <= k < i + 1
      ensures GroupsOf(longer)[k] == (GroupsOf(shorter) + [g])[k]
    {
      if k < i {
        assert longer[k] == shorter[k];
      }
    }
    if TableNamed(shorter) && harms[i].0.note.Name? && Named(harms[i].1) {
      forall k | 0 <= k < i + 1
        ensures longer[k].0.note.Name? && Named(longer[k].1)
      {
        if k < i {
          assert longer[k] == shorter[k];
        }
      }
    }
  }

  lemma HarmLayoutSnoc(gs: seq<Group>, g: Group, bass: bool)
    ensures HarmLayout(gs + [g], bass) == HarmLayout(gs, bass) + GroupText(g, bass)
  {
    assert (gs + [g])[..|gs|] == gs;
  }

  lemma GroupAssoc(x: string, c: string, l: string)
    ensures x + c + l + Bar == x + (c + l + Bar)
  {
  }

  // ---- scores ----

  /** The score template both generators fill: treble staff, bass staff, piece title. */
  function Score(top: string, bot: string, piece: string): string {
    "\\score\n  {\n  <<\n  \\new Staff = \"up\" {\n    " + top
    + "\n  }\n  \\new Staff = \"down\" {\n    \\clef bass {\n      " + bot
    + "\n    }\n  }\n  >>"
    + "\n  \\header {\n    piece = \"" + piece + "\"\n  }\n}\n"
  }

  const ScoreOpen: string := "\\score\n  {\n  <<\n  \\new Staff = \"up\" {\n    "

  /** The score opens with the fixed preamble followed by the treble staff. */
  lemma ScoreStartsWithTreble(top: string, bot: string, piece: string)
    ensures Score(top, bot, piece)[..|ScoreOpen| + |top|] == ScoreOpen + top
  {
  }

  /** The piece title of `generate_lily_harmonics(harms, mode)`. */
  function HarmonicsTitle(mode: int): string {
    "Harmonics" +
    if mode == 0 then ""
    else " by " + if mode == 1 then "Octave" else if mode == 2 then "Common Multiple" else if mode == 3 then "Strict Multiple" else ""
  }

  /** Modes 0 to 3 give four different titles. */
  lemma HarmonicsTitlesDistinct()
    ensures forall m, n | 0 <= m < 4 && 0 <= n < 4 && m != n :: HarmonicsTitle(m) != HarmonicsTitle(n)
  {
    assert |HarmonicsTitle(0)| == 9 && |HarmonicsTitle(1)| == 19;
    assert |HarmonicsTitle(2)| == 28 && |HarmonicsTitle(3)| == 28;
    assert HarmonicsTitle(2)[13] == 'C' && HarmonicsTitle(3)[13] == 'S';
  }

  /** Every title other than mode 0's names the kind of harmonic after " by ". */
  lemma HarmonicsTitleBy(mode: int)
    ensures mode == 0 <==> HarmonicsTitle(mode) == "Harmonics"
    ensures mode != 0 ==> HarmonicsTitle(mode)[..13] == "Harmonics by "
  {
  }

  /** What `generate_lily_all_notes(all_notes)` returns. */
  function AllNotesScore(allNotes: seq<Note>): (r: Outcome<string>)
    ensures r.Raised? <==> !Named(allNotes)
    ensures r.Raised? ==> r.exn == TypeError
  {
    if !Named(allNotes) then Raised(TypeError)
    else Ok(Score(Layout(Entries(allNotes, 0), Quarter, false), Layout(Entries(allNotes, 0), Quarter, true), "All Notes"))
  }

  /** What `generate_lily_harmonics(harms, mode)` returns. */
  function HarmonicsScore(harms: HarmonicTable, mode: int): (r: Outcome<string>)
    ensures r.Raised? <==> !TableNamed(harms)
    ensures r.Raised? ==> r.exn == TypeError
  {
    if !TableNamed(harms) then Raised(TypeError)
    else Ok(Score(HarmLayout(GroupsOf(harms), false), HarmLayout(GroupsOf(harms), true), HarmonicsTitle(mode)))
  }

  /** `generate_lily_all_notes(all_notes)`. */
  method GenerateLilyAllNotes(allNotes: seq<Note>) returns (r: Outcome<string>)
    ensures r == AllNotesScore(allNotes)
  {
    var s := SeparateNotesByClefs(allNotes);
    if s.Raised? {
      return Raised(s.exn);
    }
    var (top, bot) := s.value;
    return Ok(Score(top, bot, "All Notes"));
  }

  /** `generate_lily_harmonics(harms, mode)`. */
  method GenerateLilyHarmonics(harms: HarmonicTable, mode: int) returns (r: Outcome<string>)
    ensures r == HarmonicsScore(harms, mode)
  {
    var s := SeparateHarmsByClefs(harms);
    if s.Raised? {
      return Raised(s.exn);
    }
    var (top, bot) := s.value;
    return Ok(Score(top, bot, HarmonicsTitle(mode)));
  }

  /** The opening of every file: the version line and the "Results" header. */
  function Opening(): string {
    Version(DefaultVersion) + Header("Results")
  }

  /**
    The opening followed by three scores, or the first score's exception:
    a raise inside `generate_lily_content` ends it.
   */
  function Assemble(a: Outcome<string>, s: Outcome<string>, v: Outcome<string>): Outcome<string> {
    if a.Raised? then a
    else if s.Raised? then s
    else if v.Raised? then v
    else Ok(Opening() + a.value + s.value + v.value)
  }

  /** The assembled file opens with the opening and then holds the three scores in order. */
  lemma AssembleParts(a: Outcome<string>, s: Outcome<string>, v: Outcome<string>)
    requires a.Ok? && s.Ok? && v.Ok?
    ensures var c := Assemble(a, s, v);
            && c.Ok? && |c.value| >= |Opening()|
            && c.value[..|Opening()|] == Opening() && c.value[|Opening()|..] == a.value + s.value + v.value
  {
    AppendAssoc(Opening(), a.value, s.value);
    AppendAssoc(Opening(), a.value + s.value, v.value);
    ConcatParts(Opening(), a.value + s.value + v.value);
  }

  /** What `generate_lily_content` returns: the relative harmonics are not part of it. */
  function LilyContent(allNotes: seq<Note>, scaleHarms: HarmonicTable, valueHarms: HarmonicTable): Outcome<string> {
    Assemble(AllNotesScore(allNotes), HarmonicsScore(scaleHarms, 1), HarmonicsScore(valueHarms, 2))
  }

  /** The file fails, with TypeError, exactly when one of its three scores has a zero note. */
  lemma LilyContentRaises(allNotes: seq<Note>, scaleHarms: HarmonicTable, valueHarms: HarmonicTable)
    ensures var c := LilyContent(allNotes, scaleHarms, valueHarms);
            && (c.Raised? <==> !Named(allNotes) || !TableNamed(scaleHarms) || !TableNamed(valueHarms))
            && (c.Raised? ==> c.exn == TypeError)
  {
  }

  /**
    A file that renders is the version line and the "Results" header
    followed by the three scores in order: all notes, the scale
    harmonics, the value harmonics.
   */
  lemma LilyContentOpening(allNotes: seq<Note>, scaleHarms: HarmonicTable, valueHarms: HarmonicTable)
    requires Named(allNotes) && TableNamed(scaleHarms) && TableNamed(valueHarms)
    ensures var c := LilyContent(allNotes, scaleHarms, valueHarms);
            && c.Ok? && |c.value| >= |Opening()| && c.value[..|Opening()|] == Opening()
            && c.value[|Opening()|..] == AllNotesScore(allNotes).value + HarmonicsScore(scaleHarms, 1).value + HarmonicsScore(valueHarms, 2).value
  {
    AssembleParts(AllNotesScore(allNotes), HarmonicsScore(scaleHarms, 1), HarmonicsScore(valueHarms, 2));
  }

  /**
    `generate_lily_content(file_name, all_notes, scale_harms, value_harms, reltv_harms)`:
    the file name and the relative harmonics do not affect the result.
   */
  method GenerateLilyContent(fileName: string, allNotes: seq<Note>, scaleHarms: HarmonicTable,
                             valueHarms: HarmonicTable, reltvHarms: HarmonicTable) returns (r: Outcome<string>)
    ensures r == LilyContent(allNotes, scaleHarms, valueHarms)
  {
    var lyContents := "";
    EmptyConcat(Version(DefaultVersion));
    lyContents := lyContents + Version(DefaultVersion);
    lyContents := lyContents + Header("Results");
    assert lyContents == Opening();
    var a := GenerateLilyAllNotes(allNotes);
    if a.Raised? {
      return Raised(a.exn);
    }
    lyContents := lyContents + a.value;
    var s := GenerateLilyHarmonics(scaleHarms, 1);
    if s.Raised? {
      return Raised(s.exn);
    }
    lyContents := lyContents + s.value;
    var v := GenerateLilyHarmonics(valueHarms, 2);
    if v.Raised? {
      return Raised(v.exn);
    }
    lyContents := lyContents + v.value;
    return Ok(lyContents);
  }
}
