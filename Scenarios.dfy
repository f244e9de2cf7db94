/** Small scores worked through the walk, one part "P1" with divisions 1 (a quarter note lasts 1). */
module Scenarios {
  import opened Base
  import opened Notes
  import opened Grid
  import opened Registry
  import opened Tree
  import opened Walk

  function Quarter(step: string, octave: int, chord: bool): Child
  {
    NoteChild(NoteElem(chord, Some(PitchElem(Some(step), Some(octave), None)), false, false, Some(1)))
  }

  const QuarterRest: Child := NoteChild(NoteElem(false, None, false, true, Some(1)))

  function OnePartScore(children: seq<Child>): Score
  {
    Score([ScorePart("P1", "Piano")], [Measure([PartEntry("P1", [AttributesChild([1])] + children)])])
  }

  const P1: seq<Part> := [Part("P1", "Piano", Some(1), 0)]

  /** A one-part score with divisions 1 and no further attributes walks its children from cursor 0. */
  lemma OnePartParse(children: seq<Child>)
    requires forall i :: 0 <= i < |children| ==> !children[i].AttributesChild?
    ensures Parse("score-timewise", OnePartScore(children), StandardPitchClasses)
         == match Events(EventState([], 0, 0), P1, "P1", children, 1, StandardPitchClasses)
            case Err(x) => Err(x)
            case Ok(es) => Ok(Output(1, es.grid))
  {
    OnePartDivisions(children);
    OnePartWalk(children);
  }

  /** A one-part score whose children walk to `es` parses to the grid of `es`. */
  lemma OnePartOutcome(children: seq<Child>, es: EventState)
    requires forall i :: 0 <= i < |children| ==> !children[i].AttributesChild?
    requires Events(EventState([], 0, 0), P1, "P1", children, 1, StandardPitchClasses) == Ok(es)
    ensures Parse("score-timewise", OnePartScore(children), StandardPitchClasses) == Ok(Output(1, es.grid))
  {
    OnePartParse(children);
  }

  /** The walk of a one-part score is the walk of its children, with the final cursor saved to P1. */
  lemma OnePartWalk(children: seq<Child>)
    ensures var tree := OnePartScore(children);
      Measures(WalkState(DeclaredParts(tree.partList), [], 0), tree.measures, 1, StandardPitchClasses)
      == match Events(EventState([], 0, 0), P1, "P1", children, 1, StandardPitchClasses)
         case Err(x) => Err(x)
         case Ok(es) => Ok(WalkState(P1[0 := P1[0].(nextInterval := es.next)], es.grid, es.current))
  {
    var tree := OnePartScore(children);
    var entry := tree.measures[0].parts[0];
    var parts := DeclaredParts(tree.partList);
    assert parts == [Part("P1", "Piano", None, 0)];
    assert PartsWithEntryDivisions(parts, entry) == P1;
    var ws0 := WalkState(parts, [], 0);
    var es0 := EventState([], 0, 0);
    assert EventStep(es0, P1, "P1", AttributesChild([1]), 1, StandardPitchClasses) == Ok(es0);
    assert entry.children[1..] == children;
    var events := Events(es0, P1, "P1", children, 1, StandardPitchClasses);
    assert Events(es0, P1, "P1", entry.children, 1, StandardPitchClasses) == events;
    assert tree.measures[0].parts[1..] == [] && tree.measures[1..] == [];
    match events
    case Err(x) =>
      assert PartStep(ws0, entry, 1, StandardPitchClasses) == Err(x);
      assert Entries(ws0, tree.measures[0].parts, 1, StandardPitchClasses) == Err(x);
    case Ok(es) =>
      var ws1 := WalkState(P1[0 := P1[0].(nextInterval := es.next)], es.grid, es.current);
      assert PartStep(ws0, entry, 1, StandardPitchClasses) == Ok(ws1);
      assert Entries(ws0, tree.measures[0].parts, 1, StandardPitchClasses) == Ok(ws1);
  }

  lemma OnePartDivisions(children: seq<Child>)
    requires forall i :: 0 <= i < |children| ==> !children[i].AttributesChild?
    ensures Divisions.LargestDivisor(AllDivisions(OnePartScore(children))) == 1
  {
    var tree := OnePartScore(children);
    var entry := tree.measures[0].parts[0];
    NoAttributesNoDivisions(children);
    assert entry.children[1..] == children;
    assert tree.measures[0].parts[1..] == [] && tree.measures[1..] == [];
    assert ChildDivisions(entry.children) == [1];
    assert EntryDivisions(tree.measures[0].parts) == [1] + EntryDivisions([]);
    assert MeasureDivisions(tree.measures) == [1] + MeasureDivisions([]);
    assert AllDivisions(tree) == [1];
    assert Divisions.LargestDivisor([1]) == 1;
  }

  lemma {:induction false} NoAttributesNoDivisions(cs: seq<Child>)
    requires forall i :: 0 <= i < |cs| ==> !cs[i].AttributesChild?
    ensures ChildDivisions(cs) == []
  {
    if cs != [] {
      NoAttributesNoDivisions(cs[1..]);
    }
  }

  /** The walk of two children, one after the other. */
  lemma EventsOfTwo(es: EventState, a: Child, b: Child)
    ensures Events(es, P1, "P1", [a, b], 1, StandardPitchClasses)
         == match EventStep(es, P1, "P1", a, 1, StandardPitchClasses)
            case Err(x) => Err(x)
            case Ok(es1) => EventStep(es1, P1, "P1", b, 1, StandardPitchClasses)
  {
    assert [a, b][1..] == [b] && [b][1..] == [];
    match EventStep(es, P1, "P1", a, 1, StandardPitchClasses)
    case Err(x) =>
    case Ok(es1) =>
      assert Events(es, P1, "P1", [a, b], 1, StandardPitchClasses)
          == Events(es1, P1, "P1", [b], 1, StandardPitchClasses);
      match EventStep(es1, P1, "P1", b, 1, StandardPitchClasses)
      case Err(y) =>
      case Ok(es2) =>
        assert Events(es2, P1, "P1", [b][1..], 1, StandardPitchClasses) == Ok(es2);
  }

  /** In part P1 a duration of 1 covers one interval. */
  lemma QuarterCoversOne()
    ensures ScaledLength(P1, "P1", 1, 1) == Ok(1)
  {
    assert GetPartDiv(P1, "P1") == Some(Some(1));
  }

  /** Storing a quarter note's pitch at the end of the grid appends one interval holding it. */
  lemma PitchAtEnd(s: seq<Interval>, p: Pitch)
    ensures PitchStored(s, p, |s|, 1) == s + [Interval(1, [p])]
  {
    StorePitchShape(s, p, |s|, 1);
    var r := PitchStored(s, p, |s|, 1);
    assert forall k :: 0 <= k < |r| ==> r[k] == (s + [Interval(1, [p])])[k];
  }

  /** Storing a pitch of length 1 at an existing interval adds it there, with one more attack. */
  lemma PitchAtExisting(s: seq<Interval>, p: Pitch, k: nat)
    requires k < |s|
    ensures PitchStored(s, p, k, 1) == s[k := Interval(s[k].attacks + 1, s[k].pitches + [p])]
  {
    StorePitchShape(s, p, k, 1);
    var r := PitchStored(s, p, k, 1);
    var t := s[k := Interval(s[k].attacks + 1, s[k].pitches + [p])];
    assert forall j :: 0 <= j < |r| ==> r[j] == t[j];
  }

  /** A quarter note that is not a chord member, stored where the grid ends. */
  lemma OnsetAtEnd(es: EventState, step: string, octave: int) returns (es': EventState)
    requires step in StandardPitchClasses
    requires es.next == |es.grid|
    ensures es' == EventState(es.grid + [Interval(1, [Pitch(StandardPitchClasses[step], octave)])],
                              es.next, es.next + 1)
    ensures EventStep(es, P1, "P1", Quarter(step, octave, false), 1, StandardPitchClasses) == Ok(es')
  {
    var c := Quarter(step, octave, false);
    var p := Pitch(StandardPitchClasses[step], octave);
    QuarterCoversOne();
    assert PitchOf(GetNoteData(c.note), StandardPitchClasses) == Ok(p);
    PitchAtEnd(es.grid, p);
    es' := EventState(es.grid + [Interval(1, [p])], es.next, es.next + 1);
    assert NoteStep(es, P1, "P1", c.note, 1, StandardPitchClasses) == Ok(es');
  }

  /** A quarter-note chord member, stored at the onset interval of the chord. */
  lemma ChordMemberAt(es: EventState, step: string, octave: int) returns (es': EventState)
    requires step in StandardPitchClasses
    requires 0 <= es.current < |es.grid|
    ensures var k := es.current;
      es' == EventState(es.grid[k := Interval(es.grid[k].attacks + 1,
                                               es.grid[k].pitches + [Pitch(StandardPitchClasses[step], octave)])],
                        es.current, es.next)
    ensures EventStep(es, P1, "P1", Quarter(step, octave, true), 1, StandardPitchClasses) == Ok(es')
  {
    var c := Quarter(step, octave, true);
    var p := Pitch(StandardPitchClasses[step], octave);
    var k := es.current;
    QuarterCoversOne();
    assert PitchOf(GetNoteData(c.note), StandardPitchClasses) == Ok(p);
    PitchAtExisting(es.grid, p, k);
    es' := EventState(es.grid[k := Interval(es.grid[k].attacks + 1, es.grid[k].pitches + [p])], es.current, es.next);
    assert NoteStep(es, P1, "P1", c.note, 1, StandardPitchClasses) == Ok(es');
  }

  /** Two consecutive quarter notes C4, D4: one interval each, one attack each. */
  lemma TwoQuarterNotes()
    ensures Parse("score-timewise", OnePartScore([Quarter("C", 4, false), Quarter("D", 4, false)]),
                  StandardPitchClasses)
         == Ok(Output(1, [Interval(1, [Pitch(0, 4)]), Interval(1, [Pitch(2, 4)])]))
  {
    var c, d := Quarter("C", 4, false), Quarter("D", 4, false);
    EventsOfTwo(EventState([], 0, 0), c, d);
    var es1 := OnsetAtEnd(EventState([], 0, 0), "C", 4);
    var es2 := OnsetAtEnd(es1, "D", 4);
    assert StandardPitchClasses["C"] == 0 && StandardPitchClasses["D"] == 2;
    assert es2.grid == [Interval(1, [Pitch(0, 4)]), Interval(1, [Pitch(2, 4)])];
    OnePartOutcome([c, d], es2);
  }

  /** A quarter rest, then E4: the rest's interval stays empty. */
  lemma RestThenNote()
    ensures Parse("score-timewise", OnePartScore([QuarterRest, Quarter("E", 4, false)]), StandardPitchClasses)
         == Ok(Output(1, [Interval(0, []), Interval(1, [Pitch(4, 4)])]))
  {
    var e := Quarter("E", 4, false);
    EventsOfTwo(EventState([], 0, 0), QuarterRest, e);
    QuarterCoversOne();
    var es1 := EventState([EmptyInterval], 0, 1);
    assert RestFrom([], 0, 1) == [EmptyInterval];
    assert NoteStep(EventState([], 0, 0), P1, "P1", QuarterRest.note, 1, StandardPitchClasses) == Ok(es1);
    var es2 := OnsetAtEnd(es1, "E", 4);
    assert StandardPitchClasses["E"] == 4;
    assert es2.grid == [Interval(0, []), Interval(1, [Pitch(4, 4)])];
    OnePartOutcome([QuarterRest, e], es2);
  }

  /** The chord C4+E4: both pitches in one interval, and each stored pitch counts an attack. */
  lemma ChordOfTwo()
    ensures Parse("score-timewise", OnePartScore([Quarter("C", 4, false), Quarter("E", 4, true)]),
                  StandardPitchClasses)
         == Ok(Output(1, [Interval(2, [Pitch(0, 4), Pitch(4, 4)])]))
  {
    var c, e := Quarter("C", 4, false), Quarter("E", 4, true);
    EventsOfTwo(EventState([], 0, 0), c, e);
    var es1 := OnsetAtEnd(EventState([], 0, 0), "C", 4);
    assert StandardPitchClasses["C"] == 0 && StandardPitchClasses["E"] == 4;
    assert es1.grid == [Interval(1, [Pitch(0, 4)])] && es1.current == 0;
    var es2 := ChordMemberAt(es1, "E", 4);
    assert [Pitch(0, 4)] + [Pitch(4, 4)] == [Pitch(0, 4), Pitch(4, 4)];
    assert es2.grid == [Interval(2, [Pitch(0, 4), Pitch(4, 4)])];
    OnePartOutcome([c, e], es2);
  }

  /** A backup of a quarter after a forward of a quarter brings the part's cursor back to 0. */
  lemma ForwardThenBackup()
    ensures var tree := OnePartScore([ForwardChild(Some(1)), BackupChild(Some(1))]);
      Measures(WalkState(DeclaredParts(tree.partList), [], 0), tree.measures, 1, StandardPitchClasses)
      == Ok(WalkState([Part("P1", "Piano", Some(1), 0)], [], 0))
  {
    var es0 := EventState([], 0, 0);
    OnePartWalk([ForwardChild(Some(1)), BackupChild(Some(1))]);
    QuarterCoversOne();
    EventsOfTwo(es0, ForwardChild(Some(1)), BackupChild(Some(1)));
    assert P1[0 := P1[0].(nextInterval := 0)] == P1;
  }

  /** A root tag that is neither score form: the parse fails and returns no grid. */
  lemma UnknownRoot()
    ensures Parse("html", OnePartScore([Quarter("C", 4, false)]), StandardPitchClasses) == Err(UnsupportedFormat)
  {
  }

  /** A forward past the end of the grid, then a note: store_pitch would index past the grid. */
  lemma NoteAfterForward()
    ensures Parse("score-timewise", OnePartScore([ForwardChild(Some(1)), Quarter("C", 4, false)]),
                  StandardPitchClasses)
         == Err(CursorBeyondGrid)
  {
    var c := Quarter("C", 4, false);
    OnePartParse([ForwardChild(Some(1)), c]);
    EventsOfTwo(EventState([], 0, 0), ForwardChild(Some(1)), c);
    QuarterCoversOne();
  }

  /** A forward past the end of the grid, then a rest: the grid gains one interval, not two. */
  lemma RestAfterForward()
    ensures Parse("score-timewise", OnePartScore([ForwardChild(Some(1)), QuarterRest]), StandardPitchClasses)
         == Ok(Output(1, [EmptyInterval]))
  {
    EventsOfTwo(EventState([], 0, 0), ForwardChild(Some(1)), QuarterRest);
    QuarterCoversOne();
    assert RestFrom([], 1, 2) == [EmptyInterval];
    OnePartOutcome([ForwardChild(Some(1)), QuarterRest], EventState([EmptyInterval], 0, 2));
  }
}
