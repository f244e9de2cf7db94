/**
 * Reading one `note` element of the score, and turning a notated step plus
 * alteration into a pitch class.
 */
module Notes {
  import opened Base

  /** The children of a note's `pitch` element that the reader looks at. */
  datatype PitchElem = PitchElem(step: Option<string>, octave: Option<int>, alter: Option<int>)

  /** A `note` element, abstracted to which of the children the reader looks at are present. */
  datatype NoteElem = NoteElem(
    chord: bool,
    pitch: Option<PitchElem>,
    unpitched: bool,
    rest: bool,
    duration: Option<nat>)

  datatype NoteType = PitchType | UnpitchedType | RestType

  /** The record get_note_data builds; a key that is never set is None. */
  datatype NoteData = NoteData(
    isChord: bool,
    kind: Option<NoteType>,
    step: Option<string>,
    octave: Option<int>,
    alt: Option<int>,
    duration: Option<nat>)

  /**
   * get_note_data: the type is written by pitch, then unpitched, then rest, so the last one
   * present wins; the pitch fields and the duration are set only when their elements exist.
   */
  function GetNoteData(e: NoteElem): (d: NoteData)
    ensures d.isChord <==> e.chord
    ensures d.kind == Some(RestType) <==> e.rest
    ensures d.kind == Some(UnpitchedType) <==> e.unpitched && !e.rest
    ensures d.kind == Some(PitchType) <==> e.pitch.Some? && !e.unpitched && !e.rest
    ensures d.kind.None? <==> e.pitch.None? && !e.unpitched && !e.rest
    ensures d.step.Some? <==> e.pitch.Some? && e.pitch.value.step.Some?
    ensures d.octave.Some? <==> e.pitch.Some? && e.pitch.value.octave.Some?
    ensures d.alt.Some? <==> e.pitch.Some? && e.pitch.value.alter.Some?
    ensures e.pitch.Some? ==>
      d.step == e.pitch.value.step && d.octave == e.pitch.value.octave && d.alt == e.pitch.value.alter
    ensures d.duration == e.duration
  {
    var d0 := NoteData(e.chord, None, None, None, None, None);
    var d1 := match e.pitch
      case None => d0
      case Some(p) => d0.(kind := Some(PitchType), step := p.step, octave := p.octave, alt := p.alter);
    var d2 := if e.unpitched then d1.(kind := Some(UnpitchedType)) else d1;
    var d3 := if e.rest then d2.(kind := Some(RestType)) else d2;
    d3.(duration := e.duration)
  }

  /** The step-to-class table the scores are read with: C=0, D=2, E=4, F=5, G=7, A=9, B=11. */
  const StandardPitchClasses: map<string, int> :=
    map["C" := 0, "D" := 2, "E" := 4, "F" := 5, "G" := 7, "A" := 9, "B" := 11]

  /**
   * The pitch class of a step with an alteration of `alt` semitones: it lies in [0, 11]
   * and is congruent to the table's class plus the alteration modulo 12.
   */
  function PitchClass(table: map<string, int>, step: string, alt: int): (pc: int)
    requires step in table
    ensures 0 <= pc < 12
    ensures (table[step] + alt - pc) % 12 == 0
  {
    (table[step] + alt) % 12
  }
}
