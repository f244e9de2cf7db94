/**
 * The score walk of parse_file as functions over values: for each measure, for each part
 * entry, load the part's cursor, apply its divisions, run its children through the cursor
 * rules while writing into the grid, and save the cursor back.
 */
module Walk {
  import opened Base
  import opened Notes
  import opened Grid
  import opened Registry
  import opened Tree
  import opened Divisions

  /** The ways the parse stops; the first one met ends the parse and no grid is returned. */
  datatype Error =
    | UnsupportedFormat   // root element is neither score form
    | UnknownPart         // a measure names a part the part list does not declare
    | MissingDivisions    // a duration is scaled before the part's divisions were ever set
    | ZeroDivisions       // the part's divisions value is 0
    | MissingType         // a note with none of pitch, unpitched, rest
    | MissingStep         // a pitched note without a step
    | UnknownStep         // a step the pitch-class table does not know
    | MissingOctave       // a pitched note without an octave
    | MissingDuration     // a forward or backup without a duration
    | NegativeCursor      // a pitch is stored at a negative interval index
    | CursorBeyondGrid    // a pitch is stored at an index the grid does not reach

  datatype Result<+T> = Ok(value: T) | Err(error: Error)

  /** The two score forms the format check accepts. */
  datatype Form = Partwise | Timewise

  /** The result of parse_file: the grid resolution and the grid. */
  datatype Output = Output(largestDivisor: nat, intervals: seq<Interval>)

  /** What the walk carries between part entries: the part records, the grid, and current_interval. */
  datatype WalkState = WalkState(parts: seq<Part>, grid: seq<Interval>, current: int)

  /** What the walk carries between the children of one part entry: also that part's next_interval. */
  datatype EventState = EventState(grid: seq<Interval>, current: int, next: int)

  /** The format check on the root tag: a part-wise score is converted upstream, a time-wise one read as is. */
  function CheckRoot(root: string): (r: Result<Form>)
    ensures r == Ok(Partwise) <==> root == "score-partwise"
    ensures r == Ok(Timewise) <==> root == "score-timewise"
    ensures r.Err? ==> r.error == UnsupportedFormat
  {
    if root == "score-partwise" then Ok(Partwise)
    else if root == "score-timewise" then Ok(Timewise)
    else Err(UnsupportedFormat)
  }

  /**
   * How many grid intervals a duration covers: duration / div quarter notes at largest
   * intervals per quarter note, rounded down.
   */
  function IntervalLength(duration: nat, div: nat, largest: nat): (n: nat)
    requires div > 0
    ensures n * div <= duration * largest < (n + 1) * div
  {
    var q := duration * largest / div;
    assert duration * largest == q * div + duration * largest % div;
    q
  }

  /** The scaled length of a duration in the part `id`, using that part's current divisions. */
  function ScaledLength(parts: seq<Part>, id: string, duration: nat, largest: nat): (r: Result<nat>)
    ensures r.Ok? <==> GetPartDiv(parts, id).Some? && GetPartDiv(parts, id).value.Some?
                       && GetPartDiv(parts, id).value.value > 0
    ensures r.Ok? ==> r.value == IntervalLength(duration, GetPartDiv(parts, id).value.value, largest)
    ensures r.Err? && GetPartDiv(parts, id) == Some(Some(0)) ==> r.error == ZeroDivisions
    ensures r.Err? && GetPartDiv(parts, id) != Some(Some(0)) ==> r.error == MissingDivisions
  {
    match GetPartDiv(parts, id)
    case None => Err(MissingDivisions)
    case Some(None) => Err(MissingDivisions)
    case Some(Some(div)) =>
      if div == 0 then Err(ZeroDivisions) else Ok(IntervalLength(duration, div, largest))
  }

  /** The pitch of a pitched note: class from the table and the alteration (0 when absent), and octave. */
  function PitchOf(nd: NoteData, table: map<string, int>): (r: Result<Pitch>)
    ensures r.Ok? ==> 0 <= r.value.pitchClass < 12
    ensures r.Ok? <==> nd.step.Some? && nd.step.value in table && nd.octave.Some?
    ensures r.Ok? ==> r.value == Pitch(PitchClass(table, nd.step.value, AltOrZero(nd)), nd.octave.value)
  {
    match nd.step
    case None => Err(MissingStep)
    case Some(step) =>
      if step !in table then Err(UnknownStep)
      else match nd.octave
        case None => Err(MissingOctave)
        case Some(octave) => Ok(Pitch(PitchClass(table, step, AltOrZero(nd)), octave))
  }

  function AltOrZero(nd: NoteData): int
  {
    match nd.alt
    case None => 0
    case Some(a) => a
  }

  function DurationOrZero(d: Option<nat>): nat
  {
    match d
    case None => 0
    case Some(n) => n
  }

  /** A note child: rests fill time, pitched notes are stored, unpitched notes are only read. */
  function NoteStep(es: EventState, parts: seq<Part>, id: string, e: NoteElem, largest: nat,
                    table: map<string, int>): Result<EventState>
  {
    var nd := GetNoteData(e);
    var duration := DurationOrZero(nd.duration);
    match ScaledLength(parts, id, duration, largest)
    case Err(x) => Err(x)
    case Ok(length) =>
      match nd.kind
      case None => Err(MissingType)
      case Some(RestType) =>
        Ok(EventState(RestFrom(es.grid, es.next, es.next + length), es.current, es.next + length))
      case Some(UnpitchedType) => Ok(es)
      case Some(PitchType) =>
        var current := if nd.isChord then es.current else es.next;
        var next := if nd.isChord then es.next else es.next + length;
        match PitchOf(nd, table)
        case Err(x) => Err(x)
        case Ok(pitch) =>
          if duration == 0 then Ok(EventState(es.grid, current, next))
          else if current < 0 then Err(NegativeCursor)
          else if current > |es.grid| || (length == 0 && current == |es.grid|) then Err(CursorBeyondGrid)
          else Ok(EventState(PitchStored(es.grid, pitch, current, length), current, next))
  }

  /** One child of a part entry; forward and backup move the cursor, anything else is passed over. */
  function EventStep(es: EventState, parts: seq<Part>, id: string, c: Child, largest: nat,
                     table: map<string, int>): Result<EventState>
  {
    match c
    case NoteChild(e) => NoteStep(es, parts, id, e, largest, table)
    case ForwardChild(d) =>
      if d.None? then Err(MissingDuration)
      else (match ScaledLength(parts, id, d.value, largest)
        case Err(x) => Err(x)
        case Ok(length) => Ok(es.(next := es.next + length)))
    case BackupChild(d) =>
      if d.None? then Err(MissingDuration)
      else (match ScaledLength(parts, id, d.value, largest)
        case Err(x) => Err(x)
        case Ok(length) => Ok(es.(next := es.next - length)))
    case AttributesChild(_) => Ok(es)
    case OtherChild => Ok(es)
  }

  /** The children of one part entry, in document order. */
  function Events(es: EventState, parts: seq<Part>, id: string, cs: seq<Child>, largest: nat,
                  table: map<string, int>): Result<EventState>
    decreases |cs|
  {
    if cs == [] then Ok(es)
    else match EventStep(es, parts, id, cs[0], largest, table)
      case Err(x) => Err(x)
      case Ok(es') => Events(es', parts, id, cs[1..], largest, table)
  }

  /**
   * The part list after the entry's divisions are applied: every record with the entry's id
   * takes the first divisions of the entry's first attributes child, when there is one; every
   * other field and every other record stays as it was.
   */
  function PartsWithEntryDivisions(parts: seq<Part>, entry: PartEntry): (r: seq<Part>)
    ensures |r| == |parts|
    ensures forall i :: 0 <= i < |parts| ==>
      && r[i].id == parts[i].id
      && r[i].name == parts[i].name
      && r[i].nextInterval == parts[i].nextInterval
    ensures forall i :: 0 <= i < |parts| ==>
      r[i].div == (if parts[i].id == entry.id && AppliedDivisions(entry.children).Some?
                   then AppliedDivisions(entry.children) else parts[i].div)
  {
    match AppliedDivisions(entry.children)
    case None => parts
    case Some(d) => WithDivisions(parts, entry.id, d)
  }

  /** One part entry of a measure. */
  function PartStep(ws: WalkState, entry: PartEntry, largest: nat, table: map<string, int>): Result<WalkState>
  {
    match GetPart(ws.parts, entry.id)
    case None => Err(UnknownPart)
    case Some(i) =>
      var parts := PartsWithEntryDivisions(ws.parts, entry);
      match Events(EventState(ws.grid, ws.current, ws.parts[i].nextInterval), parts, entry.id,
                   entry.children, largest, table)
      case Err(x) => Err(x)
      case Ok(es) => Ok(WalkState(parts[i := parts[i].(nextInterval := es.next)], es.grid, es.current))
  }

  /** The part entries of one measure, in document order. */
  function Entries(ws: WalkState, entries: seq<PartEntry>, largest: nat, table: map<string, int>): Result<WalkState>
    decreases |entries|
  {
    if entries == [] then Ok(ws)
    else match PartStep(ws, entries[0], largest, table)
      case Err(x) => Err(x)
      case Ok(ws') => Entries(ws', entries[1..], largest, table)
  }

  /** The measures of the score, in document order. */
  function Measures(ws: WalkState, ms: seq<Measure>, largest: nat, table: map<string, int>): Result<WalkState>
    decreases |ms|
  {
    if ms == [] then Ok(ws)
    else match Entries(ws, ms[0].parts, largest, table)
      case Err(x) => Err(x)
      case Ok(ws') => Measures(ws', ms[1..], largest, table)
  }

  /**
   * parse_file on a document whose root tag is `root` and whose time-wise tree is `tree`
   * (for a part-wise document, the tree the conversion produced).
   */
  function Parse(root: string, tree: Score, table: map<string, int>): Result<Output>
  {
    match CheckRoot(root)
    case Err(x) => Err(x)
    case Ok(_) =>
      var largest := LargestDivisor(AllDivisions(tree));
      match Measures(WalkState(DeclaredParts(tree.partList), [], 0), tree.measures, largest, table)
      case Err(x) => Err(x)
      case Ok(ws) => Ok(Output(largest, ws.grid))
  }
}
