/** What the walk promises, stated over the Walk functions. */
module WalkProperties {
  import opened Base
  import opened Notes
  import opened Grid
  import opened Registry
  import opened Tree
  import opened Divisions
  import opened Walk

  /** The note is read as pitched. */
  predicate IsPitched(e: NoteElem)
  {
    GetNoteData(e).kind == Some(PitchType)
  }

  /** A chord member leaves both cursors where they were: it sounds at the last onset's interval. */
  lemma ChordNoteKeepsCursors(es: EventState, parts: seq<Part>, id: string, e: NoteElem, largest: nat,
                              table: map<string, int>)
    requires e.chord && IsPitched(e)
    requires NoteStep(es, parts, id, e, largest, table).Ok?
    ensures var es' := NoteStep(es, parts, id, e, largest, table).value;
      es'.next == es.next && es'.current == es.current
  {
  }

  /** A pitched note that is not a chord member starts at next_interval and moves it on by its length. */
  lemma NoteOnsetMovesCursors(es: EventState, parts: seq<Part>, id: string, e: NoteElem, largest: nat,
                              table: map<string, int>)
    requires !e.chord && IsPitched(e)
    requires NoteStep(es, parts, id, e, largest, table).Ok?
    ensures var nd := GetNoteData(e);
      var length := ScaledLength(parts, id, DurationOrZero(nd.duration), largest);
      var es' := NoteStep(es, parts, id, e, largest, table).value;
      length.Ok? && es'.current == es.next && es'.next == es.next + length.value
  {
  }

  /** A rest moves next_interval on by its length and only grows the grid. */
  lemma RestMovesCursor(es: EventState, parts: seq<Part>, id: string, e: NoteElem, largest: nat,
                        table: map<string, int>)
    requires e.rest
    requires NoteStep(es, parts, id, e, largest, table).Ok?
    ensures var nd := GetNoteData(e);
      var length := ScaledLength(parts, id, DurationOrZero(nd.duration), largest);
      var es' := NoteStep(es, parts, id, e, largest, table).value;
      && length.Ok?
      && es'.next == es.next + length.value
      && es'.current == es.current
      && |es'.grid| >= |es.grid|
      && es'.grid[..|es.grid|] == es.grid
      && forall k :: |es.grid| <= k < |es'.grid| ==> es'.grid[k] == EmptyInterval
  {
    var nd := GetNoteData(e);
    var length := ScaledLength(parts, id, DurationOrZero(nd.duration), largest).value;
    RestFromShape(es.grid, es.next, es.next + length);
  }

  /** An unpitched note is read (and its duration scaled) but moves nothing and writes nothing. */
  lemma UnpitchedMovesNothing(es: EventState, parts: seq<Part>, id: string, e: NoteElem, largest: nat,
                              table: map<string, int>)
    requires GetNoteData(e).kind == Some(UnpitchedType)
    requires NoteStep(es, parts, id, e, largest, table).Ok?
    ensures NoteStep(es, parts, id, e, largest, table).value == es
  {
  }

  /** A pitched note of duration 0 (a grace note) moves the cursors but never touches the grid. */
  lemma GraceNoteLeavesGrid(es: EventState, parts: seq<Part>, id: string, e: NoteElem, largest: nat,
                            table: map<string, int>)
    requires IsPitched(e) && DurationOrZero(e.duration) == 0
    requires NoteStep(es, parts, id, e, largest, table).Ok?
    ensures NoteStep(es, parts, id, e, largest, table).value.grid == es.grid
  {
  }

  /** Forward moves next_interval on by its length; backup moves it back; neither writes. */
  lemma ForwardBackupMoveCursor(es: EventState, parts: seq<Part>, id: string, d: nat, largest: nat,
                                table: map<string, int>)
    requires ScaledLength(parts, id, d, largest).Ok?
    ensures var length := ScaledLength(parts, id, d, largest).value;
      && EventStep(es, parts, id, ForwardChild(Some(d)), largest, table) == Ok(es.(next := es.next + length))
      && EventStep(es, parts, id, BackupChild(Some(d)), largest, table) == Ok(es.(next := es.next - length))
  {
  }

  /** A backup of the same duration undoes a forward exactly. */
  lemma BackupUndoesForward(es: EventState, parts: seq<Part>, id: string, d: nat, largest: nat,
                            table: map<string, int>)
    requires ScaledLength(parts, id, d, largest).Ok?
    ensures Events(es, parts, id, [ForwardChild(Some(d)), BackupChild(Some(d))], largest, table) == Ok(es)
  {
    var length := ScaledLength(parts, id, d, largest).value;
    var es1 := es.(next := es.next + length);
    assert EventStep(es, parts, id, ForwardChild(Some(d)), largest, table) == Ok(es1);
    assert EventStep(es1, parts, id, BackupChild(Some(d)), largest, table) == Ok(es);
    var cs := [ForwardChild(Some(d)), BackupChild(Some(d))];
    assert cs[1..] == [BackupChild(Some(d))] && cs[1..][1..] == [];
    assert Events(es1, parts, id, cs[1..], largest, table) == Ok(es);
  }

  /** The child writes a pitch into the grid: a pitched note with a positive duration. */
  predicate StoresPitch(c: Child)
  {
    c.NoteChild? && IsPitched(c.note) && DurationOrZero(c.note.duration) > 0
  }

  /** A stored pitch is store_pitch at the new current_interval, which the grid reaches. */
  lemma StoredPitchGrid(es: EventState, parts: seq<Part>, id: string, e: NoteElem, largest: nat,
                        table: map<string, int>)
    requires StoresPitch(NoteChild(e))
    requires NoteStep(es, parts, id, e, largest, table).Ok?
    ensures var nd := GetNoteData(e);
      var length := ScaledLength(parts, id, DurationOrZero(nd.duration), largest).value;
      var es' := NoteStep(es, parts, id, e, largest, table).value;
      && 0 <= es'.current <= |es.grid|
      && (length > 0 || es'.current < |es.grid|)
      && es'.grid == PitchStored(es.grid, PitchOf(nd, table).value, es'.current, length)
  {
  }

  /** A child that stores no pitch keeps the old intervals as they were and adds only empty ones. */
  lemma UnstoredChildGrid(es: EventState, parts: seq<Part>, id: string, c: Child, largest: nat,
                          table: map<string, int>)
    requires !StoresPitch(c)
    requires EventStep(es, parts, id, c, largest, table).Ok?
    ensures var es' := EventStep(es, parts, id, c, largest, table).value;
      && |es'.grid| >= |es.grid|
      && es'.grid[..|es.grid|] == es.grid
      && forall k :: |es.grid| <= k < |es'.grid| ==> es'.grid[k] == EmptyInterval
  {
    var es' := EventStep(es, parts, id, c, largest, table).value;
    if c.NoteChild? && GetNoteData(c.note).kind == Some(RestType) {
      var length := ScaledLength(parts, id, DurationOrZero(GetNoteData(c.note).duration), largest).value;
      assert es'.grid == RestFrom(es.grid, es.next, es.next + length);
      RestFromShape(es.grid, es.next, es.next + length);
    } else {
      assert es'.grid == es.grid;
    }
  }

  /**
   * A stored pitch sounds in exactly [current, current + length) of the new current_interval,
   * adds exactly one attack, at current, and changes nothing else.
   */
  lemma StoredChildGrid(es: EventState, parts: seq<Part>, id: string, c: Child, largest: nat,
                        table: map<string, int>)
    requires StoresPitch(c)
    requires EventStep(es, parts, id, c, largest, table).Ok?
    ensures var es' := EventStep(es, parts, id, c, largest, table).value;
      var nd := GetNoteData(c.note);
      var length := ScaledLength(parts, id, DurationOrZero(nd.duration), largest).value;
      var pitch := PitchOf(nd, table).value;
      && 0 <= es'.current < |es'.grid|
      && |es'.grid| == Max(|es.grid|, es'.current + length)
      && forall k :: 0 <= k < |es'.grid| ==>
        && es'.grid[k].attacks == (if k < |es.grid| then es.grid[k].attacks else 0)
                                  + (if k == es'.current then 1 else 0)
        && es'.grid[k].pitches == (if k < |es.grid| then es.grid[k].pitches else [])
                                  + (if es'.current <= k < es'.current + length then [pitch] else [])
  {
    var nd := GetNoteData(c.note);
    var length := ScaledLength(parts, id, DurationOrZero(nd.duration), largest).value;
    var pitch := PitchOf(nd, table).value;
    var current := NoteStep(es, parts, id, c.note, largest, table).value.current;
    StoredPitchGrid(es, parts, id, c.note, largest, table);
    StorePitchShape(es.grid, pitch, current, length);
  }

  /**
   * What one child does to the grid: the grid never shrinks and keeps its old intervals' contents,
   * except that a stored pitch sounds in every interval of [current, current + length) and adds
   * exactly one attack, at current. Chord members add their attack like any other stored pitch.
   */
  lemma EventGridEffect(es: EventState, parts: seq<Part>, id: string, c: Child, largest: nat,
                        table: map<string, int>)
    requires EventStep(es, parts, id, c, largest, table).Ok?
    ensures var es' := EventStep(es, parts, id, c, largest, table).value;
      && |es'.grid| >= |es.grid|
      && (!StoresPitch(c) ==>
            es'.grid[..|es.grid|] == es.grid
            && forall k :: |es.grid| <= k < |es'.grid| ==> es'.grid[k] == EmptyInterval)
      && (StoresPitch(c) ==>
            var nd := GetNoteData(c.note);
            var length := ScaledLength(parts, id, DurationOrZero(nd.duration), largest).value;
            var pitch := PitchOf(nd, table).value;
            && 0 <= es'.current < |es'.grid|
            && |es'.grid| == Max(|es.grid|, es'.current + length)
            && forall k :: 0 <= k < |es'.grid| ==>
              && es'.grid[k].attacks == (if k < |es.grid| then es.grid[k].attacks else 0)
                                        + (if k == es'.current then 1 else 0)
              && es'.grid[k].pitches == (if k < |es.grid| then es.grid[k].pitches else [])
                                        + (if es'.current <= k < es'.current + length then [pitch] else []))
  {
    if StoresPitch(c) {
      StoredChildGrid(es, parts, id, c, largest, table);
    } else {
      UnstoredChildGrid(es, parts, id, c, largest, table);
    }
  }

  /** The ids, names and number of the part records never change; only divisions and cursors do. */
  predicate SameParts(parts: seq<Part>, parts': seq<Part>)
  {
    |parts'| == |parts| &&
    forall i :: 0 <= i < |parts| ==> parts'[i].id == parts[i].id && parts'[i].name == parts[i].name
  }

  /**
   * One part entry loads the cursor of the first record with its id, walks its children from
   * there, and saves the final cursor into that record; every other record keeps its cursor.
   */
  lemma PartStepCarriesCursor(ws: WalkState, entry: PartEntry, largest: nat, table: map<string, int>)
    requires PartStep(ws, entry, largest, table).Ok?
    ensures GetPart(ws.parts, entry.id).Some?
    ensures var i := GetPart(ws.parts, entry.id).value;
      var ws' := PartStep(ws, entry, largest, table).value;
      var events := Events(EventState(ws.grid, ws.current, ws.parts[i].nextInterval),
                           PartsWithEntryDivisions(ws.parts, entry), entry.id, entry.children, largest, table);
      && events.Ok?
      && ws'.parts[i].nextInterval == events.value.next
      && ws'.grid == events.value.grid
      && ws'.current == events.value.current
      && SameParts(ws.parts, ws'.parts)
      && forall j :: 0 <= j < |ws.parts| && j != i ==> ws'.parts[j].nextInterval == ws.parts[j].nextInterval
  {
  }

  /** current_interval is not reset between part entries: a leading chord member sounds at the previous onset. */
  lemma ChordReusesOnsetAcrossParts(ws: WalkState, id: string, e: NoteElem, largest: nat, table: map<string, int>)
    requires e.chord && IsPitched(e)
    requires PartStep(ws, PartEntry(id, [NoteChild(e)]), largest, table).Ok?
    ensures PartStep(ws, PartEntry(id, [NoteChild(e)]), largest, table).value.current == ws.current
  {
    var i := GetPart(ws.parts, id).value;
    var parts := PartsWithEntryDivisions(ws.parts, PartEntry(id, [NoteChild(e)]));
    var es := EventState(ws.grid, ws.current, ws.parts[i].nextInterval);
    ChordNoteKeepsCursors(es, parts, id, e, largest, table);
    var cs := [NoteChild(e)];
    assert cs[1..] == [];
    assert Events(es, parts, id, cs, largest, table) == EventStep(es, parts, id, NoteChild(e), largest, table);
  }

  lemma {:induction false} EntriesKeepParts(ws: WalkState, entries: seq<PartEntry>, largest: nat,
                                            table: map<string, int>)
    requires Entries(ws, entries, largest, table).Ok?
    ensures SameParts(ws.parts, Entries(ws, entries, largest, table).value.parts)
    decreases |entries|
  {
    if entries != [] {
      var ws' := PartStep(ws, entries[0], largest, table).value;
      PartStepCarriesCursor(ws, entries[0], largest, table);
      EntriesKeepParts(ws', entries[1..], largest, table);
    }
  }

  /** The walk never adds, removes, reorders or renames a part record. */
  lemma {:induction false} MeasuresKeepParts(ws: WalkState, ms: seq<Measure>, largest: nat,
                                             table: map<string, int>)
    requires Measures(ws, ms, largest, table).Ok?
    ensures SameParts(ws.parts, Measures(ws, ms, largest, table).value.parts)
    decreases |ms|
  {
    if ms != [] {
      EntriesKeepParts(ws, ms[0].parts, largest, table);
      var ws' := Entries(ws, ms[0].parts, largest, table).value;
      MeasuresKeepParts(ws', ms[1..], largest, table);
    }
  }

  /** A document whose root is neither score form is refused, with no grid. */
  lemma UnknownRootRefused(root: string, tree: Score, table: map<string, int>)
    requires root != "score-partwise" && root != "score-timewise"
    ensures Parse(root, tree, table) == Err(UnsupportedFormat)
  {
  }

  /** The resolution a successful parse reports is the largest divisions value in the score, or 1. */
  lemma ParseReportsLargestDivisor(root: string, tree: Score, table: map<string, int>)
    requires Parse(root, tree, table).Ok?
    ensures var l := Parse(root, tree, table).value.largestDivisor;
      && l >= 1
      && (forall d :: d in AllDivisions(tree) ==> d <= l)
      && (l == 1 || l in AllDivisions(tree))
  {
    LargestDivisorIsMaximum(AllDivisions(tree));
  }

  /** Every divisions value held by a part record is one of the values S. */
  ghost predicate DivisionsIn(parts: seq<Part>, S: seq<nat>)
  {
    forall i :: 0 <= i < |parts| && parts[i].div.Some? ==> parts[i].div.value in S
  }

  lemma PartStepKeepsDivisionsIn(ws: WalkState, entry: PartEntry, largest: nat, table: map<string, int>,
                                 S: seq<nat>)
    requires DivisionsIn(ws.parts, S)
    requires forall d :: d in ChildDivisions(entry.children) ==> d in S
    requires PartStep(ws, entry, largest, table).Ok?
    ensures DivisionsIn(PartStep(ws, entry, largest, table).value.parts, S)
  {
    if AppliedDivisions(entry.children).Some? {
      AppliedDivisionsScanned(entry.children);
    }
  }

  lemma {:induction false} EntriesKeepDivisionsIn(ws: WalkState, entries: seq<PartEntry>, largest: nat,
                                                  table: map<string, int>, S: seq<nat>)
    requires DivisionsIn(ws.parts, S)
    requires forall d :: d in EntryDivisions(entries) ==> d in S
    requires Entries(ws, entries, largest, table).Ok?
    ensures DivisionsIn(Entries(ws, entries, largest, table).value.parts, S)
    decreases |entries|
  {
    if entries != [] {
      PartStepKeepsDivisionsIn(ws, entries[0], largest, table, S);
      var ws' := PartStep(ws, entries[0], largest, table).value;
      EntriesKeepDivisionsIn(ws', entries[1..], largest, table, S);
    }
  }

  /**
   * Over any run of measures, a part record ends with a divisions value from S whenever it starts
   * with one and every value the scan sees in those measures is in S.
   */
  lemma {:induction false} MeasuresKeepDivisionsIn(ws: WalkState, ms: seq<Measure>, largest: nat,
                                                   table: map<string, int>, S: seq<nat>)
    requires DivisionsIn(ws.parts, S)
    requires forall d :: d in MeasureDivisions(ms) ==> d in S
    requires Measures(ws, ms, largest, table).Ok?
    ensures DivisionsIn(Measures(ws, ms, largest, table).value.parts, S)
    decreases |ms|
  {
    if ms != [] {
      EntriesKeepDivisionsIn(ws, ms[0].parts, largest, table, S);
      var ws' := Entries(ws, ms[0].parts, largest, table).value;
      MeasuresKeepDivisionsIn(ws', ms[1..], largest, table, S);
    }
  }

  /** The walk starts from declared parts, which hold no divisions, so the invariant holds at the start. */
  lemma DeclaredPartsHoldNoDivisions(decls: seq<ScorePart>, S: seq<nat>)
    ensures DivisionsIn(DeclaredParts(decls), S)
  {
  }

  /**
   * With the part's divisions at most the largest divisor, a positive duration covers at least
   * one interval.
   */
  lemma PositiveDurationCoversAnInterval(parts: seq<Part>, id: string, duration: nat, largest: nat,
                                         S: seq<nat>)
    requires DivisionsIn(parts, S)
    requires forall d :: d in S ==> d <= largest
    requires duration > 0
    requires ScaledLength(parts, id, duration, largest).Ok?
    ensures ScaledLength(parts, id, duration, largest).value >= 1
  {
    var i := GetPart(parts, id).value;
    var div := parts[i].div.value;
    assert div <= largest;
  }

  /**
   * set_part_div before the children loop: afterwards get_part_div of the entry's id answers the
   * entry's applied divisions, both for the records the children are scaled against and for the
   * records the entry leaves behind; without an attributes divisions the answer is unchanged, and
   * no other id ever sees a change.
   */
  lemma PartStepAppliesDivisions(ws: WalkState, entry: PartEntry, largest: nat, table: map<string, int>)
    requires PartStep(ws, entry, largest, table).Ok?
    ensures var parts := PartsWithEntryDivisions(ws.parts, entry);
      var ws' := PartStep(ws, entry, largest, table).value;
      && GetPartDiv(ws'.parts, entry.id) == GetPartDiv(parts, entry.id)
      && (AppliedDivisions(entry.children).Some? ==>
            GetPartDiv(parts, entry.id) == Some(AppliedDivisions(entry.children)))
      && (AppliedDivisions(entry.children).None? ==>
            GetPartDiv(parts, entry.id) == GetPartDiv(ws.parts, entry.id))
      && forall other :: other != entry.id ==> GetPartDiv(ws'.parts, other) == GetPartDiv(ws.parts, other)
  {
    var parts := PartsWithEntryDivisions(ws.parts, entry);
    var ws' := PartStep(ws, entry, largest, table).value;
    PartStepCarriesCursor(ws, entry, largest, table);
    GetPartSeesOnlyIds(ws.parts, parts, entry.id);
    GetPartSeesOnlyIds(parts, ws'.parts, entry.id);
    forall other | other != entry.id
      ensures GetPartDiv(ws'.parts, other) == GetPartDiv(ws.parts, other)
    {
      GetPartSeesOnlyIds(ws.parts, parts, other);
      GetPartSeesOnlyIds(parts, ws'.parts, other);
    }
  }

  /** The grid only accumulates: it never shrinks, no attack count drops, no pitch list loses an entry. */
  predicate Accumulates(g: seq<Interval>, g': seq<Interval>)
  {
    |g'| >= |g| &&
    forall k :: 0 <= k < |g| ==> g'[k].attacks >= g[k].attacks && g[k].pitches <= g'[k].pitches
  }

  /** Every pitch stored in the grid has a pitch class in [0, 11]. */
  predicate ClassesInRange(g: seq<Interval>)
  {
    forall k, j :: 0 <= k < |g| && 0 <= j < |g[k].pitches| ==> 0 <= g[k].pitches[j].pitchClass < 12
  }

  lemma AccumulatesTransitive(a: seq<Interval>, b: seq<Interval>, c: seq<Interval>)
    requires Accumulates(a, b) && Accumulates(b, c)
    ensures Accumulates(a, c)
  {
    forall k | 0 <= k < |a|
      ensures a[k].pitches <= c[k].pitches
    {
      assert a[k].pitches == b[k].pitches[..|a[k].pitches|];
      assert b[k].pitches == c[k].pitches[..|b[k].pitches|];
    }
  }

  /** One child only accumulates into the grid, and every pitch it stores has a class in [0, 11]. */
  lemma EventKeepsGrid(es: EventState, parts: seq<Part>, id: string, c: Child, largest: nat,
                       table: map<string, int>)
    requires EventStep(es, parts, id, c, largest, table).Ok?
    ensures var es' := EventStep(es, parts, id, c, largest, table).value;
      && Accumulates(es.grid, es'.grid)
      && (ClassesInRange(es.grid) ==> ClassesInRange(es'.grid))
  {
    var es' := EventStep(es, parts, id, c, largest, table).value;
    EventGridEffect(es, parts, id, c, largest, table);
    if StoresPitch(c) {
      var pitch := PitchOf(GetNoteData(c.note), table).value;
      assert 0 <= pitch.pitchClass < 12;
    } else {
      forall k | 0 <= k < |es.grid|
        ensures es'.grid[k] == es.grid[k]
      {
        assert es'.grid[..|es.grid|][k] == es.grid[k];
      }
    }
  }

  /** All children of a part entry only accumulate into the grid and keep the classes in range. */
  lemma {:induction false} EventsKeepGrid(es: EventState, parts: seq<Part>, id: string, cs: seq<Child>,
                                          largest: nat, table: map<string, int>)
    requires Events(es, parts, id, cs, largest, table).Ok?
    ensures var es' := Events(es, parts, id, cs, largest, table).value;
      && Accumulates(es.grid, es'.grid)
      && (ClassesInRange(es.grid) ==> ClassesInRange(es'.grid))
    decreases |cs|
  {
    if cs != [] {
      var es1 := EventStep(es, parts, id, cs[0], largest, table).value;
      EventKeepsGrid(es, parts, id, cs[0], largest, table);
      EventsKeepGrid(es1, parts, id, cs[1..], largest, table);
      AccumulatesTransitive(es.grid, es1.grid, Events(es, parts, id, cs, largest, table).value.grid);
    }
  }

  /** The part entries of a measure only accumulate into the grid and keep the classes in range. */
  lemma {:induction false} EntriesKeepGrid(ws: WalkState, entries: seq<PartEntry>, largest: nat,
                                           table: map<string, int>)
    requires Entries(ws, entries, largest, table).Ok?
    ensures var ws' := Entries(ws, entries, largest, table).value;
      && Accumulates(ws.grid, ws'.grid)
      && (ClassesInRange(ws.grid) ==> ClassesInRange(ws'.grid))
    decreases |entries|
  {
    if entries != [] {
      var ws1 := PartStep(ws, entries[0], largest, table).value;
      var i := GetPart(ws.parts, entries[0].id).value;
      EventsKeepGrid(EventState(ws.grid, ws.current, ws.parts[i].nextInterval),
                     PartsWithEntryDivisions(ws.parts, entries[0]), entries[0].id, entries[0].children,
                     largest, table);
      EntriesKeepGrid(ws1, entries[1..], largest, table);
      AccumulatesTransitive(ws.grid, ws1.grid, Entries(ws, entries, largest, table).value.grid);
    }
  }

  /** The measures of a score only accumulate into the grid and keep the classes in range. */
  lemma {:induction false} MeasuresKeepGrid(ws: WalkState, ms: seq<Measure>, largest: nat,
                                            table: map<string, int>)
    requires Measures(ws, ms, largest, table).Ok?
    ensures var ws' := Measures(ws, ms, largest, table).value;
      && Accumulates(ws.grid, ws'.grid)
      && (ClassesInRange(ws.grid) ==> ClassesInRange(ws'.grid))
    decreases |ms|
  {
    if ms != [] {
      var ws1 := Entries(ws, ms[0].parts, largest, table).value;
      EntriesKeepGrid(ws, ms[0].parts, largest, table);
      MeasuresKeepGrid(ws1, ms[1..], largest, table);
      AccumulatesTransitive(ws.grid, ws1.grid, Measures(ws, ms, largest, table).value.grid);
    }
  }

  /** Every pitch in the grid parse_file returns has a pitch class in [0, 11]. */
  lemma ParseClassesInRange(root: string, tree: Score, table: map<string, int>)
    requires Parse(root, tree, table).Ok?
    ensures ClassesInRange(Parse(root, tree, table).value.intervals)
  {
    var largest := LargestDivisor(AllDivisions(tree));
    MeasuresKeepGrid(WalkState(DeclaredParts(tree.partList), [], 0), tree.measures, largest, table);
  }

  /** The records an entry's children are scaled against keep their divisions values in S. */
  lemma EntryRecordsDivisionsIn(parts: seq<Part>, entry: PartEntry, S: seq<nat>)
    requires DivisionsIn(parts, S)
    requires forall d :: d in ChildDivisions(entry.children) ==> d in S
    ensures DivisionsIn(PartsWithEntryDivisions(parts, entry), S)
  {
    if AppliedDivisions(entry.children).Some? {
      AppliedDivisionsScanned(entry.children);
    }
  }

  /**
   * Anywhere in the walk of parse_file (after the first k measures and the first j part entries
   * of measure k) every part's divisions value is one the division scan saw.
   */
  lemma DivisionsScannedMidWalk(tree: Score, table: map<string, int>, largest: nat, k: nat, j: nat,
                                ws1: WalkState, ws2: WalkState)
    requires k < |tree.measures| && j <= |tree.measures[k].parts|
    requires Measures(WalkState(DeclaredParts(tree.partList), [], 0), tree.measures[..k], largest, table) == Ok(ws1)
    requires Entries(ws1, tree.measures[k].parts[..j], largest, table) == Ok(ws2)
    ensures DivisionsIn(ws2.parts, AllDivisions(tree))
  {
    var S := AllDivisions(tree);
    DeclaredPartsHoldNoDivisions(tree.partList, S);
    MeasurePrefixDivisions(tree.measures, k);
    MeasuresKeepDivisionsIn(WalkState(DeclaredParts(tree.partList), [], 0), tree.measures[..k], largest, table, S);
    MeasureDivisionsAt(tree.measures, k);
    EntryPrefixDivisions(tree.measures[k].parts, j);
    EntriesKeepDivisionsIn(ws1, tree.measures[k].parts[..j], largest, table, S);
  }

  /**
   * The point of find_largest_div: wherever the walk of parse_file scales a positive duration
   * (in part entry j of measure k), the length covers at least one interval.
   */
  lemma WalkScalesPositively(tree: Score, table: map<string, int>, k: nat, j: nat, ws1: WalkState,
                             ws2: WalkState, duration: nat)
    requires k < |tree.measures| && j < |tree.measures[k].parts|
    requires Measures(WalkState(DeclaredParts(tree.partList), [], 0), tree.measures[..k],
                      LargestDivisor(AllDivisions(tree)), table) == Ok(ws1)
    requires Entries(ws1, tree.measures[k].parts[..j], LargestDivisor(AllDivisions(tree)), table) == Ok(ws2)
    requires duration > 0
    requires ScaledLength(PartsWithEntryDivisions(ws2.parts, tree.measures[k].parts[j]),
                          tree.measures[k].parts[j].id, duration, LargestDivisor(AllDivisions(tree))).Ok?
    ensures ScaledLength(PartsWithEntryDivisions(ws2.parts, tree.measures[k].parts[j]),
                         tree.measures[k].parts[j].id, duration, LargestDivisor(AllDivisions(tree))).value >= 1
  {
    var S := AllDivisions(tree);
    var entry := tree.measures[k].parts[j];
    DivisionsScannedMidWalk(tree, table, LargestDivisor(S), k, j, ws1, ws2);
    EntryDivisionsAt(tree.measures[k].parts, j);
    MeasureDivisionsAt(tree.measures, k);
    EntryRecordsDivisionsIn(ws2.parts, entry, S);
    LargestDivisorIsMaximum(S);
    PositiveDurationCoversAnInterval(PartsWithEntryDivisions(ws2.parts, entry), entry.id, duration,
                                     LargestDivisor(S), S);
  }
}
