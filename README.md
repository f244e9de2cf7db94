# cochonut score parser, modelled in Dafny

This project models the core of cochonut's MusicXML parser (`src/parser.py`). The parser turns a
time-wise score into a grid of equal-length time slices called intervals. Each interval holds a
count of note onsets (`attacks`) and the list of pitches (`pitch_class`, `octave`) sounding in it.

The model follows the parser's structure:

- **Division scan** (`Divisions`). `find_largest_div` keeps a running maximum over every
  `measure/part/attributes/divisions` value, starting at 1. That value fixes the grid resolution.
- **Part registry** (`Registry`). `get_part_list` builds one record `{id, name, div, next_interval}`
  per declared part. `div` starts unset and `next_interval` starts at 0. `get_part` and
  `get_part_div` return the first record with an id. `set_part_div` updates every record with
  that id, in place. The record list is a class (`PartRegistry`) whose methods update it.
- **Interval grid** (`Grid`). `store_rest` and `store_pitch` loop over
  `[start, start + length)`. They append ONE empty interval per step whenever the index is not yet in
  the grid. `store_pitch` also appends the pitch at each index and adds one attack at `start`.
  The grid is a class (`IntervalGrid`) whose methods run those loops.
- **Note reader and pitch class** (`Notes`). `get_note_data` reads an abstract `note` element. The
  pitch class is `(table[step] + alter) % 12`, where `table` is the step-to-class map passed to
  `parse_file`. For a positive divisor, Python's `%` and Dafny's `%` agree.
- **Score walker**. `Walk` gives the walk of `parse_file` as functions over values.
  `Parser` holds the walk as methods with nested loops over measures, part entries and children.
  Those methods update the registry and grid objects in place, and `Parser.ParseFile` is proved to
  return exactly what `Walk.Parse` computes. `WalkProperties` and `Scenarios` hold the lemmas about
  the walk.

Walk rules, as the code has them:

- For each part entry, the walker loads the part's `next_interval`. It applies the first
  `divisions` of the entry's first `attributes` child before any event.
- An event's length is `duration * largest_divisor / div`, rounded down. A note without a
  duration counts as duration 0.
- A rest calls `store_rest` and moves `next_interval` on by its length.
- A pitched note that is not a chord member sets `current_interval` to `next_interval`, then moves
  `next_interval` on by its length. A chord member moves neither cursor.
- A pitched note with a positive duration is stored at `current_interval`. A pitched note with
  duration 0 is not stored.
- An unpitched note moves nothing. A forward adds its length to `next_interval`; a backup
  subtracts it.
- At the end of the entry, the final `next_interval` is saved into the part's record.
- `current_interval` is a single variable for the whole walk. It is never reset between parts or
  measures.

Errors stop the parse, and no grid is returned. The model turns each of the parser's exceptions
into an explicit `Err`, checked in the order in which the parser would meet it:

- an unknown root tag;
- a part id missing from the part list;
- divisions never set, or set to 0;
- a note with no type;
- a missing step, an unknown step or a missing octave;
- a forward or backup without a duration.

Four behaviours of the code are easy to miss:

- **Chord members add attacks.** `store_pitch` adds one attack at its start for every stored
  pitch, chord members included (`src/parser.py:118`), so a two-note chord has `attacks == 2`
  (`Scenarios.ChordOfTwo`).
- **Only the first `attributes` child applies divisions.** The walk reads the first `divisions` of
  the first `attributes` child of each part entry (`src/parser.py:210-216`); later `attributes`
  children of the same entry are not read, although the scan at `src/parser.py:92` sees them.
- **A negative cursor fails only when a pitch is stored.** A backup can drive `next_interval`
  below zero (`src/parser.py:340`). `store_rest` with a negative start appends nothing below index 0
  (`src/parser.py:102-104`), and the model keeps that. Only where `store_pitch` would index the grid
  with a negative number (`src/parser.py:116`, where Python would wrap around) does the model fail,
  with `NegativeCursor`.
- **Storing past the end of the grid.** `store_rest` and `store_pitch` append one interval per
  step (`src/parser.py:103-104`, `114-115`); they do not first grow the grid to `start`. After a
  `forward` past the end, `store_rest` therefore grows the grid by `length` only
  (`Grid.StoreRestPastGrid`, `Scenarios.RestAfterForward`), and calling it twice on the same range
  grows it twice (`Grid.StoreRestPastGridRepeats`). `store_pitch` there raises `IndexError` at
  `src/parser.py:116`, which the model reports as `CursorBeyondGrid` (`Scenarios.NoteAfterForward`).
  The same error covers a zero-length store at the end of the grid (`src/parser.py:118`).

## Model

| member | source | states |
|---|---|---|
| `Notes.GetNoteData` | src/parser.py:11-52 | `isChord` iff a `chord` child exists; the type is rest iff `rest` exists, unpitched iff `unpitched` but no `rest`, pitch iff `pitch` but neither of the others, and absent iff none exists; step, octave and alter are present exactly when the `pitch` element and that child exist; the duration exactly when `duration` exists |
| `Notes.PitchClass` | src/parser.py:289-297 | the pitch class lies in [0, 11] and is congruent to the table's class of the step plus the alteration, modulo 12 |
| `Grid.RestFrom` | src/parser.py:101-104 | the definition of the `store_rest` loop, one step per index with at most one append; its properties are stated by `Grid.RestFromShape`, `Grid.StoreRestWithinGrid`, `Grid.StoreRestPastGrid`, `Grid.StoreRestPastGridRepeats` and `Grid.StoreRestIdempotent` |
| `Grid.PitchFrom` | src/parser.py:113-116 | the loop of `store_pitch` leaves a grid of length max(old length, end) |
| `Grid.PitchStored` | src/parser.py:106-118 | the definition of `store_pitch`: the loop, then one attack at start, for the starts on which the code neither raises nor wraps around; its properties are stated by `Grid.StorePitchShape` |
| `Grid.RestFromShape` | src/parser.py:101-104 | for every start, the grid after `store_rest` keeps the old intervals unchanged and appends only empty intervals; its length is max(old, start + length) when start is within or at the end of the grid, and old + length when start lies past the end |
| `Grid.StoreRestWithinGrid` | src/parser.py:101-104 | for 0 <= start <= old length: new length max(old, start + length), old intervals unchanged, new intervals `{attacks: 0, pitches: []}` |
| `Grid.StoreRestPastGrid` | src/parser.py:101-104 | for start past the end, the grid grows by `length` only |
| `Grid.StoreRestIdempotent` | src/parser.py:101-104 | for every start not past the end of the grid (negative starts included), running `store_rest` twice on the same range is the same as running it once |
| `Grid.StoreRestPastGridRepeats` | src/parser.py:101-104 | for a start past the end of the grid and a positive length, a second `store_rest` on the same range makes the grid longer again: there the loop is not idempotent |
| `Grid.PitchFromShape` | src/parser.py:113-116 | the loop appends the pitch once to every interval in [start, end), leaves every other pitch list and every attack count unchanged, and new intervals start empty |
| `Grid.StorePitchShape` | src/parser.py:106-118 | `store_pitch` grows the grid to max(old, start + length), appends the pitch exactly once to each interval in [start, start + length) and to no other, and adds exactly one attack at start and none elsewhere |
| `Grid.IntervalGrid.constructor` | src/parser.py:164 | the grid starts empty |
| `Grid.IntervalGrid.StoreRest` | src/parser.py:101-104 | the loop leaves the grid equal to `RestFrom` of the old grid over [start, start + length) |
| `Grid.IntervalGrid.StorePitch` | src/parser.py:106-118 | for 0 <= start <= length of grid (start inside the grid when length is 0), the new grid is `PitchStored` of the old one |
| `Registry.DeclaredParts` | src/parser.py:54-62 | one record per declared part, in order, with its id and name, divisions unset and cursor 0 |
| `Registry.GetPartList` | src/parser.py:54-62 | the loop builds exactly `DeclaredParts` of the part list |
| `Registry.GetPart` | src/parser.py:64-71 | None iff no record has the id; otherwise the position of the first record with the id |
| `Registry.GetPartDiv` | src/parser.py:73-77 | None iff no record has the id; otherwise the divisions of the first record with the id (the one `GetPart` finds) |
| `Registry.WithDivisions` | src/parser.py:79-83 | same length; ids, names and cursors unchanged; every record with the id gets the new divisions, and every other keeps its own |
| `Registry.GetPartSeesOnlyIds` | src/parser.py:64-77 | lookups give the same answer on two record lists with the same ids in the same order |
| `Registry.SetThenGetDiv` | src/parser.py:73-83 | after `set_part_div` on a declared id, `get_part_div` of that id returns the new value |
| `Registry.SetDivLeavesOtherIds` | src/parser.py:73-83 | `set_part_div` on one id does not change what `get_part_div` returns for any other id |
| `Registry.PartRegistry.constructor` | src/parser.py:168 | the registry holds the given records |
| `Registry.PartRegistry.SetPartDiv` | src/parser.py:79-83 | the in-place loop leaves the records equal to `WithDivisions` of the old ones |
| `Registry.PartRegistry.SaveCursor` | src/parser.py:349 | only the cursor of the record at the given position changes, to the given value |
| `Tree.AppliedDivisions` | src/parser.py:210-216 | the value applied is the first `divisions` of the first `attributes` child, or none when that child has no `divisions` or there is no `attributes` child |
| `Tree.AppliedDivisionsScanned` | src/parser.py:210-216 | every value the walk applies is one of the values the scan of the same part entry sees |
| `Tree.AllDivisions` | src/parser.py:92 | the definition of the query `measure/part/attributes/divisions`: every divisions value of every attributes child, in document order; `Tree.AppliedDivisionsScanned` and the `DivisionsIn` lemmas relate it to the walk |
| `Divisions.LargestDivisor` | src/parser.py:91-99 | the definition of the running maximum from 1; its properties are stated by `Divisions.LargestDivisorIsMaximum` |
| `Divisions.LargestDivisorIsMaximum` | src/parser.py:91-99 | the running maximum is >= 1, >= every value, and is either 1 or one of the values |
| `Divisions.FindLargestDiv` | src/parser.py:86-99 | the loop returns the running maximum of all `divisions` values: >= 1, >= each of them, and 1 or one of them |
| `Walk.CheckRoot` | src/parser.py:143-157 | `score-partwise` and `score-timewise` are accepted as their forms; any other root tag is `UnsupportedFormat` |
| `Walk.IntervalLength` | src/parser.py:238-243 | the length n is the floor of duration * largest / div: n * div <= duration * largest < (n + 1) * div |
| `Walk.ScaledLength` | src/parser.py:235-243 | succeeds iff the part is found with a nonzero divisions value, and then gives `IntervalLength`; otherwise `ZeroDivisions` for 0 and `MissingDivisions` for unset |
| `Walk.PitchOf` | src/parser.py:289-297 | succeeds iff the note has a step the table knows and an octave; the pitch is the step's class with the alteration (0 when absent) and the octave, with the class in [0, 11] |
| `Walk.PartsWithEntryDivisions` | src/parser.py:210-216 | applying an entry's divisions keeps the number of records and every id, name and cursor; every record with the entry's id takes the entry's applied divisions when there is one, and every other record keeps its own |
| `Walk.NoteStep` | src/parser.py:226-307 | the definition of one `note` child: length scaled first, then the type, then the rest, pitch and chord rules and the `duration > 0` guard; its properties are stated by the cursor lemmas and `WalkProperties.EventGridEffect` |
| `Walk.EventStep` | src/parser.py:222-347 | the definition of one child: a note, a forward, a backup, or any other tag, which is passed over; its properties are stated by `WalkProperties.ForwardBackupMoveCursor`, `WalkProperties.EventGridEffect` and `WalkProperties.EventKeepsGrid` |
| `Walk.Events` | src/parser.py:221-347 | the definition of the children loop, stopping at the first error; its properties are stated by `WalkProperties.EventsKeepGrid` and `WalkProperties.BackupUndoesForward` |
| `Walk.PartStep` | src/parser.py:197-349 | the definition of one part entry: lookup, cursor load, divisions, children, cursor save; its properties are stated by `WalkProperties.PartStepCarriesCursor` and `WalkProperties.PartStepAppliesDivisions` |
| `Walk.Entries` | src/parser.py:197-349 | the definition of the loop over a measure's part entries; its properties are stated by `WalkProperties.EntriesKeepParts`, `WalkProperties.EntriesKeepGrid` and `WalkProperties.EntriesKeepDivisionsIn` |
| `Walk.Measures` | src/parser.py:188-349 | the definition of the loop over measures; its properties are stated by `WalkProperties.MeasuresKeepParts`, `WalkProperties.MeasuresKeepGrid` and `WalkProperties.MeasuresKeepDivisionsIn` |
| `Walk.Parse` | src/parser.py:124-357 | the definition of `parse_file`: format check, part list, largest divisor, walk, result; its properties are stated by `WalkProperties.UnknownRootRefused`, `WalkProperties.ParseReportsLargestDivisor`, `WalkProperties.ParseClassesInRange` and `WalkProperties.WalkScalesPositively`, and `Parser.ParseFile` is proved to compute it |
| `Parser.WalkEvent` | src/parser.py:222-347 | on success the new grid and cursors are exactly `EventStep` of the old ones; on failure the error is the one `EventStep` gives |
| `Parser.WalkChildren` | src/parser.py:221-347 | on success the grid and both cursors after the children loop are exactly `Events` of the old ones; on failure the error is the one `Events` gives |
| `Parser.WalkPart` | src/parser.py:197-349 | on success the records, grid and `current_interval` after the entry are exactly `PartStep` of the old ones; on failure the error is the one `PartStep` gives |
| `Parser.ParseFile` | src/parser.py:124-357 | the result is exactly `Parse` of the root tag, the time-wise tree and the pitch-class table |
| `WalkProperties.ChordNoteKeepsCursors` | src/parser.py:279-281 | a chord pitch note leaves both `next_interval` and `current_interval` unchanged |
| `WalkProperties.NoteOnsetMovesCursors` | src/parser.py:282-287 | a non-chord pitch note sets `current_interval` to the old `next_interval` and moves `next_interval` on by its length |
| `WalkProperties.RestMovesCursor` | src/parser.py:247-256 | a rest moves `next_interval` on by its length, keeps `current_interval`, keeps the old intervals and adds only empty ones |
| `WalkProperties.UnpitchedMovesNothing` | src/parser.py:226-307 | an unpitched note changes neither the grid nor either cursor |
| `WalkProperties.GraceNoteLeavesGrid` | src/parser.py:299-302 | a pitched note of duration 0 does not change the grid |
| `WalkProperties.ForwardBackupMoveCursor` | src/parser.py:311-340 | forward adds its length to `next_interval`, backup subtracts it, and neither changes anything else |
| `WalkProperties.BackupUndoesForward` | src/parser.py:311-340 | a forward followed by a backup of the same duration returns the walk to exactly its previous state |
| `WalkProperties.UnstoredChildGrid` | src/parser.py:247-256 | a child that stores no pitch keeps the old intervals as they were and adds only empty ones |
| `WalkProperties.StoredChildGrid` | src/parser.py:299-302 | a stored pitch sounds in exactly [current, current + length) of the new `current_interval`, adds exactly one attack at current, and changes nothing else; current lies inside the new grid |
| `WalkProperties.EventGridEffect` | src/parser.py:247-307 | whatever the child, the grid never shrinks; a child that stores no pitch keeps the old intervals and adds only empty ones; a stored pitch sounds in exactly [current, current + length), adds exactly one attack at current, and changes nothing else |
| `WalkProperties.EventKeepsGrid` | src/parser.py:247-307 | one child only accumulates into the grid (no interval disappears, no attack count drops, no pitch list loses an entry), and every pitch it stores has a class in [0, 11] |
| `WalkProperties.EventsKeepGrid` | src/parser.py:221-347 | the same over all children of a part entry |
| `WalkProperties.EntriesKeepGrid` | src/parser.py:197-349 | the same over all part entries of a measure |
| `WalkProperties.MeasuresKeepGrid` | src/parser.py:188-349 | the same over all measures |
| `WalkProperties.ParseClassesInRange` | src/parser.py:296-302 | every pitch in the grid `parse_file` returns has a pitch class in [0, 11] |
| `WalkProperties.PartStepAppliesDivisions` | src/parser.py:210-216 | after `set_part_div` for an entry, `get_part_div` of its id answers the entry's applied divisions, both while its children are scaled and afterwards; without an applied value the answer is unchanged; no other id sees a change |
| `WalkProperties.PartStepCarriesCursor` | src/parser.py:200-349 | a part entry starts its children from the first record's saved cursor; that record then holds the final `next_interval`; every other record keeps its cursor; ids and names stay the same |
| `WalkProperties.ChordReusesOnsetAcrossParts` | src/parser.py:173-175 | `current_interval` carries over between part entries: an entry made of one chord member leaves it where the previous entry put it, whatever the part's own cursor |
| `WalkProperties.EntriesKeepParts` | src/parser.py:197-349 | the part entries of a measure keep the number, order, ids and names of the part records |
| `WalkProperties.MeasuresKeepParts` | src/parser.py:188-349 | the whole walk keeps the number, order, ids and names of the part records |
| `WalkProperties.PartStepKeepsDivisionsIn` | src/parser.py:210-216 | if every record's divisions value is among the scanned values, it still is after a part entry |
| `WalkProperties.EntriesKeepDivisionsIn` | src/parser.py:197-216 | the same over all part entries of a measure |
| `WalkProperties.MeasuresKeepDivisionsIn` | src/parser.py:188-216 | the same over any run of measures: every divisions value a part holds at the end is one of the given values whenever all scanned values are |
| `WalkProperties.EntryRecordsDivisionsIn` | src/parser.py:210-216 | the records an entry's children are scaled against hold only values of S when the records before it and the entry's own divisions do |
| `WalkProperties.DivisionsScannedMidWalk` | src/parser.py:92-216 | after any number of measures and part entries of a parse, every part's divisions value is one the scan of `src/parser.py:92` saw |
| `WalkProperties.WalkScalesPositively` | src/parser.py:236-243 | wherever the walk scales a positive duration (any part entry of any measure), the length is at least one interval, because no part's divisions exceeds the largest divisor |
| `WalkProperties.DeclaredPartsHoldNoDivisions` | src/parser.py:60 | the declared records hold no divisions, so that invariant holds at the start |
| `WalkProperties.PositiveDurationCoversAnInterval` | src/parser.py:236-243 | when the part's divisions is at most the largest divisor, a positive duration covers at least one interval |
| `WalkProperties.UnknownRootRefused` | src/parser.py:154-157 | a root tag that is neither score form makes the parse fail with `UnsupportedFormat`, with no grid |
| `WalkProperties.ParseReportsLargestDivisor` | src/parser.py:179 | the resolution a successful parse returns is >= 1, >= every `divisions` value in the score, and is 1 or one of them |
| `Scenarios.TwoQuarterNotes` | src/parser.py:260-306 | C4 then D4, divisions 1: resolution 1, grid `[{1, [(0,4)]}, {1, [(2,4)]}]` |
| `Scenarios.RestThenNote` | src/parser.py:247-306 | a quarter rest then E4: grid `[{0, []}, {1, [(4,4)]}]` |
| `Scenarios.ChordOfTwo` | src/parser.py:279-302 | C4 with E4 as chord member: grid `[{2, [(0,4), (4,4)]}]`, two attacks, because each stored pitch adds one |
| `Scenarios.ForwardThenBackup` | src/parser.py:311-349 | a forward then a backup of one quarter: the part's saved cursor is back at 0 and the grid is empty |
| `Scenarios.UnknownRoot` | src/parser.py:154-157 | a root tag `html` gives `UnsupportedFormat` |
| `Scenarios.NoteAfterForward` | src/parser.py:113-116 | a note after a forward past the end of an empty grid fails with `CursorBeyondGrid`, where the code raises `IndexError` |
| `Scenarios.RestAfterForward` | src/parser.py:101-104 | a rest after a forward past the end of an empty grid leaves a grid of one interval, not two |

## Left out

- Reading the file and parsing the XML (`open`, `etree.parse`) are I/O and foreign library calls. The model takes an already-abstracted time-wise tree (`Tree.Score`): a part list, then measures of part entries, each with its children in order.
- The part-wise to time-wise XSLT transform (`src/parser.py:144-150`) is a foreign library call. For a `score-partwise` root, the caller supplies the tree the transform produced. The model checks the root tag only.
- The model uses exact integer floor where the code computes `int(duration / float(div) * largest_divisor)`. Near an exact multiple, the floating-point value can round differently.
- Text-to-integer conversion (`int(...text)`) is not modelled. Durations and divisions are natural numbers; octaves and alterations are integers. So non-numeric text, fractional `alter` values and negative durations or divisions are out of scope.
- The elements the code assumes are present are typed as always present: `part-list`, `part-name`, a part's `id` attribute. When they are missing, the code crashes with `AttributeError` or `KeyError`.
- The model does not reproduce `store_pitch`'s negative-index wrap-around (Python `intervals[-1]`). The walk reports `NegativeCursor` instead.
- The `VERBOSE` debug prints, the unused `mini_segments` and `shortestNote` variables, and the commented-out code after `src/parser.py:361` are debug output or dead code.
- The driver (`trunk/src/cochonut.py`) is logging setup, command-line handling and `exit`. It calls `parse_file` with a logger where the step-to-class table belongs. The model takes the table as a parameter and gives `Notes.StandardPitchClasses` (C=0, D=2, E=4, F=5, G=7, A=9, B=11) for the scenarios.
- `Parser.WalkEvent`: on failure its contract does not state the grid's contents. The parse is abandoned at that point and returns no grid, as in the code.
