/**
 * parse_file of src/parser.py as it runs: nested loops over measures, part entries and children that
 * update the part records and the grid in place and keep next_interval and current_interval in
 * local variables. Each method is proved to compute what the Walk functions say.
 */
module Parser {
  import opened Base
  import opened Notes
  import opened Grid
  import opened Registry
  import opened Tree
  import opened Divisions
  import opened Walk

  /** The two cursors of the walk: current_interval and the part's next_interval. */
  datatype Cursors = Cursors(current: int, next: int)

  /** One child of a part entry, processed against the grid object. */
  method WalkEvent(grid: IntervalGrid, parts: seq<Part>, id: string, c: Child, current: int, next: int,
                   largest: nat, table: map<string, int>) returns (r: Result<Cursors>)
    modifies grid
    ensures r.Err? ==> EventStep(EventState(old(grid.intervals), current, next), parts, id, c, largest, table)
                       == Err(r.error)
    ensures r.Ok? ==> EventStep(EventState(old(grid.intervals), current, next), parts, id, c, largest, table)
                      == Ok(EventState(grid.intervals, r.value.current, r.value.next))
  {
    match c {
      case NoteChild(e) =>
        var nd := GetNoteData(e);
        var duration := DurationOrZero(nd.duration);
        var scaled := ScaledLength(parts, id, duration, largest);
        if scaled.Err? {
          return Err(scaled.error);
        }
        var length := scaled.value;
        if nd.kind.None? {
          return Err(MissingType);
        }
        if nd.kind.value == RestType {
          grid.StoreRest(next, length);
          return Ok(Cursors(current, next + length));
        } else if nd.kind.value == PitchType {
          var cur, nxt := current, next;
          if !nd.isChord {
            cur := next;
            nxt := cur + length;
          }
          var pitch := PitchOf(nd, table);
          if pitch.Err? {
            return Err(pitch.error);
          }
          if duration > 0 {
            if cur < 0 {
              return Err(NegativeCursor);
            }
            if cur > |grid.intervals| || (length == 0 && cur == |grid.intervals|) {
              return Err(CursorBeyondGrid);
            }
            grid.StorePitch(pitch.value, cur, length);
          }
          return Ok(Cursors(cur, nxt));
        }
        return Ok(Cursors(current, next));
      case ForwardChild(d) =>
        if d.None? {
          return Err(MissingDuration);
        }
        var scaled := ScaledLength(parts, id, d.value, largest);
        if scaled.Err? {
          return Err(scaled.error);
        }
        return Ok(Cursors(current, next + scaled.value));
      case BackupChild(d) =>
        if d.None? {
          return Err(MissingDuration);
        }
        var scaled := ScaledLength(parts, id, d.value, largest);
        if scaled.Err? {
          return Err(scaled.error);
        }
        return Ok(Cursors(current, next - scaled.value));
      case AttributesChild(_) =>
        return Ok(Cursors(current, next));
      case OtherChild =>
        return Ok(Cursors(current, next));
    }
  }

  /** The children of one part entry, in document order, against the grid object. */
  method WalkChildren(grid: IntervalGrid, parts: seq<Part>, id: string, children: seq<Child>, current: int,
                      next: int, largest: nat, table: map<string, int>) returns (r: Result<Cursors>)
    modifies grid
    ensures r.Err? ==> Events(EventState(old(grid.intervals), current, next), parts, id, children, largest, table)
                       == Err(r.error)
    ensures r.Ok? ==> Events(EventState(old(grid.intervals), current, next), parts, id, children, largest, table)
                      == Ok(EventState(grid.intervals, r.value.current, r.value.next))
  {
    ghost var es0 := EventState(grid.intervals, current, next);
    var cur, nxt := current, next;
    for j := 0 to |children|
      invariant Events(es0, parts, id, children, largest, table)
             == Events(EventState(grid.intervals, cur, nxt), parts, id, children[j..], largest, table)
    {
      assert children[j..][1..] == children[j + 1..];
      var step := WalkEvent(grid, parts, id, children[j], cur, nxt, largest, table);
      if step.Err? {
        return Err(step.error);
      }
      cur, nxt := step.value.current, step.value.next;
    }
    return Ok(Cursors(cur, nxt));
  }

  /**
   * One part entry: look the part up, load its cursor, apply the entry's divisions, walk the
   * children and save the cursor back into the part's record.
   */
  method WalkPart(registry: PartRegistry, grid: IntervalGrid, current: int, entry: PartEntry,
                  largest: nat, table: map<string, int>) returns (r: Result<int>)
    modifies registry, grid
    ensures r.Err? ==> PartStep(WalkState(old(registry.parts), old(grid.intervals), current), entry, largest, table)
                       == Err(r.error)
    ensures r.Ok? ==> PartStep(WalkState(old(registry.parts), old(grid.intervals), current), entry, largest, table)
                      == Ok(WalkState(registry.parts, grid.intervals, r.value))
  {
    ghost var ws := WalkState(registry.parts, grid.intervals, current);
    var found := GetPart(registry.parts, entry.id);
    if found.None? {
      return Err(UnknownPart);
    }
    var i := found.value;
    var next := registry.parts[i].nextInterval;
    var div := AppliedDivisions(entry.children);
    if div.Some? {
      registry.SetPartDiv(entry.id, div.value);
    }
    assert registry.parts == PartsWithEntryDivisions(ws.parts, entry);
    var walked := WalkChildren(grid, registry.parts, entry.id, entry.children, current, next, largest, table);
    if walked.Err? {
      return Err(walked.error);
    }
    registry.SaveCursor(i, walked.value.next);
    return Ok(walked.value.current);
  }

  /**
   * parse_file: check the root tag, build the part list, find the largest divisor, then walk the
   * measures and their part entries in document order.
   */
  method ParseFile(root: string, tree: Score, table: map<string, int>) returns (r: Result<Output>)
    ensures r == Parse(root, tree, table)
  {
    var form := CheckRoot(root);
    if form.Err? {
      return Err(form.error);
    }
    var partList := GetPartList(tree.partList);
    var registry := new PartRegistry(partList);
    var grid := new IntervalGrid();
    var current := 0;
    var largest := FindLargestDiv(tree);
    ghost var ws0 := WalkState(partList, [], 0);
    var measures := tree.measures;
    for m := 0 to |measures|
      invariant Measures(ws0, measures, largest, table)
             == Measures(WalkState(registry.parts, grid.intervals, current), measures[m..], largest, table)
    {
      assert measures[m..][1..] == measures[m + 1..];
      var entries := measures[m].parts;
      for k := 0 to |entries|
        invariant Measures(ws0, measures, largest, table)
               == AfterEntries(WalkState(registry.parts, grid.intervals, current), entries[k..],
                               measures[m + 1..], largest, table)
      {
        assert entries[k..][1..] == entries[k + 1..];
        var step := WalkPart(registry, grid, current, entries[k], largest, table);
        if step.Err? {
          return Err(step.error);
        }
        current := step.value;
      }
    }
    return Ok(Output(largest, grid.intervals));
  }

  /** The rest of a walk: the remaining entries of one measure, then the remaining measures. */
  ghost function AfterEntries(ws: WalkState, entries: seq<PartEntry>, ms: seq<Measure>, largest: nat,
                              table: map<string, int>): Result<WalkState>
  {
    match Entries(ws, entries, largest, table)
    case Err(x) => Err(x)
    case Ok(ws') => Measures(ws', ms, largest, table)
  }
}
