/**
 * The part registry: one record per declared part, holding its local divisions value
 * (unset until an `attributes/divisions` element is met) and its time cursor.
 * Parts are looked up by id; when ids repeat, lookups see the first match.
 */
module Registry {
  import opened Base

  /** A `score-part` entry of the score's `part-list`. */
  datatype ScorePart = ScorePart(id: string, name: string)

  datatype Part = Part(id: string, name: string, div: Option<nat>, nextInterval: int)

  /** The records get_part_list builds, in declaration order: divisions unset, cursor at 0. */
  function DeclaredParts(decls: seq<ScorePart>): (r: seq<Part>)
    ensures |r| == |decls|
    ensures forall i :: 0 <= i < |decls| ==> r[i] == Part(decls[i].id, decls[i].name, None, 0)
  {
    if decls == [] then []
    else
      var last := decls[|decls| - 1];
      DeclaredParts(decls[..|decls| - 1]) + [Part(last.id, last.name, None, 0)]
  }

  /** get_part_list: one record appended per declared part. */
  method GetPartList(decls: seq<ScorePart>) returns (parts: seq<Part>)
    ensures parts == DeclaredParts(decls)
  {
    parts := [];
    for i := 0 to |decls|
      invariant parts == DeclaredParts(decls[..i])
    {
      assert decls[..i + 1][..i] == decls[..i];
      parts := parts + [Part(decls[i].id, decls[i].name, None, 0)];
    }
    assert decls[..|decls|] == decls;
  }

  /**
   * get_part: the position of the first part with this id (the record get_part hands back
   * is the one at that position), or None when no part has it.
   */
  function GetPart(parts: seq<Part>, id: string): (r: Option<nat>)
    ensures r.None? <==> forall i :: 0 <= i < |parts| ==> parts[i].id != id
    ensures r.Some? ==>
      && r.value < |parts|
      && parts[r.value].id == id
      && forall j :: 0 <= j < r.value ==> parts[j].id != id
  {
    if parts == [] then None
    else if parts[0].id == id then Some(0)
    else match GetPart(parts[1..], id)
      case None => None
      case Some(i) => Some(i + 1)
  }

  /** get_part_div: the divisions of the first part with this id, or None when no part has it. */
  function GetPartDiv(parts: seq<Part>, id: string): (r: Option<Option<nat>>)
    ensures r == match GetPart(parts, id)
      case None => None
      case Some(i) => Some(parts[i].div)
  {
    if parts == [] then None
    else if parts[0].id == id then Some(parts[0].div)
    else GetPartDiv(parts[1..], id)
  }

  /** The list after set_part_div: the divisions of EVERY part with this id replaced. */
  function WithDivisions(parts: seq<Part>, id: string, div: nat): (r: seq<Part>)
    ensures |r| == |parts|
    ensures forall i :: 0 <= i < |parts| ==>
      && r[i].id == parts[i].id
      && r[i].name == parts[i].name
      && r[i].nextInterval == parts[i].nextInterval
      && r[i].div == (if parts[i].id == id then Some(div) else parts[i].div)
  {
    if parts == [] then []
    else
      var last := parts[|parts| - 1];
      WithDivisions(parts[..|parts| - 1], id, div)
        + [if last.id == id then last.(div := Some(div)) else last]
  }

  /** Lookups by id only see ids, so they are blind to every change that keeps the ids. */
  lemma {:induction false} GetPartSeesOnlyIds(parts: seq<Part>, parts': seq<Part>, id: string)
    requires |parts'| == |parts|
    requires forall i :: 0 <= i < |parts| ==> parts'[i].id == parts[i].id
    ensures GetPart(parts', id) == GetPart(parts, id)
  {
    if parts != [] {
      GetPartSeesOnlyIds(parts[1..], parts'[1..], id);
    }
  }

  /** After set_part_div, get_part_div of that id answers the new value (when the id is declared). */
  lemma SetThenGetDiv(parts: seq<Part>, id: string, div: nat)
    requires GetPart(parts, id).Some?
    ensures GetPartDiv(WithDivisions(parts, id, div), id) == Some(Some(div))
  {
    GetPartSeesOnlyIds(parts, WithDivisions(parts, id, div), id);
  }

  /** set_part_div on one id leaves what get_part_div answers for every other id unchanged. */
  lemma SetDivLeavesOtherIds(parts: seq<Part>, id: string, other: string, div: nat)
    requires other != id
    ensures GetPartDiv(WithDivisions(parts, id, div), other) == GetPartDiv(parts, other)
  {
    GetPartSeesOnlyIds(parts, WithDivisions(parts, id, div), other);
  }

  /** The list of part records, updated in place during the walk. */
  class PartRegistry {
    var parts: seq<Part>

    constructor (initial: seq<Part>)
      ensures parts == initial
    {
      parts := initial;
    }

    /** set_part_div: every part with this id gets the new divisions value. */
    method SetPartDiv(id: string, div: nat)
      modifies this
      ensures parts == WithDivisions(old(parts), id, div)
    {
      ghost var before := parts;
      for i := 0 to |parts|
        invariant |parts| == |before|
        invariant forall k :: 0 <= k < i ==>
          parts[k] == if before[k].id == id then before[k].(div := Some(div)) else before[k]
        invariant forall k :: i <= k < |parts| ==> parts[k] == before[k]
      {
        if parts[i].id == id {
          parts := parts[i := parts[i].(div := Some(div))];
        }
      }
      ghost var expected := WithDivisions(before, id, div);
      assert forall k :: 0 <= k < |parts| ==> parts[k] == expected[k];
    }

    /** `part['next_interval'] = ...`: store the cursor into the record at position i. */
    method SaveCursor(i: nat, next: int)
      requires i < |parts|
      modifies this
      ensures parts == old(parts)[i := old(parts)[i].(nextInterval := next)]
    {
      parts := parts[i := parts[i].(nextInterval := next)];
    }
  }
}
