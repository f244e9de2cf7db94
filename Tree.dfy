/**
 * The time-wise score the walk reads: a part list, then measures, each holding one entry
 * per part with that part's children in document order.
 */
module Tree {
  import opened Base
  import opened Notes
  import opened Registry

  /** A child of a measure's `part` element. */
  datatype Child =
    | NoteChild(note: NoteElem)
    | ForwardChild(duration: Option<nat>)
    | BackupChild(duration: Option<nat>)
    | AttributesChild(divisions: seq<nat>)   // the values of its `divisions` children, in order
    | OtherChild

  datatype PartEntry = PartEntry(id: string, children: seq<Child>)

  datatype Measure = Measure(parts: seq<PartEntry>)

  datatype Score = Score(partList: seq<ScorePart>, measures: seq<Measure>)

  /** Child i is the part entry's first `attributes` child. */
  ghost predicate FirstAttributesAt(cs: seq<Child>, i: nat)
    requires i < |cs|
  {
    cs[i].AttributesChild? && forall j :: 0 <= j < i ==> !cs[j].AttributesChild?
  }

  /**
   * The divisions value a part entry applies before its events: the first `divisions` of its
   * FIRST `attributes` child, if any.
   */
  function AppliedDivisions(cs: seq<Child>): (r: Option<nat>)
    ensures forall i :: 0 <= i < |cs| && FirstAttributesAt(cs, i) ==>
      r == if cs[i].divisions == [] then None else Some(cs[i].divisions[0])
    ensures (forall i :: 0 <= i < |cs| ==> !cs[i].AttributesChild?) ==> r.None?
  {
    if cs == [] then None
    else if cs[0].AttributesChild? then
      (if cs[0].divisions == [] then None else Some(cs[0].divisions[0]))
    else AppliedDivisions(cs[1..])
  }

  /** The values of `attributes/divisions` under the children of one part entry, in order. */
  function ChildDivisions(cs: seq<Child>): seq<nat>
  {
    if cs == [] then []
    else (if cs[0].AttributesChild? then cs[0].divisions else []) + ChildDivisions(cs[1..])
  }

  function EntryDivisions(es: seq<PartEntry>): seq<nat>
  {
    if es == [] then [] else ChildDivisions(es[0].children) + EntryDivisions(es[1..])
  }

  function MeasureDivisions(ms: seq<Measure>): seq<nat>
  {
    if ms == [] then [] else EntryDivisions(ms[0].parts) + MeasureDivisions(ms[1..])
  }

  /** The answer to the query `measure/part/attributes/divisions`, in document order. */
  function AllDivisions(tree: Score): seq<nat>
  {
    MeasureDivisions(tree.measures)
  }

  /** Every value the walk applies from a part entry is one the scan sees. */
  lemma {:induction false} AppliedDivisionsScanned(cs: seq<Child>)
    requires AppliedDivisions(cs).Some?
    ensures AppliedDivisions(cs).value in ChildDivisions(cs)
  {
    if !cs[0].AttributesChild? {
      AppliedDivisionsScanned(cs[1..]);
    }
  }

  /** What the scan sees in the first k measures, it sees in the whole score. */
  lemma {:induction false} MeasurePrefixDivisions(ms: seq<Measure>, k: nat)
    requires k <= |ms|
    ensures forall d :: d in MeasureDivisions(ms[..k]) ==> d in MeasureDivisions(ms)
  {
    if k > 0 {
      assert ms[..k][1..] == ms[1..][..k - 1];
      MeasurePrefixDivisions(ms[1..], k - 1);
    }
  }

  /** What the scan sees in measure k, it sees in the whole score. */
  lemma {:induction false} MeasureDivisionsAt(ms: seq<Measure>, k: nat)
    requires k < |ms|
    ensures forall d :: d in EntryDivisions(ms[k].parts) ==> d in MeasureDivisions(ms)
  {
    if k > 0 {
      MeasureDivisionsAt(ms[1..], k - 1);
    }
  }

  /** What the scan sees in the first j part entries of a measure, it sees in all of them. */
  lemma {:induction false} EntryPrefixDivisions(es: seq<PartEntry>, j: nat)
    requires j <= |es|
    ensures forall d :: d in EntryDivisions(es[..j]) ==> d in EntryDivisions(es)
  {
    if j > 0 {
      assert es[..j][1..] == es[1..][..j - 1];
      EntryPrefixDivisions(es[1..], j - 1);
    }
  }

  /** What the scan sees in part entry j, it sees in the whole measure. */
  lemma {:induction false} EntryDivisionsAt(es: seq<PartEntry>, j: nat)
    requires j < |es|
    ensures forall d :: d in ChildDivisions(es[j].children) ==> d in EntryDivisions(es)
  {
    if j > 0 {
      EntryDivisionsAt(es[1..], j - 1);
    }
  }
}
