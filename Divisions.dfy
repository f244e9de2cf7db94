/** The division scan: the grid resolution is the largest `divisions` value in the score. */
module Divisions {
  import opened Tree

  /** The running maximum of find_largest_div over a list of values, starting at 1. */
  function LargestDivisor(divs: seq<nat>): nat
  {
    if divs == [] then 1
    else
      var m := LargestDivisor(divs[..|divs| - 1]);
      if divs[|divs| - 1] > m then divs[|divs| - 1] else m
  }

  /** The result is at least 1 and every value, and it is 1 or one of the values. */
  lemma {:induction false} LargestDivisorIsMaximum(divs: seq<nat>)
    ensures LargestDivisor(divs) >= 1
    ensures forall d :: d in divs ==> d <= LargestDivisor(divs)
    ensures LargestDivisor(divs) == 1 || LargestDivisor(divs) in divs
  {
    if divs != [] {
      var init := divs[..|divs| - 1];
      LargestDivisorIsMaximum(init);
      assert divs == init + [divs[|divs| - 1]];
    }
  }

  /** find_largest_div: scan every `divisions` value of the score, keeping the largest. */
  method FindLargestDiv(tree: Score) returns (largest: nat)
    ensures largest == LargestDivisor(AllDivisions(tree))
    ensures largest >= 1
    ensures forall d :: d in AllDivisions(tree) ==> d <= largest
    ensures largest == 1 || largest in AllDivisions(tree)
  {
    var divisions := AllDivisions(tree);
    largest := 1;
    for i := 0 to |divisions|
      invariant largest == LargestDivisor(divisions[..i])
    {
      assert divisions[..i + 1][..i] == divisions[..i];
      var div := divisions[i];
      if div > largest {
        largest := div;
      }
    }
    assert divisions[..|divisions|] == divisions;
    LargestDivisorIsMaximum(divisions);
  }
}
