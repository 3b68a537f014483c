/**
 * The grading provider as the grid builder sees it: named groups of kanji in
 * the provider's order, membership of a character, and the set of all graded
 * characters.
 */
module Grading {

  datatype Group = Group(name: string, kanji: set<char>)

  /** All characters of the groups. */
  function Union(gs: seq<Group>): (r: set<char>)
    ensures forall c :: c in r <==> exists i :: 0 <= i < |gs| && c in gs[i].kanji
  {
    if gs == [] then {}
    else
      var rest := gs[..|gs| - 1];
      assert forall i :: 0 <= i < |rest| ==> rest[i] == gs[i];
      Union(rest) + gs[|gs| - 1].kanji
  }

  datatype Grading = Grading(groups: seq<Group>) {
    /** `get_all_in_grading()` */
    function AllInGrading(): set<char> { Union(groups) }

    /** `is_in_grading(c)` */
    predicate IsInGrading(c: char) { c in AllInGrading() }
  }
}
