/**
 * The capability-maturity scale: six levels, keyed 0 to 5, each with a
 * label and a description. Every criterion is rated on this scale.
 */
module Rubric {

  /** The rubric dictionary, keyed by level. */
  const CmmRubric: map<int, string> := map[
    0 := "Non-existent: No recognized practices.",
    1 := "Ad hoc: Processes are informal and undocumented.",
    2 := "Repeatable: Some practices are established but inconsistently applied.",
    3 := "Defined: Practices are documented and communicated.",
    4 := "Managed: Practices are monitored, measured and improved.",
    5 := "Optimized: Best practices are followed and continuously improved."
  ]

  /** The options of every maturity selector: the rubric's keys in insertion order. */
  const LevelOptions: seq<int> := [0, 1, 2, 3, 4, 5]

  /** A maturity level is a key of the rubric. */
  predicate IsLevel(x: int) {
    x in CmmRubric
  }

  /** Every element of a score list is a maturity level. */
  predicate AllLevels(s: seq<int>) {
    forall i :: 0 <= i < |s| ==> IsLevel(s[i])
  }

  /** The levels are exactly the integers 0 to 5. */
  lemma LevelRange(x: int)
    ensures IsLevel(x) <==> 0 <= x <= 5
  {
  }

  /** The selector offers exactly the rubric's keys, each once, in ascending order. */
  lemma LevelOptionsAreRubricKeys()
    ensures forall x :: x in LevelOptions <==> x in CmmRubric
    ensures forall i, j :: 0 <= i < j < |LevelOptions| ==> LevelOptions[i] < LevelOptions[j]
    ensures LevelOptions[0] == 0
  {
  }
}
