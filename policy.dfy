/**
 * The recommendation policy: a first-match threshold chain from an average
 * score to one of five fixed advisory texts.
 */
module Policy {

  const HighPriority := "High priority for corrective action. Establish basic controls."
  const ModerateRisk := "Moderate risk. Document and formalize processes."
  const DevelopMonitoring := "Develop structured monitoring and review."
  const ConsiderOptimization := "Consider optimization and automation."
  const MaintainPractices := "Maintain and share best practices."

  /** The five advisories, from most to least urgent. */
  const Advice: seq<string> := [HighPriority, ModerateRisk, DevelopMonitoring, ConsiderOptimization, MaintainPractices]

  /** The band boundaries, ascending: a score at or above a boundary has passed it. */
  const Thresholds: seq<real> := [2.0, 3.0, 4.0, 5.0]

  /** The advisory for a score: the first band whose strict upper bound exceeds it. */
  function Recommendation(score: real): (r: string)
    ensures r in Advice
    ensures r == HighPriority <==> score < 2.0
    ensures r == ModerateRisk <==> 2.0 <= score < 3.0
    ensures r == DevelopMonitoring <==> 3.0 <= score < 4.0
    ensures r == ConsiderOptimization <==> 4.0 <= score < 5.0
    ensures r == MaintainPractices <==> 5.0 <= score
  {
    if score < 2.0 then HighPriority
    else if score < 3.0 then ModerateRisk
    else if score < 4.0 then DevelopMonitoring
    else if score < 5.0 then ConsiderOptimization
    else MaintainPractices
  }

  /** How many of the boundaries ts a score has reached. */
  function CountReached(ts: seq<real>, score: real): (n: nat)
    ensures n <= |ts|
  {
    if ts == [] then 0 else (if ts[0] <= score then 1 else 0) + CountReached(ts[1..], score)
  }

  /** The band index of a score: the number of boundaries it has reached (0 = most urgent). */
  function Band(score: real): (b: nat)
    ensures b < |Advice|
  {
    CountReached(Thresholds, score)
  }

  /** A higher score reaches at least the boundaries a lower one does. */
  lemma {:induction false} CountReachedMonotone(ts: seq<real>, s: real, t: real)
    requires s <= t
    ensures CountReached(ts, s) <= CountReached(ts, t)
  {
    if ts != [] {
      CountReachedMonotone(ts[1..], s, t);
    }
  }

  /** The band never decreases as the score increases. */
  lemma BandMonotone(s: real, t: real)
    requires s <= t
    ensures Band(s) <= Band(t)
  {
    CountReachedMonotone(Thresholds, s, t);
  }

  /** The if/elif chain returns the advisory of the score's band. */
  lemma RecommendationIsBandAdvice(score: real)
    ensures Recommendation(score) == Advice[Band(score)]
  {
    var ts := Thresholds;
    assert ts[1..] == [3.0, 4.0, 5.0] && ts[1..][1..] == [4.0, 5.0] && ts[1..][1..][1..] == [5.0];
    assert ts[1..][1..][1..][1..] == [];
    assert CountReached(ts[1..][1..][1..], score) == if 5.0 <= score then 1 else 0;
    assert CountReached(ts[1..][1..], score) == (if 4.0 <= score then 1 else 0) + (if 5.0 <= score then 1 else 0);
    assert CountReached(ts[1..], score) == (if 3.0 <= score then 1 else 0) + (if 4.0 <= score then 1 else 0)
                                           + (if 5.0 <= score then 1 else 0);
  }

  /** The advisory moves towards less urgent ones as the score increases. */
  lemma RecommendationMonotone(s: real, t: real)
    requires s <= t
    ensures Advice[Band(s)] == Recommendation(s) && Advice[Band(t)] == Recommendation(t)
    ensures Band(s) <= Band(t)
  {
    RecommendationIsBandAdvice(s);
    RecommendationIsBandAdvice(t);
    BandMonotone(s, t);
  }

  /** The band boundaries, one value on each side of each. */
  lemma BandExamples()
    ensures Band(1.9) == 0 && Recommendation(1.9) == HighPriority
    ensures Band(2.0) == 1 && Recommendation(2.0) == ModerateRisk
    ensures Band(3.0) == 2 && Recommendation(3.0) == DevelopMonitoring
    ensures Band(4.0) == 3 && Recommendation(4.0) == ConsiderOptimization
    ensures Band(5.0) == 4 && Recommendation(5.0) == MaintainPractices
  {
  }
}
