/**
 * The aggregator: per-domain means, the flattened list of all scores, and the
 * overall mean with its explicit zero fallback. Averages are exact rationals.
 */
module Aggregation {
  import opened Rubric
  import opened ScoreTables

  /** sum(s). */
  function Sum(s: seq<int>): (total: int) {
    if s == [] then 0 else s[0] + Sum(s[1..])
  }

  /** sum/len of a non-empty list, unguarded as in the source: len copies of the mean make up the sum. */
  function Mean(s: seq<int>): (m: real)
    requires |s| > 0
    ensures m * |s| as real == Sum(s) as real
  {
    Sum(s) as real / |s| as real
  }

  lemma {:induction false} SumAppend(a: seq<int>, b: seq<int>)
    ensures Sum(a + b) == Sum(a) + Sum(b)
  {
    if a == [] {
      assert a + b == b;
    } else {
      assert (a + b)[1..] == a[1..] + b;
      SumAppend(a[1..], b);
    }
  }

  /** Python's sum adds from the left: appending a score adds it to the running total. */
  lemma SumLeftFold(s: seq<int>, x: int)
    ensures Sum(s + [x]) == Sum(s) + x
  {
    SumAppend(s, [x]);
  }

  /** A list of levels sums to between 0 and five times its length. */
  lemma {:induction false} SumOfLevels(s: seq<int>)
    requires AllLevels(s)
    ensures 0 <= Sum(s) <= 5 * |s|
  {
    if s != [] {
      LevelRange(s[0]);
      SumOfLevels(s[1..]);
    }
  }

  /** A list whose every element is c sums to c times its length. */
  lemma {:induction false} SumOfConstant(s: seq<int>, c: int)
    requires forall i :: 0 <= i < |s| ==> s[i] == c
    ensures Sum(s) == c * |s|
  {
    if s != [] {
      SumOfConstant(s[1..], c);
    }
  }

  /** The mean of a non-empty list of levels lies in [0, 5]. */
  lemma MeanInRange(s: seq<int>)
    requires |s| > 0 && AllLevels(s)
    ensures 0.0 <= Mean(s) <= 5.0
  {
    SumOfLevels(s);
    var n := |s| as real;
    assert Sum(s) as real <= 5.0 * n;
  }

  /** The mean of a non-empty list whose every element is c is c. */
  lemma MeanOfConstant(s: seq<int>, c: int)
    requires |s| > 0
    requires forall i :: 0 <= i < |s| ==> s[i] == c
    ensures Mean(s) == c as real
  {
    SumOfConstant(s, c);
    assert Sum(s) as real == c as real * |s| as real;
  }

  /** The Governance scenario: [0, 1, 2, 3] averages 1.5. */
  lemma MeanExample()
    ensures Mean([0, 1, 2, 3]) == 1.5
  {
  }

  /** Every key listed has a value. */
  predicate Covers(keys: seq<string>, entries: map<string, seq<int>>) {
    forall i :: 0 <= i < |keys| ==> keys[i] in entries
  }

  /** Every key listed has a non-empty value. */
  predicate CoversNonEmpty(keys: seq<string>, entries: map<string, seq<int>>) {
    forall i :: 0 <= i < |keys| ==> keys[i] in entries && |entries[keys[i]]| > 0
  }

  /** The (domain, mean) pairs of the listed keys, in order. */
  function AveragesOf(keys: seq<string>, entries: map<string, seq<int>>): (avgs: seq<(string, real)>)
    requires CoversNonEmpty(keys, entries)
    ensures |avgs| == |keys|
    ensures forall i :: 0 <= i < |keys| ==> avgs[i].0 == keys[i] && avgs[i].1 == Mean(entries[keys[i]])
  {
    if keys == [] then [] else [(keys[0], Mean(entries[keys[0]]))] + AveragesOf(keys[1..], entries)
  }

  /** The lists of the listed keys, concatenated in order: a score occurs in it exactly when it occurs in one of them. */
  function Flatten(keys: seq<string>, entries: map<string, seq<int>>): (all: seq<int>)
    requires Covers(keys, entries)
    ensures forall x :: x in all <==> exists i :: 0 <= i < |keys| && x in entries[keys[i]]
  {
    if keys == [] then []
    else
      assert forall i :: 1 <= i < |keys| ==> keys[i] == keys[1..][i - 1];
      entries[keys[0]] + Flatten(keys[1..], entries)
  }

  /** The number of scores stored under the listed keys. */
  function TotalCount(keys: seq<string>, entries: map<string, seq<int>>): (count: nat)
    requires Covers(keys, entries)
  {
    if keys == [] then 0 else |entries[keys[0]]| + TotalCount(keys[1..], entries)
  }

  /** The sum of the scores stored under the listed keys, list by list. */
  function TotalSum(keys: seq<string>, entries: map<string, seq<int>>): (total: int)
    requires Covers(keys, entries)
  {
    if keys == [] then 0 else Sum(entries[keys[0]]) + TotalSum(keys[1..], entries)
  }

  /** The sum of the averages of a list of (domain, average) pairs. */
  function SumAverages(avgs: seq<(string, real)>): (total: real) {
    if avgs == [] then 0.0 else avgs[0].1 + SumAverages(avgs[1..])
  }

  /**
   * domain_averages: one (domain, mean) pair per stored domain, in the
   * dictionary's order. Every stored list must be non-empty.
   */
  function DomainAverages(t: ScoreTable): (avgs: seq<(string, real)>)
    requires t.Valid() && NonEmptyLists(t)
    ensures |avgs| == |t.keys|
    ensures forall i :: 0 <= i < |avgs| ==> avgs[i].0 == t.keys[i] && avgs[i].1 == Mean(t.entries[t.keys[i]])
  {
    AveragesOf(t.keys, t.entries)
  }

  /**
   * all_scores: every stored score, domain by domain in the dictionary's
   * order. A score occurs in it exactly when some domain's list holds it.
   */
  function AllScores(t: ScoreTable): (all: seq<int>)
    requires t.Valid()
    ensures forall x :: x in all <==> exists k :: k in t.entries && x in t.entries[k]
  {
    Flatten(t.keys, t.entries)
  }

  /**
   * avg_score: the mean of all scores, or 0 when there are none; with scores,
   * as many copies of it as there are scores make up their sum.
   */
  function OverallAverage(t: ScoreTable): (avg: real)
    requires t.Valid()
    ensures |AllScores(t)| == 0 ==> avg == 0.0
    ensures |AllScores(t)| > 0 ==> avg * |AllScores(t)| as real == Sum(AllScores(t)) as real
  {
    var all := AllScores(t);
    if |all| > 0 then Mean(all) else 0.0
  }

  /**
   * Flattening keeps each list whole and in key order: its length and its sum
   * are the totals of the lists, and it is empty exactly when every list is.
   */
  lemma {:induction false} FlattenTotals(keys: seq<string>, entries: map<string, seq<int>>)
    requires Covers(keys, entries)
    ensures keys != [] ==> Flatten(keys, entries) == entries[keys[0]] + Flatten(keys[1..], entries)
    ensures |Flatten(keys, entries)| == TotalCount(keys, entries)
    ensures Sum(Flatten(keys, entries)) == TotalSum(keys, entries)
    ensures |Flatten(keys, entries)| == 0 <==> forall i :: 0 <= i < |keys| ==> |entries[keys[i]]| == 0
  {
    FlattenSize(keys, entries);
    if keys != [] {
      FlattenTotals(keys[1..], entries);
      assert forall i :: 1 <= i < |keys| ==> keys[i] == keys[1..][i - 1];
    }
  }

  /** The flattened list's length and sum are the totals of the lists. */
  lemma {:induction false} FlattenSize(keys: seq<string>, entries: map<string, seq<int>>)
    requires Covers(keys, entries)
    ensures |Flatten(keys, entries)| == TotalCount(keys, entries)
    ensures Sum(Flatten(keys, entries)) == TotalSum(keys, entries)
  {
    if keys != [] {
      FlattenSize(keys[1..], entries);
      SumAppend(entries[keys[0]], Flatten(keys[1..], entries));
    }
  }

  /** When every listed list has n scores, there are n scores per key in all. */
  lemma {:induction false} UniformCount(keys: seq<string>, entries: map<string, seq<int>>, n: nat)
    requires Covers(keys, entries)
    requires forall i :: 0 <= i < |keys| ==> |entries[keys[i]]| == n
    ensures TotalCount(keys, entries) == n * |keys|
  {
    if keys != [] {
      assert forall i :: 0 <= i < |keys[1..]| ==> keys[1..][i] == keys[i + 1];
      UniformCount(keys[1..], entries, n);
    }
  }

  /** When every listed list has n scores, their total is n times the sum of the lists' averages. */
  lemma {:induction false} UniformSum(keys: seq<string>, entries: map<string, seq<int>>, n: nat)
    requires CoversNonEmpty(keys, entries)
    requires forall i :: 0 <= i < |keys| ==> |entries[keys[i]]| == n
    ensures TotalSum(keys, entries) as real == n as real * SumAverages(AveragesOf(keys, entries))
  {
    if keys != [] {
      assert forall i :: 0 <= i < |keys[1..]| ==> keys[1..][i] == keys[i + 1];
      UniformSum(keys[1..], entries, n);
      var avgs := AveragesOf(keys, entries);
      assert avgs[1..] == AveragesOf(keys[1..], entries);
      var m, rest := Mean(entries[keys[0]]), SumAverages(avgs[1..]);
      assert SumAverages(avgs) == m + rest;
      assert Sum(entries[keys[0]]) as real == m * n as real;
      assert n as real * (m + rest) == n as real * m + n as real * rest;
    }
  }

  /**
   * When every domain's list has the same length, the overall average is the
   * mean of the domain averages.
   */
  lemma OverallIsMeanOfAverages(t: ScoreTable, n: nat)
    requires t.Valid() && NonEmptyLists(t) && t.keys != []
    requires forall k :: k in t.entries ==> |t.entries[k]| == n
    ensures OverallAverage(t) == SumAverages(DomainAverages(t)) / |t.keys| as real
  {
    FlatMeanIsMeanOfAverages(t.keys, t.entries, n);
  }

  /** The mean of equally long lists, concatenated, is the mean of their means. */
  lemma FlatMeanIsMeanOfAverages(keys: seq<string>, entries: map<string, seq<int>>, n: nat)
    requires CoversNonEmpty(keys, entries) && keys != []
    requires forall i :: 0 <= i < |keys| ==> |entries[keys[i]]| == n
    ensures |Flatten(keys, entries)| > 0
    ensures Mean(Flatten(keys, entries)) == SumAverages(AveragesOf(keys, entries)) / |keys| as real
  {
    var all := Flatten(keys, entries);
    FlatCount(keys, entries, n);
    FlatSum(keys, entries, n);
    MeanOfScaled(all, SumAverages(AveragesOf(keys, entries)), |keys| as real, n as real);
  }

  /** The flattened list of n-score lists has n scores per key. */
  lemma FlatCount(keys: seq<string>, entries: map<string, seq<int>>, n: nat)
    requires CoversNonEmpty(keys, entries) && keys != []
    requires forall i :: 0 <= i < |keys| ==> |entries[keys[i]]| == n
    ensures 0 < n && |Flatten(keys, entries)| as real == n as real * |keys| as real
  {
    FlattenSize(keys, entries);
    UniformCount(keys, entries, n);
    assert n == |entries[keys[0]]|;
    RealOfProduct(n, |keys|);
  }

  /** The flattened list of n-score lists sums to n times the sum of the lists' means. */
  lemma FlatSum(keys: seq<string>, entries: map<string, seq<int>>, n: nat)
    requires CoversNonEmpty(keys, entries)
    requires forall i :: 0 <= i < |keys| ==> |entries[keys[i]]| == n
    ensures Sum(Flatten(keys, entries)) as real == n as real * SumAverages(AveragesOf(keys, entries))
  {
    FlattenSize(keys, entries);
    UniformSum(keys, entries, n);
  }

  /** The conversion to real distributes over a product. */
  lemma RealOfProduct(a: nat, b: nat)
    ensures (a * b) as real == a as real * b as real
  {
  }

  /** A list with c * b scores summing to c * a has the mean a / b. */
  lemma MeanOfScaled(s: seq<int>, a: real, b: real, c: real)
    requires |s| > 0 && b > 0.0 && c > 0.0
    requires Sum(s) as real == c * a && |s| as real == c * b
    ensures Mean(s) == a / b
  {
    var num, den := Sum(s) as real, |s| as real;
    assert Mean(s) == num / den;
    assert a / b * den == c * a;
  }

  /** Concatenating lists of levels gives a list of levels. */
  lemma {:induction false} FlattenLevels(keys: seq<string>, entries: map<string, seq<int>>)
    requires Covers(keys, entries)
    requires forall i :: 0 <= i < |keys| ==> AllLevels(entries[keys[i]])
    ensures AllLevels(Flatten(keys, entries))
  {
    if keys != [] {
      FlattenLevels(keys[1..], entries);
      var head, tail := entries[keys[0]], Flatten(keys[1..], entries);
      assert forall i :: 0 <= i < |head + tail| ==> (head + tail)[i] == if i < |head| then head[i] else tail[i - |head|];
    }
  }

  /** Concatenating lists whose every element is c gives such a list. */
  lemma {:induction false} FlattenConstant(keys: seq<string>, entries: map<string, seq<int>>, c: int)
    requires Covers(keys, entries)
    requires forall i, j :: 0 <= i < |keys| && 0 <= j < |entries[keys[i]]| ==> entries[keys[i]][j] == c
    ensures forall j :: 0 <= j < |Flatten(keys, entries)| ==> Flatten(keys, entries)[j] == c
  {
    if keys != [] {
      FlattenConstant(keys[1..], entries, c);
      var head, tail := entries[keys[0]], Flatten(keys[1..], entries);
      assert forall i :: 0 <= i < |head + tail| ==> (head + tail)[i] == if i < |head| then head[i] else tail[i - |head|];
    }
  }

  /**
   * The overall average is 0 exactly when nothing has been assessed, and lies
   * in [0, 5] whenever every stored list is a non-empty list of levels.
   */
  lemma OverallAverageInRange(t: ScoreTable)
    requires t.Valid() && Filled(t)
    ensures (|AllScores(t)| == 0) <==> t.keys == []
    ensures t.keys == [] ==> OverallAverage(t) == 0.0
    ensures 0.0 <= OverallAverage(t) <= 5.0
  {
    FlattenTotals(t.keys, t.entries);
    if t.keys != [] {
      assert |t.entries[t.keys[0]]| > 0;
      FlattenLevels(t.keys, t.entries);
      MeanInRange(AllScores(t));
    }
  }

  /** Every domain average lies in [0, 5] when every stored list is a non-empty list of levels. */
  lemma DomainAveragesInRange(t: ScoreTable)
    requires t.Valid() && Filled(t)
    ensures forall i :: 0 <= i < |t.keys| ==> 0.0 <= DomainAverages(t)[i].1 <= 5.0
  {
    forall i | 0 <= i < |t.keys|
      ensures 0.0 <= DomainAverages(t)[i].1 <= 5.0
    {
      MeanInRange(t.entries[t.keys[i]]);
    }
  }

  /**
   * A uniform assessment: when every stored score is c, each domain average
   * and, if anything was assessed, the overall average are c.
   */
  lemma UniformAverages(t: ScoreTable, c: int)
    requires t.Valid() && NonEmptyLists(t)
    requires forall k, j :: k in t.entries && 0 <= j < |t.entries[k]| ==> t.entries[k][j] == c
    ensures forall i :: 0 <= i < |t.keys| ==> DomainAverages(t)[i].1 == c as real
    ensures t.keys != [] ==> OverallAverage(t) == c as real
  {
    forall i | 0 <= i < |t.keys|
      ensures DomainAverages(t)[i].1 == c as real
    {
      MeanOfConstant(t.entries[t.keys[i]], c);
    }
    if t.keys != [] {
      FlattenTotals(t.keys, t.entries);
      assert |t.entries[t.keys[0]]| > 0;
      FlattenConstant(t.keys, t.entries, c);
      MeanOfConstant(AllScores(t), c);
    }
  }
}
