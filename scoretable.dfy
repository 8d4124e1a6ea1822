/**
 * The assessment state: a dictionary from domain name to that domain's list of
 * scores. It is insertion-ordered, as a Python dictionary is, and the order is
 * the order every aggregate and the recommendations table follow.
 */
module ScoreTables {
  import opened Rubric

  /** Keys in insertion order, and the value stored under each key. */
  datatype ScoreTable = ScoreTable(keys: seq<string>, entries: map<string, seq<int>>) {

    /** Each key is listed once, and exactly the listed keys have a value. */
    predicate Valid() {
      && (forall i, j :: 0 <= i < j < |keys| ==> keys[i] != keys[j])
      && (forall k :: k in entries ==> k in keys)
      && (forall i :: 0 <= i < |keys| ==> keys[i] in entries)
    }

    /**
     * Dictionary assignment: the key now maps to v, every other key keeps its
     * value, an existing key keeps its position and a new key goes last.
     */
    function Put(k: string, v: seq<int>): (t: ScoreTable)
      requires Valid()
      ensures t.Valid()
      ensures k in t.entries && t.entries[k] == v
      ensures forall k' :: k' in entries && k' != k ==> k' in t.entries && t.entries[k'] == entries[k']
      ensures forall k' :: k' in t.entries ==> k' == k || k' in entries
      ensures k in entries ==> t.keys == keys
      ensures k !in entries ==> t.keys == keys + [k]
    {
      ScoreTable(if k in entries then keys else keys + [k], entries[k := v])
    }
  }

  /** The state before any domain has been assessed: a well-formed table with no key and no value. */
  function Empty(): (t: ScoreTable)
    ensures t.Valid() && Filled(t)
    ensures t.keys == [] && forall k :: k !in t.entries
  {
    ScoreTable([], map[])
  }

  /** Every stored score is a rubric level. */
  predicate InRange(t: ScoreTable) {
    forall k :: k in t.entries ==> AllLevels(t.entries[k])
  }

  /** No stored list is empty, so each can be averaged. */
  predicate NonEmptyLists(t: ScoreTable) {
    forall k :: k in t.entries ==> |t.entries[k]| > 0
  }

  /** What every list the assessment loop writes for a catalog domain satisfies. */
  predicate Filled(t: ScoreTable) {
    InRange(t) && NonEmptyLists(t)
  }

  /** Storing a list of levels keeps every stored score a level. */
  lemma PutInRange(t: ScoreTable, k: string, v: seq<int>)
    requires t.Valid()
    ensures InRange(t) && AllLevels(v) ==> InRange(t.Put(k, v))
  {
  }

  /** Storing a non-empty list keeps every stored list non-empty. */
  lemma PutNonEmpty(t: ScoreTable, k: string, v: seq<int>)
    requires t.Valid()
    ensures NonEmptyLists(t) && |v| > 0 ==> NonEmptyLists(t.Put(k, v))
  {
  }
}
