/**
 * One session of the assessment tool. The maturity selectors keep their
 * values in a widget store keyed by "domain-criterion"; each run of the
 * assessment view walks the sector's domains, reads one level per criterion
 * in order, and overwrites that domain's list in the session's score table.
 * The summary view derives the averages and the recommendations table and
 * keeps the table in the session; the download view builds the report from
 * the kept table.
 */
module Assessment {
  import opened Wrappers
  import opened Rubric
  import opened Catalog
  import opened ScoreTables
  import opened Aggregation
  import opened Policy
  import opened Reports

  /** The selectors' stored values, by widget key. */
  type Widgets = map<string, int>

  /** Every stored selector value is a rubric level. */
  predicate WidgetsValid(w: Widgets) {
    forall k :: k in w ==> IsLevel(w[k])
  }

  /**
   * A selector can only hold one of its options, the rubric's keys: the
   * stores whose every value is an option are exactly the valid ones.
   */
  lemma WidgetsValidIsOptions(w: Widgets)
    ensures WidgetsValid(w) <==> forall k :: k in w ==> w[k] in LevelOptions
  {
    LevelOptionsAreRubricKeys();
  }

  /** The key of a criterion's selector. */
  function WidgetKey(domain: string, item: string): (key: string) {
    domain + "-" + item
  }

  /** A selector's key is the domain name, a dash, and the criterion. */
  lemma WidgetKeyParts(domain: string, item: string)
    ensures var key := WidgetKey(domain, item);
      && |key| == |domain| + 1 + |item|
      && key[..|domain|] == domain && key[|domain|] == '-' && key[|domain| + 1..] == item
  {
  }

  /**
   * Two selectors have the same key only for the same domain and criterion,
   * provided no domain name holds a dash (none of the catalog's does).
   */
  lemma WidgetKeyInjective(d1: string, i1: string, d2: string, i2: string)
    requires '-' !in d1 && '-' !in d2
    ensures WidgetKey(d1, i1) == WidgetKey(d2, i2) ==> d1 == d2 && i1 == i2
  {
    WidgetKeyParts(d1, i1);
    WidgetKeyParts(d2, i2);
  }

  /** What a selector returns: its stored value, or its first option if it has none yet. */
  function SelectLevel(w: Widgets, key: string): (level: int)
    ensures WidgetsValid(w) ==> IsLevel(level)
    ensures key !in w ==> level == LevelOptions[0]
    ensures key in w ==> level == w[key]
  {
    if key in w then w[key] else LevelOptions[0]
  }

  /** domain_scores: one selected level per criterion, in criterion order. */
  function DomainScores(w: Widgets, d: Domain): (s: seq<int>)
    ensures |s| == |d.criteria|
    ensures WidgetsValid(w) ==> AllLevels(s)
  {
    seq(|d.criteria|, i requires 0 <= i < |d.criteria| => SelectLevel(w, WidgetKey(d.name, d.criteria[i])))
  }

  /**
   * The score table after one run of the assessment view over the domains ds:
   * each domain's selected levels stored in turn. Valid selectors keep every
   * stored score a level; domains with criteria keep every list non-empty.
   */
  function FillAll(t: ScoreTable, w: Widgets, ds: seq<Domain>): (r: ScoreTable)
    requires t.Valid()
    ensures r.Valid()
    ensures InRange(t) && WidgetsValid(w) ==> InRange(r)
    ensures NonEmptyLists(t) && HasCriteria(ds) ==> NonEmptyLists(r)
    decreases |ds|
  {
    if ds == [] then t
    else
      var v := DomainScores(w, ds[0]);
      PutInRange(t, ds[0].name, v);
      PutNonEmpty(t, ds[0].name, v);
      TailShape(ds);
      FillAll(t.Put(ds[0].name, v), w, ds[1..])
  }

  /** A run over ds is a run over its first domain followed by a run over the rest (a proof step for the loop). */
  lemma FillAllStep(t: ScoreTable, w: Widgets, ds: seq<Domain>)
    requires t.Valid() && ds != []
    ensures FillAll(t, w, ds) == FillAll(t.Put(ds[0].name, DomainScores(w, ds[0])), w, ds[1..])
  {
  }

  /** After a run over distinctly named domains, each domain holds its selected levels. */
  lemma {:induction false} FillAllStores(t: ScoreTable, w: Widgets, ds: seq<Domain>)
    requires t.Valid() && DistinctNames(ds)
    ensures forall j :: 0 <= j < |ds| ==>
      ds[j].name in FillAll(t, w, ds).entries && FillAll(t, w, ds).entries[ds[j].name] == DomainScores(w, ds[j])
    decreases |ds|
  {
    if ds != [] {
      var t' := t.Put(ds[0].name, DomainScores(w, ds[0]));
      TailShape(ds);
      FillAllStores(t', w, ds[1..]);
      FillAllStoresFirst(t, w, ds);
      forall j | 1 <= j < |ds|
        ensures ds[j].name in FillAll(t, w, ds).entries && FillAll(t, w, ds).entries[ds[j].name] == DomainScores(w, ds[j])
      {
        assert ds[j] == ds[1..][j - 1];
      }
    }
  }

  /** The first domain of a run over distinctly named domains keeps the levels stored for it. */
  lemma FillAllStoresFirst(t: ScoreTable, w: Widgets, ds: seq<Domain>)
    requires t.Valid() && DistinctNames(ds) && ds != []
    ensures ds[0].name in FillAll(t, w, ds).entries && FillAll(t, w, ds).entries[ds[0].name] == DomainScores(w, ds[0])
  {
    TailShape(ds);
    FillAllOthers(t.Put(ds[0].name, DomainScores(w, ds[0])), w, ds[1..]);
  }

  /** A run leaves every stored domain it does not visit as it was, and adds only the domains it visits. */
  lemma {:induction false} FillAllOthers(t: ScoreTable, w: Widgets, ds: seq<Domain>)
    requires t.Valid()
    ensures forall k :: k in t.entries && k !in Names(ds) ==>
      k in FillAll(t, w, ds).entries && FillAll(t, w, ds).entries[k] == t.entries[k]
    ensures forall k :: k in FillAll(t, w, ds).entries ==> k in t.entries || k in Names(ds)
    decreases |ds|
  {
    if ds != [] {
      TailShape(ds);
      FillAllOthers(t.Put(ds[0].name, DomainScores(w, ds[0])), w, ds[1..]);
    }
  }

  lemma AppendAssoc<T>(a: seq<T>, b: seq<T>, c: seq<T>)
    ensures a + (b + c) == (a + b) + c
  {
  }

  /** A run from a state holding none of the domains lists them after the old keys, in order. */
  lemma {:induction false} FillAllKeys(t: ScoreTable, w: Widgets, ds: seq<Domain>)
    requires t.Valid() && DistinctNames(ds)
    requires forall j :: 0 <= j < |ds| ==> ds[j].name !in t.entries
    ensures FillAll(t, w, ds).keys == t.keys + Names(ds)
    decreases |ds|
  {
    if ds != [] {
      var t' := t.Put(ds[0].name, DomainScores(w, ds[0]));
      TailShape(ds);
      forall j | 0 <= j < |ds[1..]|
        ensures ds[1..][j].name !in t'.entries
      {
        assert ds[1..][j] == ds[j + 1];
      }
      FillAllKeys(t', w, ds[1..]);
      AppendAssoc(t.keys, [ds[0].name], Names(ds[1..]));
    }
  }

  /** A run over domains that already hold their selected levels changes nothing. */
  lemma {:induction false} FillAllSettled(r: ScoreTable, w: Widgets, ds: seq<Domain>)
    requires r.Valid()
    requires forall j :: 0 <= j < |ds| ==> ds[j].name in r.entries && r.entries[ds[j].name] == DomainScores(w, ds[j])
    ensures FillAll(r, w, ds) == r
    decreases |ds|
  {
    if ds != [] {
      assert r.entries[ds[0].name := DomainScores(w, ds[0])] == r.entries;
      assert r.Put(ds[0].name, DomainScores(w, ds[0])) == r;
      forall j | 0 <= j < |ds[1..]|
        ensures ds[1..][j].name in r.entries && r.entries[ds[1..][j].name] == DomainScores(w, ds[1..][j])
      {
        assert ds[1..][j] == ds[j + 1];
      }
      FillAllSettled(r, w, ds[1..]);
    }
  }

  /**
   * Re-running the assessment view with unchanged selectors changes nothing:
   * a second run with the same selectors leaves the table the first left.
   * (Reruns within the assessment view keep the selectors; visiting another
   * view first does not, see the README.)
   */
  lemma FillAllIdempotent(t: ScoreTable, w: Widgets, ds: seq<Domain>)
    requires t.Valid() && DistinctNames(ds)
    ensures FillAll(FillAll(t, w, ds), w, ds) == FillAll(t, w, ds)
  {
    FillAllStores(t, w, ds);
    FillAllSettled(FillAll(t, w, ds), w, ds);
  }

  /** The sector choice does not change what the assessment stores: every sector has the same table. */
  lemma SectorIndependent(s1: string, s2: string, t: ScoreTable, w: Widgets)
    requires s1 in Nis2Sectors && s2 in Nis2Sectors && t.Valid()
    ensures s1 in SectorDomains && s2 in SectorDomains
    ensures FillAll(t, w, SectorDomains[s1]) == FillAll(t, w, SectorDomains[s2])
  {
  }

  /**
   * The tables the assessment view can start from: the empty table of a new
   * session, or one that lists exactly the domains of the table it runs over
   * (every sector has the same table), as every earlier run leaves it.
   */
  predicate Settled(t: ScoreTable, ds: seq<Domain>) {
    t.Valid() && (t.keys == [] || t.keys == Names(ds))
  }

  /** A new session's table is settled. */
  lemma EmptySettled(ds: seq<Domain>)
    ensures Settled(Empty(), ds)
  {
  }

  /** A run over domains that are all stored already keeps the key order. */
  lemma {:induction false} FillAllKeepsKeys(t: ScoreTable, w: Widgets, ds: seq<Domain>)
    requires t.Valid()
    requires forall j :: 0 <= j < |ds| ==> ds[j].name in t.entries
    ensures FillAll(t, w, ds).keys == t.keys
    decreases |ds|
  {
    if ds != [] {
      var t' := t.Put(ds[0].name, DomainScores(w, ds[0]));
      forall j | 0 <= j < |ds[1..]|
        ensures ds[1..][j].name in t'.entries
      {
        assert ds[1..][j] == ds[j + 1];
      }
      FillAllKeepsKeys(t', w, ds[1..]);
    }
  }

  /** A run from a settled table lists exactly the domains, in order, and so leaves a settled table. */
  lemma SettledStable(t: ScoreTable, w: Widgets, ds: seq<Domain>)
    requires Settled(t, ds) && DistinctNames(ds)
    ensures FillAll(t, w, ds).keys == Names(ds)
    ensures Settled(FillAll(t, w, ds), ds)
  {
    if t.keys == [] {
      assert forall j :: 0 <= j < |ds| ==> ds[j].name !in t.entries;
      FillAllKeys(t, w, ds);
      assert t.keys + Names(ds) == Names(ds);
    } else {
      assert forall j :: 0 <= j < |ds| ==> ds[j].name == t.keys[j];
      FillAllKeepsKeys(t, w, ds);
    }
  }

  /** Every domain stored in a settled table is one of the table's domains. */
  lemma SettledEntries(t: ScoreTable, ds: seq<Domain>)
    requires Settled(t, ds)
    ensures forall k :: k in t.entries ==> k in Names(ds)
  {
  }

  /** From a settled table, a run stores exactly the domains, each with its selected levels. */
  lemma SettledRunEntries(t: ScoreTable, w: Widgets, ds: seq<Domain>)
    requires Settled(t, ds) && DistinctNames(ds)
    ensures forall k :: k in FillAll(t, w, ds).entries <==> k in Names(ds)
    ensures forall i :: 0 <= i < |ds| ==> FillAll(t, w, ds).entries[ds[i].name] == DomainScores(w, ds[i])
  {
    SettledEntries(t, ds);
    FillAllOthers(t, w, ds);
    FillAllStores(t, w, ds);
    forall k | k in Names(ds)
      ensures k in FillAll(t, w, ds).entries
    {
      var names := Names(ds);
      var i :| 0 <= i < |names| && names[i] == k;
      assert ds[i].name == k;
    }
  }

  /** Two stores holding exactly the domains' names, with the same list for each domain, are equal. */
  lemma SameStores(m1: map<string, seq<int>>, m2: map<string, seq<int>>, ds: seq<Domain>)
    requires forall k :: k in m1 <==> k in Names(ds)
    requires forall k :: k in m2 <==> k in Names(ds)
    requires forall i :: 0 <= i < |ds| ==> m1[ds[i].name] == m2[ds[i].name]
    ensures m1 == m2
  {
    forall k | k in m1
      ensures k in m2 && m1[k] == m2[k]
    {
      var names := Names(ds);
      var i :| 0 <= i < |names| && names[i] == k;
      assert ds[i].name == k;
    }
  }

  /** From a settled table, a run stores the same lists as the first run with the same selectors. */
  lemma RerunEntries(t: ScoreTable, w: Widgets, ds: seq<Domain>)
    requires Settled(t, ds) && DistinctNames(ds)
    ensures FillAll(t, w, ds).entries == FillAll(Empty(), w, ds).entries
  {
    SettledRunEntries(t, w, ds);
    SettledRunEntries(Empty(), w, ds);
    SameStores(FillAll(t, w, ds).entries, FillAll(Empty(), w, ds).entries, ds);
  }

  /**
   * A rerun is a first run: from any table the assessment view can start
   * from, a run stores exactly what the first run with the same selectors
   * stores. Earlier selector values leave no trace.
   */
  lemma RerunIsFirstRun(t: ScoreTable, w: Widgets, ds: seq<Domain>)
    requires Settled(t, ds) && DistinctNames(ds)
    ensures FillAll(t, w, ds) == FillAll(Empty(), w, ds)
  {
    SettledStable(t, w, ds);
    SettledStable(Empty(), w, ds);
    RerunEntries(t, w, ds);
  }

  /**
   * The first run of the assessment view, from the empty state, over a table of
   * distinctly named domains with criteria: the table lists them in order,
   * each with its selected levels, all non-empty and in range.
   */
  lemma FirstRunOf(w: Widgets, ds: seq<Domain>)
    requires WidgetsValid(w) && DistinctNames(ds) && HasCriteria(ds)
    ensures var r := FillAll(Empty(), w, ds);
      && r.Valid() && Filled(r) && r.keys == Names(ds)
      && (forall i :: 0 <= i < |ds| ==> r.entries[ds[i].name] == DomainScores(w, ds[i]))
  {
    FillAllKeys(Empty(), w, ds);
    FillAllStores(Empty(), w, ds);
  }

  /** Every entry of a first run is the selected levels of one of the domains run over. */
  lemma FirstRunEntry(w: Widgets, ds: seq<Domain>, k: string)
    requires DistinctNames(ds) && k in FillAll(Empty(), w, ds).entries
    ensures exists i :: 0 <= i < |ds| && ds[i].name == k && FillAll(Empty(), w, ds).entries[k] == DomainScores(w, ds[i])
  {
    FillAllOthers(Empty(), w, ds);
    assert k !in Empty().entries;
    var names := Names(ds);
    assert k in names;
    var i :| 0 <= i < |names| && names[i] == k;
    assert ds[i].name == k;
    FillAllStores(Empty(), w, ds);
    assert FillAll(Empty(), w, ds).entries[ds[i].name] == DomainScores(w, ds[i]);
  }

  /** The first run over a sector's table: the four catalog domains in catalog order, four levels each. */
  lemma FirstRun(sector: string, w: Widgets)
    requires sector in Nis2Sectors && WidgetsValid(w)
    ensures sector in SectorDomains
    ensures var r := FillAll(Empty(), w, SectorDomains[sector]);
      && r.Valid() && Filled(r)
      && r.keys == ["Governance", "Risk Management", "Operational Security", "Incident Management"]
      && (forall k :: k in r.entries ==> |r.entries[k]| == 4)
  {
    SectorShape(sector);
    var ds := SectorDomains[sector];
    FirstRunOf(w, ds);
    var r := FillAll(Empty(), w, ds);
    forall k | k in r.entries
      ensures |r.entries[k]| == 4
    {
      FirstRunEntry(w, ds, k);
    }
  }

  /** Every selector of the domains ds shows level c. */
  predicate AllSelectorsAt(w: Widgets, ds: seq<Domain>, c: int) {
    forall i, j :: 0 <= i < |ds| && 0 <= j < |ds[i].criteria| ==>
      SelectLevel(w, WidgetKey(ds[i].name, ds[i].criteria[j])) == c
  }

  /**
   * Every selector set to the same level c, first run: the overall average
   * and each domain's average are c, and every row of the recommendations
   * table carries c's advisory.
   */
  lemma UniformFirstRun(w: Widgets, c: int, ds: seq<Domain>)
    requires WidgetsValid(w) && DistinctNames(ds) && HasCriteria(ds)
    requires AllSelectorsAt(w, ds, c)
    ensures var r := FillAll(Empty(), w, ds);
      && Filled(r)
      && (ds != [] ==> OverallAverage(r) == c as real)
      && |RecsTable(DomainAverages(r))| == |ds|
      && forall i :: 0 <= i < |ds| ==> RecsTable(DomainAverages(r))[i].recommendation == Recommendation(c as real)
  {
    FirstRunOf(w, ds);
    var r := FillAll(Empty(), w, ds);
    forall k, j | k in r.entries && 0 <= j < |r.entries[k]|
      ensures r.entries[k][j] == c
    {
      FirstRunEntry(w, ds, k);
    }
    UniformAverages(r, c);
  }

  /**
   * Every selector set to the same level c, on any run of the assessment
   * view (first run or rerun): the overall average and each domain's average
   * are c, and every row of the recommendations table carries c's advisory.
   */
  lemma UniformAssessment(t: ScoreTable, w: Widgets, c: int, ds: seq<Domain>)
    requires Settled(t, ds) && WidgetsValid(w) && DistinctNames(ds) && HasCriteria(ds)
    requires AllSelectorsAt(w, ds, c)
    ensures var r := FillAll(t, w, ds);
      && Filled(r)
      && (ds != [] ==> OverallAverage(r) == c as real)
      && |RecsTable(DomainAverages(r))| == |ds|
      && forall i :: 0 <= i < |ds| ==> RecsTable(DomainAverages(r))[i].recommendation == Recommendation(c as real)
  {
    RerunIsFirstRun(t, w, ds);
    UniformFirstRun(w, c, ds);
  }

  /**
   * Every selector of a sector at 4, on any run of the assessment view:
   * overall 4.0 and "Consider optimization and automation." for all four
   * domains.
   */
  lemma AllManagedScenario(sector: string, t: ScoreTable, w: Widgets)
    requires sector in Nis2Sectors && WidgetsValid(w)
    requires sector in SectorDomains && Settled(t, SectorDomains[sector])
    requires AllSelectorsAt(w, SectorDomains[sector], 4)
    ensures var r := FillAll(t, w, SectorDomains[sector]);
      && Filled(r)
      && OverallAverage(r) == 4.0
      && |RecsTable(DomainAverages(r))| == 4
      && forall i :: 0 <= i < 4 ==> RecsTable(DomainAverages(r))[i].recommendation == ConsiderOptimization
  {
    SectorShape(sector);
    UniformAssessment(t, w, 4, SectorDomains[sector]);
  }

  /**
   * Any run of the assessment view whose first domain's selectors read 0, 1,
   * 2 and 3: that domain is listed first, with the average 1.5 and the
   * corrective-action advisory, whatever the other domains hold.
   */
  lemma FirstDomainAtHalfScale(t: ScoreTable, w: Widgets, ds: seq<Domain>)
    requires Settled(t, ds) && WidgetsValid(w) && DistinctNames(ds) && HasCriteria(ds)
    requires ds != [] && DomainScores(w, ds[0]) == [0, 1, 2, 3]
    ensures var r := FillAll(t, w, ds);
      && Filled(r) && |r.keys| == |ds|
      && DomainAverages(r)[0] == (ds[0].name, 1.5)
      && RecsTable(DomainAverages(r))[0] == RecRow(ds[0].name, 1.5, HighPriority)
  {
    RerunIsFirstRun(t, w, ds);
    FirstRunOf(w, ds);
    var r := FillAll(Empty(), w, ds);
    assert r.keys[0] == ds[0].name && r.entries[ds[0].name] == [0, 1, 2, 3];
    MeanExample();
  }

  /**
   * The Governance scenario: any run of the assessment view over a sector
   * whose Governance selectors read 0, 1, 2 and 3 gives Governance, listed
   * first, the average 1.5 and the corrective-action advisory.
   */
  lemma GovernanceScenario(sector: string, t: ScoreTable, w: Widgets)
    requires sector in Nis2Sectors && WidgetsValid(w)
    requires sector in SectorDomains && Settled(t, SectorDomains[sector]) && SectorDomains[sector] != []
    requires DomainScores(w, SectorDomains[sector][0]) == [0, 1, 2, 3]
    ensures var r := FillAll(t, w, SectorDomains[sector]);
      && Filled(r) && |r.keys| == 4
      && DomainAverages(r)[0] == ("Governance", 1.5)
      && RecsTable(DomainAverages(r))[0] == RecRow("Governance", 1.5, HighPriority)
  {
    SectorShape(sector);
    FirstDomainAtHalfScale(t, w, SectorDomains[sector]);
  }

  /**
   * The first run over distinctly named domains of n > 0 criteria each, as
   * every sector's table is (four of four, by SectorShape): the overall
   * average is the mean of the domain averages.
   */
  lemma FirstRunOverallOf(w: Widgets, ds: seq<Domain>, n: nat)
    requires WidgetsValid(w) && DistinctNames(ds) && ds != [] && n > 0
    requires forall i :: 0 <= i < |ds| ==> |ds[i].criteria| == n
    ensures var r := FillAll(Empty(), w, ds);
      && Filled(r) && |r.keys| == |ds|
      && OverallAverage(r) == SumAverages(DomainAverages(r)) / |ds| as real
  {
    FirstRunOf(w, ds);
    var r := FillAll(Empty(), w, ds);
    forall k | k in r.entries
      ensures |r.entries[k]| == n
    {
      FirstRunEntry(w, ds, k);
    }
    OverallIsMeanOfAverages(r, n);
  }

  /** The download view was opened before the summary view had kept a table. */
  datatype ReportError = SummaryNotVisited

  /** A session's state: the score table and the recommendations table kept by the summary view. */
  class Session {
    var scores: ScoreTable
    var recsTable: Option<seq<RecRow>>

    /** Every state the views can reach: a well-formed table whose scores are levels. */
    ghost predicate Valid()
      reads this
    {
      scores.Valid() && InRange(scores)
    }

    /** A new session: no scores and no kept table. */
    constructor ()
      ensures Valid()
      ensures scores == Empty() && recsTable == None
    {
      scores := Empty();
      recsTable := None;
    }

    /** One iteration of the assessment loop: read the domain's levels in order, then store them. */
    method AssessDomain(d: Domain, w: Widgets)
      requires Valid() && WidgetsValid(w)
      modifies this`scores
      ensures Valid()
      ensures scores == old(scores).Put(d.name, DomainScores(w, d))
    {
      var domainScores: seq<int> := [];
      var j := 0;
      while j < |d.criteria|
        invariant 0 <= j <= |d.criteria|
        invariant |domainScores| == j
        invariant forall m :: 0 <= m < j ==> domainScores[m] == SelectLevel(w, WidgetKey(d.name, d.criteria[m]))
      {
        var level := SelectLevel(w, WidgetKey(d.name, d.criteria[j]));
        domainScores := domainScores + [level];
        j := j + 1;
      }
      assert domainScores == DomainScores(w, d);
      PutInRange(scores, d.name, domainScores);
      scores := scores.Put(d.name, domainScores);
    }

    /** The assessment loop over a domain table, in order. */
    method AssessDomains(domains: seq<Domain>, w: Widgets)
      requires Valid() && WidgetsValid(w)
      modifies this`scores
      ensures Valid()
      ensures scores == FillAll(old(scores), w, domains)
    {
      ghost var target := FillAll(scores, w, domains);
      var i := 0;
      while i < |domains|
        invariant 0 <= i <= |domains|
        invariant scores.Valid() && InRange(scores)
        invariant target == FillAll(scores, w, domains[i..])
      {
        assert domains[i..][1..] == domains[i + 1..];
        FillAllStep(scores, w, domains[i..]);
        AssessDomain(domains[i], w);
        i := i + 1;
      }
    }

    /** One run of the assessment view: every domain of the sector, in catalog order. */
    method AssessSector(sector: string, w: Widgets)
      requires Valid() && WidgetsValid(w)
      requires sector in Nis2Sectors
      modifies this`scores
      ensures Valid()
      ensures sector in SectorDomains && scores == FillAll(old(scores), w, SectorDomains[sector])
      ensures NonEmptyLists(old(scores)) ==> NonEmptyLists(scores)
    {
      SectorShape(sector);
      AssessDomains(SectorDomains[sector], w);
    }

    /**
     * The summary view: the overall average, the domain averages and the
     * recommendations table, which it keeps for the download view. Each
     * domain's mean is an unguarded division, so every stored list must be
     * non-empty. With nothing assessed, the heatmap of the empty table fails
     * before the table is kept: the average 0 is shown and nothing is kept.
     * The program itself never reaches that case: its first run is the
     * assessment view, which stores every domain of the sector.
     */
    method Summary() returns (avgScore: real, averages: seq<(string, real)>, rows: seq<RecRow>)
      requires Valid() && NonEmptyLists(scores)
      modifies this`recsTable
      ensures avgScore == OverallAverage(scores) && 0.0 <= avgScore <= 5.0
      ensures scores.keys == [] ==> avgScore == 0.0 && recsTable == old(recsTable)
      ensures averages == DomainAverages(scores) && rows == RecsTable(averages)
      ensures scores.keys != [] ==> recsTable == Some(rows)
    {
      OverallAverageInRange(scores);
      avgScore := OverallAverage(scores);
      averages := DomainAverages(scores);
      rows := RecsTable(averages);
      if scores.keys != [] {
        recsTable := Some(rows);
      }
    }

    /** The download view's report, built from the table the summary view kept. */
    method GenerateReport(org: string, assessor: string, date: string) returns (r: Result<Report, ReportError>)
      ensures recsTable.None? ==> r == Failure(SummaryNotVisited)
      ensures recsTable.Some? ==> r == Success(BuildReport(org, assessor, date, recsTable.value))
    {
      match recsTable
      case None => r := Failure(SummaryNotVisited);
      case Some(rows) => r := Success(BuildReport(org, assessor, date, rows));
    }
  }
}
