# CMM self-assessment: scoring core

This project models the scoring core of a cybersecurity maturity
self-assessment tool. A user picks an NIS2 sector. The tool shows four
domains (Governance, Risk Management, Operational Security, Incident
Management) of four criteria each, and reads one maturity level from 0 to 5
per criterion on the capability-maturity (CMM) scale. The summary view then
derives per-domain averages, an overall average and a recommendations table.
Each average in that table is mapped to one of five advisories by a
first-match threshold chain. The download view writes that table into a
report.

Modules, following the script's parts:

- `Rubric` (`rubric.dfy`): the CMM scale, its six keys, and the selector's options.
- `Catalog` (`catalog.dfy`): the domain table, the eleven sectors, and the sector-to-table map.
- `Policy` (`policy.dfy`): the recommendation chain. `Band` is an independent reference definition: the number of thresholds (2, 3, 4, 5) a score has reached.
- `ScoreTables` (`scoretable.dfy`): the assessment state. It is an insertion-ordered dictionary from domain name to score list, as a Python `dict` is. Assigning to an existing key keeps that key's position; a new key goes last.
- `Aggregation` (`aggregation.dfy`): `sum`, the mean (`sum/len`), the domain averages, the flattened score list, and the overall mean with its `0` fallback.
- `Reports` (`report.dfy`): the recommendations table, and the report's text content. Each report line is a (domain, recommendation, average) triple.
- `Assessment` (`session.dfy`): the selectors and the assessment loop. `Session` is a class whose `scores` and `recsTable` fields are the session state the views update in place.

Modelling choices:

- **Selectors:** each selector is read from a widget store keyed by `"<domain>-<criterion>"`. A selector that was never touched returns its first option, level 0. A selector can only hold one of its options, so `WidgetsValid` is a precondition, not a validation branch: the source has no validation. `WidgetsValidIsOptions` proves that "every stored value is a rubric level" is the same as "every stored value is one of the selector's options".
- **Exact averages:** averages are exact rationals, the integer sum divided by the count.
- **Unguarded division:** `Mean`, `DomainAverages` and `Session.Summary` require non-empty lists, because the source divides without a guard. `Session.AssessSector` proves that runs over catalog domains keep every stored list non-empty. `FirstRun` proves the first run stores four levels per domain.
- **Sector switch:** the sector does not reset the state. Widget keys do not mention the sector, and every sector maps to the same table, so a run stores the same table whichever sector is selected (`SectorIndependent`).
- **Summary with nothing assessed:** the overall average is 0 and there are no domain averages. The heatmap of the resulting empty frame is rejected by the plotting library (CMM.py:116-118) before the table is kept, so `Session.Summary` keeps no new table in that case. The program never reaches this state: the navigation radio starts on the assessment view (CMM.py:80), so the first run of the script stores all four of the sector's domains (CMM.py:82-98) before the summary view can be chosen. The model keeps the branch because `Session.Summary` may be called on a new session.
- **Download before Summary:** the download view reads the table the summary view last kept. If the summary view has never run, the source fails on a missing session attribute. `GenerateReport` models this as `Failure(SummaryNotVisited)`.
- **Stale report:** a report built after scores changed, without revisiting the summary, carries the old table. The model keeps that behaviour.
- **No overall average in the report:** the report lists only the header and the per-domain lines, as the code does. The overall average is not written to the report.

## Model

| member | source | states |
|---|---|---|
| `Rubric.LevelRange` | CMM.py:18-25 | the maturity levels (the rubric's keys) are exactly the integers 0 to 5 |
| `Rubric.LevelOptionsAreRubricKeys` | CMM.py:96 | the selector's options are exactly the rubric's keys, ascending, and the first option is 0 |
| `Catalog.CatalogShape` | CMM.py:41-74 | exactly the eleven listed sectors have an entry, each is the one domain table, and that table has four distinctly named domains of four criteria each, in the listed order |
| `Catalog.SectorTable` | CMM.py:69-74 | a listed sector maps to the shared domain table |
| `Catalog.SectorShape` | CMM.py:41-74 | a listed sector's table has four distinctly named domains, each with four criteria, named in catalog order |
| `Policy.Recommendation` | CMM.py:28-38 | the result is one of the five advisories, and each advisory is returned exactly when the score is in its band: below 2, [2,3), [3,4), [4,5), at least 5 |
| `Policy.Band` | CMM.py:28-38 | the band index, counting the thresholds reached, is below the number of advisories |
| `Policy.CountReachedMonotone` | CMM.py:28-38 | a higher score reaches at least as many thresholds as a lower one |
| `Policy.BandMonotone` | CMM.py:28-38 | the band never decreases as the score increases |
| `Policy.RecommendationIsBandAdvice` | CMM.py:28-38 | the if/elif chain returns the advisory indexed by the threshold count |
| `Policy.RecommendationMonotone` | CMM.py:28-38 | for s <= t, the advisory for t is at the same or a less urgent position than the advisory for s |
| `Policy.BandExamples` | CMM.py:28-38 | 1.9, 2.0, 3.0, 4.0 and 5.0 fall in bands 0, 1, 2, 3 and 4 with the matching advisories |
| `ScoreTables.Empty` | CMM.py:82-83 | the initial `{}`: a well-formed table with no key and no value, trivially in range and without empty lists |
| `ScoreTables.ScoreTable.Put` | CMM.py:98 | dict assignment: the key maps to the new list, every other key keeps its value, no other key appears, an existing key keeps its position and a new key goes last |
| `ScoreTables.PutInRange` | CMM.py:96-98 | storing a list of levels keeps every stored score a level |
| `ScoreTables.PutNonEmpty` | CMM.py:98 | storing a non-empty list keeps every stored list non-empty |
| `Aggregation.SumAppend` | CMM.py:103 | the sum of a concatenation is the sum of the sums |
| `Aggregation.SumLeftFold` | CMM.py:102 | `sum` adds left to right: appending a score adds it to the total |
| `Aggregation.Mean` | CMM.py:102 | `sum(s)/len(s)` of a non-empty list: len copies of the mean make up the sum |
| `Aggregation.SumOfLevels` | CMM.py:102 | a list of levels sums to between 0 and five times its length |
| `Aggregation.SumOfConstant` | CMM.py:102 | a list whose every element is c sums to c times its length |
| `Aggregation.MeanInRange` | CMM.py:102 | the mean of a non-empty list of levels lies in [0, 5] |
| `Aggregation.MeanOfConstant` | CMM.py:102 | the mean of a non-empty constant list is that constant |
| `Aggregation.MeanExample` | CMM.py:102 | [0, 1, 2, 3] averages 1.5 |
| `Aggregation.AveragesOf` | CMM.py:102 | one (domain, mean) pair per listed key, in order |
| `Aggregation.DomainAverages` | CMM.py:102 | one pair per stored domain, in dictionary order, each holding that domain's name and the mean of its list |
| `Aggregation.Flatten` | CMM.py:103 | a score occurs in the concatenation exactly when it occurs in one of the listed domains' lists |
| `Aggregation.AllScores` | CMM.py:103 | `all_scores` holds a score exactly when some stored domain's list holds it |
| `Aggregation.OverallAverage` | CMM.py:104 | `avg_score` is 0 when there are no scores; otherwise as many copies of it as there are scores make up their sum |
| `Aggregation.FlattenTotals` | CMM.py:103 | the flattened list is the first domain's list followed by the rest; its length and its sum are the totals of the lists; it is empty exactly when every domain's list is empty |
| `Aggregation.FlattenSize` | CMM.py:103 | the flattened list's length and sum are the totals of the lists |
| `Aggregation.UniformCount` | CMM.py:103 | lists of n scores each hold n scores per key in all |
| `Aggregation.UniformSum` | CMM.py:102-103 | lists of n scores each sum to n times the sum of their means |
| `Aggregation.FlatMeanIsMeanOfAverages` | CMM.py:102-104 | the mean of equally long lists, concatenated, is the mean of their means |
| `Aggregation.OverallIsMeanOfAverages` | CMM.py:102-104 | when every stored list has the same length, the overall average is the mean of the domain averages |
| `Aggregation.FlattenLevels` | CMM.py:103 | flattening lists of levels gives a list of levels |
| `Aggregation.FlattenConstant` | CMM.py:103 | flattening lists whose every element is c gives such a list |
| `Aggregation.OverallAverageInRange` | CMM.py:103-104 | for a state of non-empty level lists, there are no scores exactly when no domain is stored, the overall average is then exactly 0, and it always lies in [0, 5] |
| `Aggregation.DomainAveragesInRange` | CMM.py:102 | every domain average of such a state lies in [0, 5] |
| `Aggregation.UniformAverages` | CMM.py:102-104 | when every stored score is c, every domain average is c, and so is the overall average if anything is stored |
| `Reports.RecsTable` | CMM.py:123-127 | one row per (domain, average) pair, in the same order, carrying that domain, that average and the advisory for that average |
| `Reports.ReportLines` | CMM.py:165-166 | one report line per table row, in table order, carrying the row's domain, advisory and average unchanged |
| `Reports.BuildReport` | CMM.py:145-166 | the report has the fixed title, the given organization, assessor and date, the fixed "Domain Recommendations" heading, and one line per table row with that row's fields |
| `Reports.ReportAgreesWithTable` | CMM.py:123-166 | line i of a report built from the table of averages states domain i, the advisory for average i, and average i |
| `Assessment.WidgetsValidIsOptions` | CMM.py:96 | every stored selector value is a rubric level exactly when every stored value is one of the selector's options |
| `Assessment.WidgetKeyParts` | CMM.py:96 | a selector's key is the domain name, a dash, then the criterion |
| `Assessment.WidgetKeyInjective` | CMM.py:96 | for domain names without a dash, two selectors share a key only if they have the same domain and criterion |
| `Assessment.SelectLevel` | CMM.py:96 | a selector returns its stored value, or the first option (0) when it has none, and the value is a level when the selectors are valid |
| `Assessment.DomainScores` | CMM.py:90-97 | one selected level per criterion, so the list is as long as the domain's criteria, and every element is a level when the selectors are valid |
| `Assessment.FillAll` | CMM.py:88-98 | a run keeps the table well-formed, keeps every stored score a level when the selectors are valid, and keeps every list non-empty when each visited domain has criteria |
| `Assessment.FillAllStores` | CMM.py:88-98 | after a run over distinctly named domains, each domain holds its selected levels in criterion order |
| `Assessment.FillAllStoresFirst` | CMM.py:88-98 | the first domain of such a run keeps the levels stored for it |
| `Assessment.FillAllOthers` | CMM.py:88-98 | a run leaves every domain it does not visit unchanged, and adds only the domains it visits |
| `Assessment.FillAllKeys` | CMM.py:88-98 | a run from a state holding none of the domains lists them after the old keys, in catalog order |
| `Assessment.FillAllSettled` | CMM.py:88-98 | a run over domains that already hold their selected levels changes nothing |
| `Assessment.FillAllIdempotent` | CMM.py:88-98 | rerunning the assessment view with unchanged selectors, as within the assessment view, leaves the state unchanged |
| `Assessment.SectorIndependent` | CMM.py:74-88 | a run over any two listed sectors' tables stores the same result |
| `Assessment.FirstRunOf` | CMM.py:82-98 | from the empty state, a run over distinctly named domains with criteria lists them in order, each with its selected levels, all non-empty and in range |
| `Assessment.FirstRunEntry` | CMM.py:82-98 | every stored entry after a first run is the selected levels of one of the visited domains |
| `Assessment.FirstRun` | CMM.py:82-98 | the first run over a sector stores the four catalog domains, in catalog order, with four levels each |
| `Assessment.FirstRunOverallOf` | CMM.py:88-104 | the first run over distinctly named domains of n criteria each, as every sector's table is: the overall average is the mean of the domain averages |
| `Assessment.EmptySettled` | CMM.py:82-83 | a new session's empty table is settled, that is valid and either empty or listing exactly the sector's domains, the only tables the assessment view can leave |
| `Assessment.FillAllKeepsKeys` | CMM.py:91-98 | a run over domains that are all already stored leaves the key order as it was |
| `Assessment.SettledStable` | CMM.py:88-98 | a run from a settled table lists exactly the sector's domains in catalog order, and leaves a settled table |
| `Assessment.SettledEntries` | CMM.py:82-98 | a settled table stores no domain outside the sector |
| `Assessment.SettledRunEntries` | CMM.py:88-98 | after a run from a settled table, the stored domains are exactly the sector's, each with the levels read from its selectors now |
| `Assessment.SameStores` | CMM.py:91-98 | two stores with the same domains and the same lists per domain are equal |
| `Assessment.RerunEntries` | CMM.py:88-98 | a run from a settled table stores the same lists as a run from the empty table |
| `Assessment.RerunIsFirstRun` | CMM.py:88-98 | a run from any settled table (a new session or after any earlier run) gives the same table as a first run with the same selectors: earlier scores are overwritten and the order is kept |
| `Assessment.UniformFirstRun` | CMM.py:88-127 | with every selector at c, the first run gives overall average c and one table row per domain, each with c's advisory |
| `Assessment.UniformAssessment` | CMM.py:88-127 | with every selector at c, any run of the assessment view, from a new session's table or after any earlier run, gives overall average c and one table row per domain, each with c's advisory |
| `Assessment.AllManagedScenario` | CMM.py:88-127 | with every selector of a sector at 4, any run (first or rerun) gives the overall average 4.0 and four rows advising "Consider optimization and automation." |
| `Assessment.FirstDomainAtHalfScale` | CMM.py:88-127 | on any run whose first domain's selectors read 0, 1, 2, 3, that domain is listed first with average 1.5 and the corrective-action advisory |
| `Assessment.GovernanceScenario` | CMM.py:88-127 | on any run (first or rerun) over a sector whose Governance selectors read 0, 1, 2, 3, Governance is listed first with average 1.5 and the corrective-action advisory |
| `Assessment.Session.constructor` | CMM.py:82-83 | a new session has an empty score table and no kept recommendations table |
| `Assessment.Session.AssessDomain` | CMM.py:89-98 | the loop reads one level per criterion in order, then overwrites that domain's entry with exactly those levels; all other state is unchanged, and stored scores stay levels |
| `Assessment.Session.AssessDomains` | CMM.py:88-98 | the outer loop leaves the table equal to a run over the domains in order |
| `Assessment.Session.AssessSector` | CMM.py:79-98 | one pass of the assessment view over the selected sector's table equals the run `FillAll`, and keeps every list non-empty |
| `Assessment.Session.Summary` | CMM.py:100-132 | the summary view returns the overall average (in [0, 5], and 0 with nothing assessed), the domain averages and their recommendations table; it keeps that table in the session, except with nothing assessed, where the heatmap fails first and the kept table is unchanged |
| `Assessment.Session.GenerateReport` | CMM.py:134-166 | the download view fails when no table has been kept; otherwise it builds the report from the kept table, with the given metadata |

## Left out

- Streamlit presentation is not modelled. This covers the page configuration, sidebar, radio, expanders, columns, markdown, `st.metric` and `st.dataframe`. They only render the model's values.
- The rerun-per-interaction execution of the script is not modelled. Each interaction is one call of a `Session` method.
- The per-session state (kept across reruns for one user) is modelled as one `Session` instance owned by the caller; concurrency is not modelled.
- The bar chart and heatmap are not modelled (matplotlib, seaborn and pandas are foreign libraries). The figures the summary view keeps for the report are not modelled either.
- PDF generation is not modelled: page layout, fonts, image embedding, PNG file writes, the latin1 encoding and the download button are foreign calls and I/O. Only the report's text content is kept. Leaving out the encoding drops a failure path: an organization or assessor name holding a character outside Latin-1 makes the encoding at CMM.py:168 raise, so the download never appears, whereas `Session.GenerateReport` returns `Success` for any text.
- The logo existence checks are filesystem I/O and are not modelled.
- Floating-point averages and their two-decimal formatting are not modelled: averages are exact rationals, and a report line keeps the average as a number.
- The date input is taken as its text form.
- Rejecting a rating outside 0 to 5 is not modelled: the selector offers only the rubric's keys, and the code has no validation branch.
- Widget keys are proved distinct only for domain names without a dash (`WidgetKeyInjective`), which covers the catalog's four names; criteria are not checked for a dash.
- The framework discards the state of selectors not drawn in a run, so after a visit to the summary or download view every selector is back at its first option, and the next assessment run stores zeros. The widget store is a parameter of each run, so this is not modelled as a transition; `FillAllIdempotent` speaks of reruns with unchanged selectors, as within the assessment view.
- The empty frame's failure in the plotting library is modelled only as its effect on the session: no table is kept. The error message it shows is not modelled.
