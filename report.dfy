/**
 * The recommendations table built in the summary view, and the report that
 * the download view assembles from it. Layout, fonts, chart images and the
 * two-decimal formatting of averages belong to the PDF renderer and are not
 * part of this module: a report line is kept as its three fields.
 */
module Reports {
  import opened Policy

  /** One row of the recommendations table. */
  datatype RecRow = RecRow(domain: string, avgScore: real, recommendation: string)

  /** One line of the report's recommendations page. */
  datatype ReportLine = ReportLine(domain: string, recommendation: string, avgScore: real)

  /** The report's text content: header fields, the recommendations heading and one line per table row. */
  datatype Report = Report(title: string, organization: string, assessor: string, date: string, heading: string, lines: seq<ReportLine>)

  const ReportTitle := "Cybersecurity Maturity Report"

  const RecommendationsHeading := "Domain Recommendations"

  /** recs: one row per (domain, average) pair, in order, with that average's advisory. */
  function RecsTable(avgs: seq<(string, real)>): (rows: seq<RecRow>)
    ensures |rows| == |avgs|
    ensures forall i :: 0 <= i < |avgs| ==>
      rows[i].domain == avgs[i].0 && rows[i].avgScore == avgs[i].1 && rows[i].recommendation == Recommendation(avgs[i].1)
  {
    if avgs == [] then [] else [RecRow(avgs[0].0, avgs[0].1, Recommendation(avgs[0].1))] + RecsTable(avgs[1..])
  }

  /** The report's lines: each table row as written, in the table's order, nothing recomputed. */
  function ReportLines(rows: seq<RecRow>): (lines: seq<ReportLine>)
    ensures |lines| == |rows|
    ensures forall i :: 0 <= i < |rows| ==>
      lines[i].domain == rows[i].domain && lines[i].recommendation == rows[i].recommendation
      && lines[i].avgScore == rows[i].avgScore
  {
    if rows == [] then [] else [ReportLine(rows[0].domain, rows[0].recommendation, rows[0].avgScore)] + ReportLines(rows[1..])
  }

  /** The report: the fixed title, the user's metadata, the fixed heading, and the table's lines. */
  function BuildReport(org: string, assessor: string, date: string, rows: seq<RecRow>): (r: Report)
    ensures r.title == ReportTitle && r.organization == org && r.assessor == assessor && r.date == date
    ensures r.heading == RecommendationsHeading
    ensures |r.lines| == |rows|
    ensures forall i :: 0 <= i < |rows| ==>
      r.lines[i].domain == rows[i].domain && r.lines[i].recommendation == rows[i].recommendation
      && r.lines[i].avgScore == rows[i].avgScore
  {
    Report(ReportTitle, org, assessor, date, RecommendationsHeading, ReportLines(rows))
  }

  /**
   * The exported report states, line by line, what the summary's table shows:
   * each line's advisory is the policy applied to the same average.
   */
  lemma ReportAgreesWithTable(org: string, assessor: string, date: string, avgs: seq<(string, real)>)
    ensures var r := BuildReport(org, assessor, date, RecsTable(avgs));
      |r.lines| == |avgs|
      && forall i :: 0 <= i < |avgs| ==>
        r.lines[i] == ReportLine(avgs[i].0, Recommendation(avgs[i].1), avgs[i].1)
  {
  }
}
