/**
 * The questionnaire catalog: four NIS2 domains, each an ordered list of four
 * criterion statements, and eleven sectors that all map to that one table.
 */
module Catalog {

  /** A named domain and its criteria, in display order. */
  datatype Domain = Domain(name: string, criteria: seq<string>)

  /** The domain table, in the dictionary's insertion order. */
  const Nis2Domains: seq<Domain> := [
    Domain("Governance", [
      "Cybersecurity strategy aligned with organizational goals.",
      "Cyber roles and responsibilities assigned and reviewed.",
      "Executive oversight of cybersecurity established.",
      "Cybersecurity integrated into governance and compliance."
    ]),
    Domain("Risk Management", [
      "Risk management framework implemented and maintained.",
      "Cyber risk assessments conducted and updated periodically.",
      "Third-party risks integrated into risk management.",
      "Risk treatment plans reviewed and acted upon."
    ]),
    Domain("Operational Security", [
      "IT assets inventoried and classified.",
      "Access control policies enforced and reviewed.",
      "System vulnerabilities are patched promptly.",
      "Network segmentation and monitoring deployed."
    ]),
    Domain("Incident Management", [
      "Incident response plan documented, tested, and updated.",
      "Reporting channels and detection tools established.",
      "Coordination with national CSIRTs or sector CSIRTs ensured.",
      "Post-incident review and continuous improvement cycle in place."
    ])
  ]

  /** The sectors offered in the sidebar, in order. */
  const Nis2Sectors: seq<string> := [
    "Energy", "Transport", "Banking", "Financial Market Infrastructure",
    "Health", "Drinking Water", "Waste Water", "Digital Infrastructure",
    "ICT Service Management", "Public Administration", "Space"
  ]

  /** Every sector is given the same domain table. */
  const SectorDomains: map<string, seq<Domain>> := map s | s in Nis2Sectors :: Nis2Domains

  /** The domain names of a table, in order. */
  function Names(ds: seq<Domain>): (ns: seq<string>)
    ensures |ns| == |ds|
    ensures forall i :: 0 <= i < |ds| ==> ns[i] == ds[i].name
  {
    if ds == [] then [] else [ds[0].name] + Names(ds[1..])
  }

  /** No two domains of a table share a name (they are keys of a dictionary). */
  predicate DistinctNames(ds: seq<Domain>) {
    forall i, j :: 0 <= i < j < |ds| ==> ds[i].name != ds[j].name
  }

  /** Every domain of a table has at least one criterion. */
  predicate HasCriteria(ds: seq<Domain>) {
    forall i :: 0 <= i < |ds| ==> |ds[i].criteria| > 0
  }

  /** A listed sector's entry is the one domain table. */
  lemma SectorTable(sector: string)
    requires sector in Nis2Sectors
    ensures sector in SectorDomains && SectorDomains[sector] == Nis2Domains
  {
  }

  /** A listed sector's table has distinctly named domains, each with criteria. */
  lemma SectorShape(sector: string)
    requires sector in Nis2Sectors
    ensures sector in SectorDomains
    ensures DistinctNames(SectorDomains[sector]) && HasCriteria(SectorDomains[sector])
    ensures |SectorDomains[sector]| == 4
    ensures forall i :: 0 <= i < 4 ==> |SectorDomains[sector][i].criteria| == 4
    ensures Names(SectorDomains[sector]) == ["Governance", "Risk Management", "Operational Security", "Incident Management"]
  {
  }

  /** Dropping the first domain keeps the others' criteria and names. */
  lemma TailShape(ds: seq<Domain>)
    requires ds != []
    ensures HasCriteria(ds) ==> HasCriteria(ds[1..])
    ensures DistinctNames(ds) ==> DistinctNames(ds[1..]) && ds[0].name !in Names(ds[1..])
    ensures Names(ds) == [ds[0].name] + Names(ds[1..])
  {
  }

  /**
   * The catalog's shape: exactly the listed sectors have an entry, each is the
   * one domain table, and that table holds four distinctly named domains of
   * four criteria each.
   */
  lemma CatalogShape()
    ensures forall s :: s in SectorDomains <==> s in Nis2Sectors
    ensures forall s :: s in SectorDomains ==> SectorDomains[s] == Nis2Domains
    ensures |Nis2Sectors| == 11
    ensures |Nis2Domains| == 4
    ensures forall i :: 0 <= i < |Nis2Domains| ==> |Nis2Domains[i].criteria| == 4
    ensures DistinctNames(Nis2Domains)
    ensures HasCriteria(Nis2Domains)
    ensures Names(Nis2Domains) == ["Governance", "Risk Management", "Operational Security", "Incident Management"]
  {
  }
}
