/** The insurance-company page (src/components/InsuranceCompanyList.tsx): the
    company search, the coverage counter and three-item preview on each card,
    the companies the coverage form may choose from, and the coverage form's
    initial values. */
module InsuranceCompanyList {
  import opened Js
  import opened Text
  import opened Lists
  import opened Records

  // ---------------------------------------------------------------------
  // Company search
  // ---------------------------------------------------------------------

  /** The search test: the name or the description contain the term, ignoring case. */
  predicate MatchesSearch(c: InsuranceCompany, searchTerm: string) {
    || Includes(ToLower(c.name), ToLower(searchTerm))
    || (c.description.Some? && Includes(ToLower(c.description.value), ToLower(searchTerm)))
  }

  function SearchTest(searchTerm: string): InsuranceCompany -> bool {
    (c: InsuranceCompany) => MatchesSearch(c, searchTerm)
  }

  /** The filter effect: the companies that match, in their order. The search
      is applied even when the term is empty, where it matches every company. */
  function FilterCompanies(companies: seq<InsuranceCompany>, searchTerm: string): (r: seq<InsuranceCompany>)
    ensures Subseq(r, companies)
    ensures forall c :: c in r ==> c in companies && MatchesSearch(c, searchTerm)
    ensures forall c :: c in companies && MatchesSearch(c, searchTerm) ==> c in r
  {
    Filter(companies, SearchTest(searchTerm))
  }

  /** An empty search keeps every company. */
  lemma EmptySearchKeepsAll(companies: seq<InsuranceCompany>)
    ensures FilterCompanies(companies, "") == companies
  {
    forall c | c in companies
      ensures MatchesSearch(c, "")
    {
      IncludesEmpty(ToLower(c.name));
    }
    FilterKeepsAll(companies, SearchTest(""));
  }

  // ---------------------------------------------------------------------
  // Coverage counter and preview
  // ---------------------------------------------------------------------

  function BelongsTo(companyId: string): CoverageType -> bool {
    (ct: CoverageType) => ct.companyId == companyId
  }

  /** `getCompanyCoverageCount`: how many coverages the company has. */
  function CoverageCount(coverages: seq<CoverageType>, companyId: string): nat {
    |Filter(coverages, BelongsTo(companyId))|
  }

  const PreviewSize: nat := 3

  /** The coverages listed on a company card: the first three of the
      company's coverages, in list order (a prefix of all of them). */
  function CoveragePreview(coverages: seq<CoverageType>, companyId: string): (r: seq<CoverageType>)
    ensures |r| == if CoverageCount(coverages, companyId) < PreviewSize then CoverageCount(coverages, companyId) else PreviewSize
    ensures forall ct :: ct in r ==> ct in coverages && ct.companyId == companyId
    ensures Subseq(r, coverages)
    ensures r <= Filter(coverages, BelongsTo(companyId))
  {
    var own := Filter(coverages, BelongsTo(companyId));
    var r := Take(own, PreviewSize);
    SubseqPrefix(r, own, coverages);
    r
  }

  /** The '+N coberturas más' line under the preview, present only when the
      company has more coverages than the preview shows. */
  function MoreCoveragesLabel(count: nat): (r: Option<string>)
    ensures r.Some? <==> count > PreviewSize
    ensures r.Some? ==> r.value == "+" + NatToDecimal(count - PreviewSize) + " coberturas más"
  {
    if count > PreviewSize then Some("+" + NatToDecimal(count - PreviewSize) + " coberturas más") else None
  }

  /** The number shown in the '+N' line. */
  function HiddenCount(count: nat): nat {
    if count > PreviewSize then count - PreviewSize else 0
  }

  /** The preview and the '+N' line together account for every coverage of
      the company: nothing is counted twice and nothing is lost, and the line
      names exactly the coverages left out of the preview. */
  lemma PreviewAccountsForAll(coverages: seq<CoverageType>, companyId: string)
    ensures |CoveragePreview(coverages, companyId)| + HiddenCount(CoverageCount(coverages, companyId)) ==
      CoverageCount(coverages, companyId)
    ensures MoreCoveragesLabel(CoverageCount(coverages, companyId)).Some? <==>
      |CoveragePreview(coverages, companyId)| < CoverageCount(coverages, companyId)
  {
  }

  /** Every company's coverages are among the loaded ones, and the counters
      of two different companies never add up to more than the list. */
  lemma CountsOfTwoCompanies(coverages: seq<CoverageType>, a: string, b: string)
    requires a != b
    ensures CoverageCount(coverages, a) + CoverageCount(coverages, b) <= |coverages|
  {
    FilterDisjoint(coverages, BelongsTo(a), BelongsTo(b));
  }

  // ---------------------------------------------------------------------
  // Coverage form
  // ---------------------------------------------------------------------

  predicate IsActiveCompany(c: InsuranceCompany) {
    c.isActive
  }

  /** The companies the coverage form offers: only the active ones, in order. */
  function SelectableCompanies(companies: seq<InsuranceCompany>): (r: seq<InsuranceCompany>)
    ensures forall c :: c in r <==> c in companies && c.isActive
    ensures Subseq(r, companies)
  {
    Filter(companies, IsActiveCompany)
  }

  /** The page state that opens the coverage form. */
  datatype CoverageDialog = CoverageDialog(editingCoverage: Option<CoverageType>, selectedCompanyId: string, showCoverageModal: bool)

  /** `handleEditCoverage`: edit a coverage and select its company. */
  function EditCoverage(d: CoverageDialog, coverage: CoverageType): (r: CoverageDialog)
    ensures r == CoverageDialog(Some(coverage), coverage.companyId, true)
  {
    d.(editingCoverage := Some(coverage), selectedCompanyId := coverage.companyId, showCoverageModal := true)
  }

  /** The 'Nueva Cobertura' button: nothing edited, no company selected. */
  function NewCoverage(d: CoverageDialog): (r: CoverageDialog)
    ensures r == CoverageDialog(None, "", true)
  {
    d.(editingCoverage := None, selectedCompanyId := "", showCoverageModal := true)
  }

  datatype CoverageForm = CoverageForm(
    companyId: string,
    name: string,
    description: string,
    policyType: string,
    basePremium: real,
    isActive: bool)

  /** The form's initial values: the edited coverage's, with the company
      falling back to the selected one and then to ''; a new coverage is a
      'vida' coverage with premium 0 that is active (`?? true` keeps an
      explicit false). */
  function InitialCoverageForm(coverage: Option<CoverageType>, selectedCompanyId: string): (f: CoverageForm)
    ensures coverage.None? ==> f == CoverageForm(selectedCompanyId, "", "", "vida", 0.0, true)
    ensures coverage.Some? ==> f.isActive == coverage.value.isActive && f.basePremium == coverage.value.basePremium
    ensures coverage.Some? && coverage.value.companyId != "" ==> f.companyId == coverage.value.companyId
    ensures coverage.Some? && coverage.value.companyId == "" ==> f.companyId == selectedCompanyId
  {
    match coverage
    case None => CoverageForm(selectedCompanyId, "", "", "vida", 0.0, true)
    case Some(c) =>
      CoverageForm(
        if c.companyId != "" then c.companyId else selectedCompanyId,
        c.name, OrEmpty(c.description),
        if c.policyType == "" then "vida" else c.policyType,
        c.basePremium, c.isActive)
  }

  /** Opening the form from a coverage's edit button preselects that
      coverage's company; opening it from 'Nueva Cobertura' preselects none. */
  lemma DialogPreselectsCompany(d: CoverageDialog, coverage: CoverageType)
    ensures var e := EditCoverage(d, coverage);
      InitialCoverageForm(e.editingCoverage, e.selectedCompanyId).companyId == coverage.companyId
    ensures var n := NewCoverage(d);
      InitialCoverageForm(n.editingCoverage, n.selectedCompanyId).companyId == ""
  {
  }
}
