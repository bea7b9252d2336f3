/** The policy list (src/components/PolicyList.tsx): the search, type and
    status filter, the colour and icon per row, the status label, and the
    policy form's defaults. */
module PolicyList {
  import opened Js
  import opened Text
  import opened Lists
  import opened Records

  // ---------------------------------------------------------------------
  // Filter
  // ---------------------------------------------------------------------

  /** The policyholder name the search looks in: "first last", whatever the
      entity type, with a missing part printed as "null". */
  function HolderName(ph: Policyholder): string {
    Interp(ph.firstName) + " " + Interp(ph.lastName)
  }

  /** The search test: the policy number, the company or the policyholder's
      name contain the term, ignoring case. */
  predicate MatchesSearch(p: Policy, searchTerm: string) {
    || Includes(ToLower(p.policyNumber), ToLower(searchTerm))
    || Includes(ToLower(p.insuranceCompany), ToLower(searchTerm))
    || (p.policyholder.Some? && Includes(ToLower(HolderName(p.policyholder.value)), ToLower(searchTerm)))
  }

  /** What each stage of the filter lets through; an empty term and the value
      'all' let everything through. */
  predicate PassesSearch(p: Policy, searchTerm: string) {
    searchTerm == "" || MatchesSearch(p, searchTerm)
  }

  predicate PassesType(p: Policy, filterType: string) {
    filterType == "all" || p.policyType == filterType
  }

  predicate PassesStatus(p: Policy, filterStatus: string) {
    filterStatus == "all" || p.status == filterStatus
  }

  /** Whether a row is shown: it passes all three stages. */
  predicate Visible(p: Policy, searchTerm: string, filterType: string, filterStatus: string) {
    PassesSearch(p, searchTerm) && PassesType(p, filterType) && PassesStatus(p, filterStatus)
  }

  function SearchTest(searchTerm: string): Policy -> bool {
    (p: Policy) => MatchesSearch(p, searchTerm)
  }

  function TypeTest(filterType: string): Policy -> bool {
    (p: Policy) => p.policyType == filterType
  }

  function StatusTest(filterStatus: string): Policy -> bool {
    (p: Policy) => p.status == filterStatus
  }

  function AfterSearch(searchTerm: string): Policy -> bool {
    (p: Policy) => PassesSearch(p, searchTerm)
  }

  function AfterType(searchTerm: string, filterType: string): Policy -> bool {
    (p: Policy) => PassesSearch(p, searchTerm) && PassesType(p, filterType)
  }

  function VisibleTest(searchTerm: string, filterType: string, filterStatus: string): Policy -> bool {
    (p: Policy) => Visible(p, searchTerm, filterType, filterStatus)
  }

  /** The filter effect: `filtered` starts as the loaded list and is narrowed
      by the search term, the type and the status in turn, each stage skipped
      when it is empty or 'all'. The result keeps exactly the visible rows, in
      their order. */
  method FilterPolicies(policies: seq<Policy>, searchTerm: string, filterType: string, filterStatus: string)
    returns (filtered: seq<Policy>)
    ensures filtered == Filter(policies, VisibleTest(searchTerm, filterType, filterStatus))
    ensures Subseq(filtered, policies)
    ensures forall p :: p in filtered ==> p in policies && Visible(p, searchTerm, filterType, filterStatus)
    ensures forall p :: p in policies && Visible(p, searchTerm, filterType, filterStatus) ==> p in filtered
    ensures searchTerm == "" && filterType == "all" && filterStatus == "all" ==> filtered == policies
  {
    filtered := policies;
    if searchTerm != "" {
      filtered := Filter(filtered, SearchTest(searchTerm));
      FilterSameTest(policies, SearchTest(searchTerm), AfterSearch(searchTerm));
    } else {
      FilterKeepsAll(policies, AfterSearch(searchTerm));
    }
    assert filtered == Filter(policies, AfterSearch(searchTerm));

    if filterType != "all" {
      FilterTwice(policies, AfterSearch(searchTerm), TypeTest(filterType), AfterType(searchTerm, filterType));
      filtered := Filter(filtered, TypeTest(filterType));
    } else {
      FilterSameTest(policies, AfterSearch(searchTerm), AfterType(searchTerm, filterType));
    }
    assert filtered == Filter(policies, AfterType(searchTerm, filterType));

    var visible := VisibleTest(searchTerm, filterType, filterStatus);
    if filterStatus != "all" {
      FilterTwice(policies, AfterType(searchTerm, filterType), StatusTest(filterStatus), visible);
      filtered := Filter(filtered, StatusTest(filterStatus));
    } else {
      FilterSameTest(policies, AfterType(searchTerm, filterType), visible);
    }
    if searchTerm == "" && filterType == "all" && filterStatus == "all" {
      FilterKeepsAll(policies, visible);
    }
  }

  /** The search reads the policyholder's first and last name even for a
      legal entity, whose names are null: such a policy is found by the term
      "null", whatever its business name. */
  lemma LegalEntitySearchedByNull(p: Policy)
    requires p.policyholder.Some? && p.policyholder.value.firstName.None?
    ensures MatchesSearch(p, "null")
  {
    var name := HolderName(p.policyholder.value);
    assert ToLower("null") == "null";
    assert ToLower(name)[..4] == "null";
  }

  // ---------------------------------------------------------------------
  // Row display
  // ---------------------------------------------------------------------

  /** `getStatusColor`: the badge classes of a status. */
  function StatusColor(status: string): string {
    match status
    case "activa" => "bg-green-100 text-green-800"
    case "vencida" => "bg-red-100 text-red-800"
    case "cancelada" => "bg-gray-100 text-gray-800"
    case "pendiente" => "bg-yellow-100 text-yellow-800"
    case _ => "bg-gray-100 text-gray-800"
  }

  /** The four known statuses get four different badges; any other status
      falls to the grey of a cancelled policy. */
  lemma StatusColorCases(status: string)
    ensures status != "activa" && status != "vencida" && status != "pendiente" ==>
      StatusColor(status) == StatusColor("cancelada")
    ensures StatusColor("activa") != StatusColor("vencida") && StatusColor("activa") != StatusColor("pendiente")
      && StatusColor("activa") != StatusColor("cancelada") && StatusColor("vencida") != StatusColor("pendiente")
      && StatusColor("vencida") != StatusColor("cancelada") && StatusColor("pendiente") != StatusColor("cancelada")
  {
  }

  /** `getTypeIcon`: the glyph of a policy type. */
  function TypeIcon(policyType: string): string {
    match policyType
    case "vida" => "❤️"
    case "auto" => "🚗"
    case "moto" => "🏍️"
    case "bicicleta" => "🚲"
    case "hogar" => "🏠"
    case _ => "📋"
  }

  /** 'otro' and every type outside the five known ones get the same glyph,
      '📋'; the known ones each get their own. */
  lemma TypeIconCases(policyType: string)
    ensures policyType !in ["vida", "auto", "moto", "bicicleta", "hogar"] ==> TypeIcon(policyType) == "📋"
    ensures TypeIcon("otro") == "📋"
    ensures policyType in ["vida", "auto", "moto", "bicicleta", "hogar"] ==> TypeIcon(policyType) != "📋"
  {
  }

  /** The status label: `charAt(0).toUpperCase() + slice(1)`. */
  function Capitalize(status: string): (r: string)
    ensures |r| == |status|
    ensures status != "" ==> r[0] == UpperChar(status[0]) && r[1..] == status[1..]
    ensures status == "" ==> r == ""
  {
    if status == "" then "" else ToUpper(status[..1]) + status[1..]
  }

  /** The label differs from the stored status only in the case of its first
      letter, and labelling it again changes nothing. */
  lemma CapitalizeKeepsStatus(status: string)
    ensures ToLower(Capitalize(status)) == ToLower(status)
    ensures Capitalize(Capitalize(status)) == Capitalize(status)
  {
    if status != "" {
      var r := Capitalize(status);
      ToLowerOfUpper(status[..1]);
      assert r == ToUpper(status[..1]) + status[1..];
      assert status == status[..1] + status[1..];
      ToLowerConcat(ToUpper(status[..1]), status[1..]);
      ToLowerConcat(status[..1], status[1..]);
      UpperCharIdempotent(status[0]);
    }
  }

  // ---------------------------------------------------------------------
  // Policy form
  // ---------------------------------------------------------------------

  datatype PolicyForm = PolicyForm(
    policyNumber: string,
    policyholderId: string,
    policyType: string,
    insuranceCompany: string,
    startDate: string,
    endDate: string,
    premiumAmount: real,
    paymentFrequency: string,
    coverageDetails: map<string, string>,
    status: string)

  /** The form's initial state: the edited policy's fields, with an empty
      type, frequency or status replaced by 'vida', 'mensual' and 'activa';
      a new policy gets those defaults, premium 0 and empty text. */
  function InitialPolicyForm(existing: Option<Policy>): (f: PolicyForm)
    ensures existing.None? ==> f == PolicyForm("", "", "vida", "", "", "", 0.0, "mensual", map[], "activa")
    ensures f.policyType != "" && f.paymentFrequency != "" && f.status != ""
    ensures existing.Some? && existing.value.policyType != "" ==> f.policyType == existing.value.policyType
    ensures existing.Some? ==> f.premiumAmount == existing.value.premiumAmount
  {
    match existing
    case None => PolicyForm("", "", "vida", "", "", "", 0.0, "mensual", map[], "activa")
    case Some(p) =>
      PolicyForm(
        p.policyNumber, p.policyholderId,
        if p.policyType == "" then "vida" else p.policyType,
        p.insuranceCompany, p.startDate, p.endDate,
        p.premiumAmount,
        if p.paymentFrequency == "" then "mensual" else p.paymentFrequency,
        p.coverageDetails,
        if p.status == "" then "activa" else p.status)
  }
}
