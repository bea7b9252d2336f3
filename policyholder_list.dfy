/** The policyholder list (src/components/PolicyholderList.tsx): the search
    and entity-type filter, the name and label shown per row, the counters
    above the list, and the edit form's defaults and save payload. */
module PolicyholderList {
  import opened Js
  import opened Text
  import opened Lists
  import opened Records

  // ---------------------------------------------------------------------
  // Filter
  // ---------------------------------------------------------------------

  /** The name the search looks in: "first last" (a missing part prints as
      "null") for a natural person, the business name or '' otherwise. */
  function SearchName(ph: Policyholder): string {
    if ph.entityType == "fisico" then Interp(ph.firstName) + " " + Interp(ph.lastName)
    else OrEmpty(ph.businessName)
  }

  /** `field?.includes(term)`: false for a missing field. */
  predicate FieldIncludes(field: Option<string>, term: string) {
    field.Some? && Includes(field.value, term)
  }

  /** The part of the search that ignores case: the name or the email. */
  predicate NameOrEmailMatches(ph: Policyholder, searchTerm: string) {
    || Includes(ToLower(SearchName(ph)), ToLower(searchTerm))
    || (ph.email.Some? && Includes(ToLower(ph.email.value), ToLower(searchTerm)))
  }

  /** The search test: the name or the email contain the term ignoring case,
      or the phone, DNI or CUIL/CUIT contain it exactly. */
  predicate MatchesSearch(ph: Policyholder, searchTerm: string) {
    || NameOrEmailMatches(ph, searchTerm)
    || FieldIncludes(ph.phone, searchTerm)
    || FieldIncludes(ph.dni, searchTerm)
    || FieldIncludes(ph.cuilCuit, searchTerm)
  }

  /** Typing the term in capitals finds the same names and emails. */
  lemma NameSearchIgnoresCase(ph: Policyholder, searchTerm: string)
    ensures NameOrEmailMatches(ph, ToUpper(searchTerm)) == NameOrEmailMatches(ph, searchTerm)
  {
    ToLowerOfUpper(searchTerm);
  }

  function SearchTest(searchTerm: string): Policyholder -> bool {
    (ph: Policyholder) => MatchesSearch(ph, searchTerm)
  }

  function TypeTest(filterType: string): Policyholder -> bool {
    (ph: Policyholder) => ph.entityType == filterType
  }

  /** Whether a row is shown: an empty term and the type 'all' restrict nothing. */
  predicate Visible(ph: Policyholder, searchTerm: string, filterType: string) {
    (searchTerm == "" || MatchesSearch(ph, searchTerm)) && (filterType == "all" || ph.entityType == filterType)
  }

  function VisibleTest(searchTerm: string, filterType: string): Policyholder -> bool {
    (ph: Policyholder) => Visible(ph, searchTerm, filterType)
  }

  /** The filter effect: start from the loaded list, narrow it by the search
      term when there is one, then by the entity type unless it is 'all'. The
      result keeps exactly the visible rows, in their order. */
  method FilterPolicyholders(policyholders: seq<Policyholder>, searchTerm: string, filterType: string)
    returns (filtered: seq<Policyholder>)
    ensures filtered == Filter(policyholders, VisibleTest(searchTerm, filterType))
    ensures Subseq(filtered, policyholders)
    ensures forall ph :: ph in filtered ==> ph in policyholders && Visible(ph, searchTerm, filterType)
    ensures forall ph :: ph in policyholders && Visible(ph, searchTerm, filterType) ==> ph in filtered
    ensures searchTerm == "" && filterType == "all" ==> filtered == policyholders
  {
    filtered := policyholders;
    if searchTerm != "" {
      filtered := Filter(filtered, SearchTest(searchTerm));
    }
    if filterType != "all" {
      filtered := Filter(filtered, TypeTest(filterType));
    }
    var visible := VisibleTest(searchTerm, filterType);
    if searchTerm != "" && filterType != "all" {
      FilterTwice(policyholders, SearchTest(searchTerm), TypeTest(filterType), visible);
    } else if searchTerm != "" {
      FilterSameTest(policyholders, SearchTest(searchTerm), visible);
    } else if filterType != "all" {
      FilterSameTest(policyholders, TypeTest(filterType), visible);
    } else {
      FilterKeepsAll(policyholders, visible);
    }
  }

  // ---------------------------------------------------------------------
  // Row display and counters
  // ---------------------------------------------------------------------

  /** `getDisplayName`: "first last" for a natural person, otherwise the
      business name, or 'Sin nombre' when it is empty. Never empty. */
  function DisplayName(ph: Policyholder): (r: string)
    ensures r != ""
    ensures ph.entityType == "fisico" ==> r == Interp(ph.firstName) + " " + Interp(ph.lastName)
    ensures ph.entityType != "fisico" && OrEmpty(ph.businessName) != "" ==> r == ph.businessName.value
    ensures ph.entityType != "fisico" && OrEmpty(ph.businessName) == "" ==> r == "Sin nombre"
  {
    if ph.entityType == "fisico" then Interp(ph.firstName) + " " + Interp(ph.lastName)
    else OrElse(ph.businessName, "Sin nombre")
  }

  /** The name a search looks in is the name the row shows, except for a
      legal entity without a business name, shown as 'Sin nombre' but searched as ''. */
  lemma SearchNameIsDisplayName(ph: Policyholder)
    ensures ph.entityType == "fisico" || OrEmpty(ph.businessName) != "" ==> SearchName(ph) == DisplayName(ph)
    ensures ph.entityType != "fisico" && OrEmpty(ph.businessName) == "" ==>
      SearchName(ph) == "" && DisplayName(ph) == "Sin nombre"
  {
  }

  predicate IsFisico(ph: Policyholder) {
    ph.entityType == "fisico"
  }

  predicate IsJuridico(ph: Policyholder) {
    ph.entityType == "juridico"
  }

  /** The 'Personas Físicas' counter. */
  function FisicoCount(policyholders: seq<Policyholder>): nat {
    |Filter(policyholders, IsFisico)|
  }

  /** The 'Personas Jurídicas' counter. */
  function JuridicoCount(policyholders: seq<Policyholder>): nat {
    |Filter(policyholders, IsJuridico)|
  }

  /** The two counters never add up to more than the 'Total' counter, and
      they add up to it exactly when every row is one of the two types. */
  lemma CountsWithinTotal(policyholders: seq<Policyholder>)
    ensures FisicoCount(policyholders) + JuridicoCount(policyholders) <= |policyholders|
    ensures (forall ph :: ph in policyholders ==> IsFisico(ph) || IsJuridico(ph)) ==>
      FisicoCount(policyholders) + JuridicoCount(policyholders) == |policyholders|
  {
    FilterDisjoint(policyholders, IsFisico, IsJuridico);
    if forall ph :: ph in policyholders ==> IsFisico(ph) || IsJuridico(ph) {
      FilterPartition(policyholders, IsFisico, IsJuridico);
    }
  }

  // ---------------------------------------------------------------------
  // Form and save payload
  // ---------------------------------------------------------------------

  /** The modal's form: every field a string. */
  datatype PolicyholderForm = PolicyholderForm(
    entityType: string,
    firstName: string,
    lastName: string,
    businessName: string,
    businessType: string,
    legalRepresentative: string,
    dni: string,
    cuilCuit: string,
    email: string,
    phone: string,
    address: string,
    city: string,
    state: string,
    postalCode: string,
    dateOfBirth: string)

  /** The form's initial state: the edited policyholder's fields with null
      shown as '', or, for a new one, a natural person with every field empty. */
  function InitialForm(existing: Option<Policyholder>): (f: PolicyholderForm)
    ensures existing.None? ==> f == PolicyholderForm("fisico", "", "", "", "", "", "", "", "", "", "", "", "", "", "")
    ensures existing.Some? ==>
      f.entityType == (if existing.value.entityType == "" then "fisico" else existing.value.entityType)
    ensures existing.Some? ==>
      f.firstName == OrEmpty(existing.value.firstName) && f.lastName == OrEmpty(existing.value.lastName)
      && f.businessName == OrEmpty(existing.value.businessName) && f.businessType == OrEmpty(existing.value.businessType)
      && f.legalRepresentative == OrEmpty(existing.value.legalRepresentative)
    ensures existing.Some? ==>
      f.dni == OrEmpty(existing.value.dni) && f.cuilCuit == OrEmpty(existing.value.cuilCuit)
      && f.email == OrEmpty(existing.value.email) && f.phone == OrEmpty(existing.value.phone)
      && f.dateOfBirth == OrEmpty(existing.value.dateOfBirth)
    ensures existing.Some? ==>
      f.address == OrEmpty(existing.value.address) && f.city == OrEmpty(existing.value.city)
      && f.state == OrEmpty(existing.value.state) && f.postalCode == OrEmpty(existing.value.postalCode)
    ensures f.entityType != ""
  {
    match existing
    case None => PolicyholderForm("fisico", "", "", "", "", "", "", "", "", "", "", "", "", "", "")
    case Some(p) =>
      PolicyholderForm(
        if p.entityType == "" then "fisico" else p.entityType,
        OrEmpty(p.firstName), OrEmpty(p.lastName), OrEmpty(p.businessName), OrEmpty(p.businessType),
        OrEmpty(p.legalRepresentative), OrEmpty(p.dni), OrEmpty(p.cuilCuit), OrEmpty(p.email),
        OrEmpty(p.phone), OrEmpty(p.address), OrEmpty(p.city), OrEmpty(p.state),
        OrEmpty(p.postalCode), OrEmpty(p.dateOfBirth))
  }

  /** What the modal sends to the store: the form and the agent, with the
      fields of the other entity type nulled. */
  datatype PolicyholderPayload = PolicyholderPayload(
    entityType: string,
    firstName: Option<string>,
    lastName: Option<string>,
    businessName: Option<string>,
    businessType: Option<string>,
    legalRepresentative: Option<string>,
    dni: string,
    cuilCuit: string,
    email: string,
    phone: string,
    address: string,
    city: string,
    state: string,
    postalCode: string,
    dateOfBirth: Option<string>,
    agentId: string)

  function SavePayload(f: PolicyholderForm, agentId: string): (p: PolicyholderPayload)
    ensures f.entityType == "fisico" ==>
      p.businessName.None? && p.businessType.None? && p.legalRepresentative.None?
      && p.firstName == Some(f.firstName) && p.lastName == Some(f.lastName) && p.dateOfBirth == Some(f.dateOfBirth)
    ensures f.entityType != "fisico" ==>
      p.firstName.None? && p.lastName.None? && p.dateOfBirth.None?
      && p.businessName == Some(f.businessName) && p.businessType == Some(f.businessType)
      && p.legalRepresentative == Some(f.legalRepresentative)
    ensures p.entityType == f.entityType && p.agentId == agentId
    ensures p.dni == f.dni && p.cuilCuit == f.cuilCuit && p.email == f.email && p.phone == f.phone
    ensures p.address == f.address && p.city == f.city && p.state == f.state && p.postalCode == f.postalCode
  {
    var fisico := f.entityType == "fisico";
    PolicyholderPayload(
      f.entityType,
      if fisico then Some(f.firstName) else None,
      if fisico then Some(f.lastName) else None,
      if fisico then None else Some(f.businessName),
      if fisico then None else Some(f.businessType),
      if fisico then None else Some(f.legalRepresentative),
      f.dni, f.cuilCuit, f.email, f.phone, f.address, f.city, f.state, f.postalCode,
      if fisico then Some(f.dateOfBirth) else None,
      agentId)
  }

  /** The row the store keeps for a payload. */
  function Stored(p: PolicyholderPayload, id: string): Policyholder {
    Policyholder(id, p.entityType, p.firstName, p.lastName, p.businessName, p.businessType,
      p.legalRepresentative, Some(p.dni), Some(p.cuilCuit), Some(p.email), Some(p.phone),
      Some(p.address), Some(p.city), Some(p.state), Some(p.postalCode), p.dateOfBirth, p.agentId)
  }

  /** Saving a form and opening the saved row again gives the same form,
      except that the fields of the other entity type come back empty. */
  lemma SaveThenEdit(f: PolicyholderForm, agentId: string, id: string)
    requires f.entityType != ""
    ensures InitialForm(Some(Stored(SavePayload(f, agentId), id))) ==
      if f.entityType == "fisico" then f.(businessName := "", businessType := "", legalRepresentative := "")
      else f.(firstName := "", lastName := "", dateOfBirth := "")
  {
  }
}
