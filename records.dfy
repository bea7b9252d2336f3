/** The rows of the CRM's tables, as the components read them. Nullable
    columns are `Option`s. Creation and update timestamps are not modelled. */
module Records {
  import opened Js

  /** A policyholder: a natural person (`entity_type` "fisico") or a legal
      entity (any other value, normally "juridico"). */
  datatype Policyholder = Policyholder(
    id: string,
    entityType: string,
    firstName: Option<string>,
    lastName: Option<string>,
    businessName: Option<string>,
    businessType: Option<string>,
    legalRepresentative: Option<string>,
    dni: Option<string>,
    cuilCuit: Option<string>,
    email: Option<string>,
    phone: Option<string>,
    address: Option<string>,
    city: Option<string>,
    state: Option<string>,
    postalCode: Option<string>,
    dateOfBirth: Option<string>,
    agentId: string)

  /** The label of an entity type ("Persona Física" for "fisico", "Persona Jurídica"
      for anything else), used by the backup sheet and by the policyholder list. */
  function EntityTypeLabel(entityType: string): (r: string)
    ensures r == "Persona Física" <==> entityType == "fisico"
    ensures r == "Persona Física" || r == "Persona Jurídica"
  {
    if entityType == "fisico" then "Persona Física" else "Persona Jurídica"
  }

  /** A policy, with the policyholder row the list query joins in. */
  datatype Policy = Policy(
    id: string,
    policyNumber: string,
    policyholderId: string,
    policyType: string,
    insuranceCompany: string,
    startDate: string,
    endDate: string,
    premiumAmount: real,
    currencyCode: Option<string>,
    paymentFrequency: string,
    coverageDetails: map<string, string>,
    status: string,
    agentId: string,
    policyholder: Option<Policyholder>)

  datatype Notification = Notification(
    id: string,
    policyId: string,
    notificationType: string,
    notificationDate: string,
    message: string,
    isRead: bool,
    agentId: string)

  datatype InsuranceCompany = InsuranceCompany(
    id: string,
    name: string,
    description: Option<string>,
    contactEmail: Option<string>,
    contactPhone: Option<string>,
    website: Option<string>,
    isActive: bool,
    agentId: string)

  /** A coverage offered by one company. */
  datatype CoverageType = CoverageType(
    id: string,
    companyId: string,
    name: string,
    description: Option<string>,
    policyType: string,
    basePremium: real,
    isActive: bool)

  /** One declared custom field of a policy type; the list view only stores
      and copies these, so their content is carried as given. */
  datatype CustomField = CustomField(name: string, caption: string, fieldType: string, required: bool)

  datatype PolicyType = PolicyType(
    id: string,
    name: string,
    description: Option<string>,
    icon: string,
    sortOrder: int,
    isActive: bool,
    customFields: seq<CustomField>)

  datatype Currency = Currency(
    id: string,
    code: string,
    name: string,
    symbol: string,
    isActive: bool)

  /** The `is_active` value the status toggles of the company, currency and
      policy-type pages write: the opposite of the status shown. */
  function ToggledStatus(currentStatus: bool): (r: bool)
    ensures r != currentStatus
  {
    !currentStatus
  }
}
