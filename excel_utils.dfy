/** The backup spreadsheet (src/utils/excelUtils.ts): export turns each
    entity into a row keyed by Spanish column headers, one sheet per entity;
    import turns the rows of the sheets it knows back into records.

    A row is what the spreadsheet library hands over for one line of a sheet:
    a map from column header to cell. The model takes writing a sheet and
    reading it back to give the same rows; the spreadsheet library, the file
    reader and the JSON codec are not part of this model. */
module ExcelUtils {
  import opened Js
  import opened Records

  /** A cell: text, a number, or the JSON text of a custom-field list (kept as
      the list it encodes). */
  datatype Cell = TextCell(s: string) | NumberCell(n: real) | JsonCell(fields: seq<CustomField>)

  type Row = map<string, Cell>

  /** The sheets of a workbook by name, each as its list of rows. */
  type Workbook = map<string, seq<Row>>

  /** The cells JavaScript treats as false in `cell || default`. */
  predicate Falsy(c: Cell) {
    c == TextCell("") || c == NumberCell(0.0)
  }

  function YesNo(b: bool): string {
    if b then "Sí" else "No"
  }

  /** A text cell for `value || ''`. */
  function TextOrEmpty(o: Option<string>): Cell {
    TextCell(OrEmpty(o))
  }

  /** A column that is written only when the value is not null (the library
      skips null and undefined values). */
  function OptionalColumn(header: string, o: Option<string>): Row {
    if o.Some? then map[header := TextCell(o.value)] else map[]
  }

  // ---------------------------------------------------------------------
  // Export
  // ---------------------------------------------------------------------

  function PolicyholderRow(p: Policyholder): Row {
    map[
      "Tipo de Entidad" := TextCell(EntityTypeLabel(p.entityType)),
      "Nombre" := TextOrEmpty(p.firstName),
      "Apellido" := TextOrEmpty(p.lastName),
      "Razón Social" := TextOrEmpty(p.businessName),
      "Tipo de Empresa" := TextOrEmpty(p.businessType),
      "Representante Legal" := TextOrEmpty(p.legalRepresentative),
      "DNI" := TextOrEmpty(p.dni),
      "CUIL/CUIT" := TextOrEmpty(p.cuilCuit),
      "Email" := TextOrEmpty(p.email),
      "Teléfono" := TextOrEmpty(p.phone),
      "Dirección" := TextOrEmpty(p.address),
      "Ciudad" := TextOrEmpty(p.city),
      "Provincia/Estado" := TextOrEmpty(p.state),
      "Código Postal" := TextOrEmpty(p.postalCode),
      "Fecha de Nacimiento" := TextOrEmpty(p.dateOfBirth)
    ]
  }

  /** The 'Asegurado' column of a policy: "first last" for a natural person,
      the business name otherwise, '' without a policyholder. */
  function InsuredName(p: Policy): (r: Option<string>)
    ensures p.policyholder.None? ==> r == Some("")
    ensures p.policyholder.Some? && p.policyholder.value.entityType == "fisico" ==>
      r == Some(Interp(p.policyholder.value.firstName) + " " + Interp(p.policyholder.value.lastName))
    ensures p.policyholder.Some? && p.policyholder.value.entityType != "fisico" ==>
      r == p.policyholder.value.businessName
  {
    match p.policyholder
    case None => Some("")
    case Some(ph) =>
      if ph.entityType == "fisico" then Some(Interp(ph.firstName) + " " + Interp(ph.lastName))
      else ph.businessName
  }

  function PolicyRow(p: Policy): Row {
    map[
      "Número de Póliza" := TextCell(p.policyNumber),
      "Tipo de Póliza" := TextCell(p.policyType),
      "Compañía Aseguradora" := TextCell(p.insuranceCompany),
      "Fecha de Inicio" := TextCell(p.startDate),
      "Fecha de Vencimiento" := TextCell(p.endDate),
      "Monto de Prima" := NumberCell(p.premiumAmount),
      "Frecuencia de Pago" := TextCell(p.paymentFrequency),
      "Estado" := TextCell(p.status)
    ] + OptionalColumn("Asegurado", InsuredName(p)) + OptionalColumn("Moneda", p.currencyCode)
  }

  function CompanyRow(c: InsuranceCompany): Row {
    map[
      "Nombre" := TextCell(c.name),
      "Descripción" := TextOrEmpty(c.description),
      "Email de Contacto" := TextOrEmpty(c.contactEmail),
      "Teléfono de Contacto" := TextOrEmpty(c.contactPhone),
      "Sitio Web" := TextOrEmpty(c.website),
      "Activa" := TextCell(YesNo(c.isActive))
    ]
  }

  function PolicyTypeRow(pt: PolicyType): Row {
    map[
      "Nombre" := TextCell(pt.name),
      "Descripción" := TextOrEmpty(pt.description),
      "Icono" := TextCell(pt.icon),
      "Orden" := NumberCell(pt.sortOrder as real),
      "Activo" := TextCell(YesNo(pt.isActive)),
      "Campos Personalizados" := JsonCell(pt.customFields)
    ]
  }

  function CurrencyRow(c: Currency): Row {
    map[
      "Código" := TextCell(c.code),
      "Nombre" := TextCell(c.name),
      "Símbolo" := TextCell(c.symbol),
      "Activa" := TextCell(YesNo(c.isActive))
    ]
  }

  datatype BackupData = BackupData(
    policyholders: seq<Policyholder>,
    policies: seq<Policy>,
    companies: seq<InsuranceCompany>,
    policyTypes: seq<PolicyType>,
    currencies: seq<Currency>)

  /** One sheet: a row per record, in the order of the list. */
  function PolicyholderSheet(phs: seq<Policyholder>): (rows: seq<Row>)
    ensures |rows| == |phs| && forall i :: 0 <= i < |phs| ==> rows[i] == PolicyholderRow(phs[i])
  {
    seq(|phs|, i requires 0 <= i < |phs| => PolicyholderRow(phs[i]))
  }

  function PolicySheet(ps: seq<Policy>): (rows: seq<Row>)
    ensures |rows| == |ps| && forall i :: 0 <= i < |ps| ==> rows[i] == PolicyRow(ps[i])
  {
    seq(|ps|, i requires 0 <= i < |ps| => PolicyRow(ps[i]))
  }

  function CompanySheet(cs: seq<InsuranceCompany>): (rows: seq<Row>)
    ensures |rows| == |cs| && forall i :: 0 <= i < |cs| ==> rows[i] == CompanyRow(cs[i])
  {
    seq(|cs|, i requires 0 <= i < |cs| => CompanyRow(cs[i]))
  }

  function PolicyTypeSheet(pts: seq<PolicyType>): (rows: seq<Row>)
    ensures |rows| == |pts| && forall i :: 0 <= i < |pts| ==> rows[i] == PolicyTypeRow(pts[i])
  {
    seq(|pts|, i requires 0 <= i < |pts| => PolicyTypeRow(pts[i]))
  }

  function CurrencySheet(cs: seq<Currency>): (rows: seq<Row>)
    ensures |rows| == |cs| && forall i :: 0 <= i < |cs| ==> rows[i] == CurrencyRow(cs[i])
  {
    seq(|cs|, i requires 0 <= i < |cs| => CurrencyRow(cs[i]))
  }

  /** The workbook `exportToExcel` writes: five sheets, one row per record, in order. */
  function ExportWorkbook(d: BackupData): (wb: Workbook)
    ensures wb.Keys == {"Asegurados", "Pólizas", "Compañías", "Tipos de Póliza", "Monedas"}
    ensures wb["Asegurados"] == PolicyholderSheet(d.policyholders)
    ensures wb["Pólizas"] == PolicySheet(d.policies)
    ensures wb["Compañías"] == CompanySheet(d.companies)
    ensures wb["Tipos de Póliza"] == PolicyTypeSheet(d.policyTypes)
    ensures wb["Monedas"] == CurrencySheet(d.currencies)
  {
    map[
      "Asegurados" := PolicyholderSheet(d.policyholders),
      "Pólizas" := PolicySheet(d.policies),
      "Compañías" := CompanySheet(d.companies),
      "Tipos de Póliza" := PolicyTypeSheet(d.policyTypes),
      "Monedas" := CurrencySheet(d.currencies)
    ]
  }

  // ---------------------------------------------------------------------
  // Import
  // ---------------------------------------------------------------------

  /** `row[header]`: undefined (None) when the row has no such cell. */
  function CellOf(row: Row, header: string): Option<Cell> {
    if header in row then Some(row[header]) else None
  }

  /** `row[header] || null`. */
  function CellOrNull(row: Row, header: string): (r: Option<Cell>)
    ensures r.None? <==> header !in row || Falsy(row[header])
    ensures r.Some? ==> r.value == row[header]
  {
    if header in row && !Falsy(row[header]) then Some(row[header]) else None
  }

  /** `row[header] || fallback`. */
  function CellOr(row: Row, header: string, fallback: Cell): (r: Cell)
    ensures header in row && !Falsy(row[header]) ==> r == row[header]
    ensures header !in row || Falsy(row[header]) ==> r == fallback
  {
    if header in row && !Falsy(row[header]) then row[header] else fallback
  }

  /** `row[header] === 'Sí'`. */
  predicate IsYes(row: Row, header: string) {
    header in row && row[header] == TextCell("Sí")
  }

  /** An imported record keeps the raw cell of each column: the source types
      the imported lists as `any[]`. */
  datatype ImportedPolicyholder = ImportedPolicyholder(
    entityType: string,
    firstName: Option<Cell>,
    lastName: Option<Cell>,
    businessName: Option<Cell>,
    businessType: Option<Cell>,
    legalRepresentative: Option<Cell>,
    dni: Option<Cell>,
    cuilCuit: Option<Cell>,
    email: Option<Cell>,
    phone: Option<Cell>,
    address: Option<Cell>,
    city: Option<Cell>,
    state: Option<Cell>,
    postalCode: Option<Cell>,
    dateOfBirth: Option<Cell>)

  datatype ImportedCompany = ImportedCompany(
    name: Option<Cell>,
    description: Option<Cell>,
    contactEmail: Option<Cell>,
    contactPhone: Option<Cell>,
    website: Option<Cell>,
    isActive: bool)

  datatype ImportedPolicyType = ImportedPolicyType(
    name: Option<Cell>,
    description: Option<Cell>,
    icon: Cell,
    sortOrder: Cell,
    isActive: bool,
    customFields: seq<CustomField>)

  datatype ImportedCurrency = ImportedCurrency(
    code: Option<Cell>,
    name: Option<Cell>,
    symbol: Option<Cell>,
    isActive: bool)

  function ImportPolicyholderRow(row: Row): (p: ImportedPolicyholder)
    ensures p.entityType == "fisico" || p.entityType == "juridico"
    ensures p.entityType == "fisico" <==> CellOf(row, "Tipo de Entidad") == Some(TextCell("Persona Física"))
  {
    ImportedPolicyholder(
      if CellOf(row, "Tipo de Entidad") == Some(TextCell("Persona Física")) then "fisico" else "juridico",
      CellOrNull(row, "Nombre"),
      CellOrNull(row, "Apellido"),
      CellOrNull(row, "Razón Social"),
      CellOrNull(row, "Tipo de Empresa"),
      CellOrNull(row, "Representante Legal"),
      CellOrNull(row, "DNI"),
      CellOrNull(row, "CUIL/CUIT"),
      CellOrNull(row, "Email"),
      CellOrNull(row, "Teléfono"),
      CellOrNull(row, "Dirección"),
      CellOrNull(row, "Ciudad"),
      CellOrNull(row, "Provincia/Estado"),
      CellOrNull(row, "Código Postal"),
      CellOrNull(row, "Fecha de Nacimiento"))
  }

  function ImportCompanyRow(row: Row): (c: ImportedCompany)
    ensures c.isActive <==> IsYes(row, "Activa")
  {
    ImportedCompany(
      CellOf(row, "Nombre"),
      CellOrNull(row, "Descripción"),
      CellOrNull(row, "Email de Contacto"),
      CellOrNull(row, "Teléfono de Contacto"),
      CellOrNull(row, "Sitio Web"),
      IsYes(row, "Activa"))
  }

  /** `row['Campos Personalizados'] ? JSON.parse(...) : []`: None when the
      parse throws, which rejects the whole import. A cell that is not the
      JSON text of a field list is taken to make the parse throw. */
  function CustomFieldsOf(row: Row): (r: Option<seq<CustomField>>)
    ensures "Campos Personalizados" !in row ==> r == Some([])
    ensures "Campos Personalizados" in row && Falsy(row["Campos Personalizados"]) ==> r == Some([])
    ensures "Campos Personalizados" in row && row["Campos Personalizados"].JsonCell? ==>
      r == Some(row["Campos Personalizados"].fields)
  {
    if "Campos Personalizados" !in row || Falsy(row["Campos Personalizados"]) then Some([])
    else match row["Campos Personalizados"]
      case JsonCell(fields) => Some(fields)
      case _ => None
  }

  function ImportPolicyTypeRow(row: Row): (pt: ImportedPolicyType)
    requires CustomFieldsOf(row).Some?
    ensures pt.isActive <==> IsYes(row, "Activo")
    ensures "Icono" !in row || Falsy(row["Icono"]) ==> pt.icon == TextCell("📋")
    ensures "Orden" !in row || Falsy(row["Orden"]) ==> pt.sortOrder == NumberCell(0.0)
  {
    ImportedPolicyType(
      CellOf(row, "Nombre"),
      CellOrNull(row, "Descripción"),
      CellOr(row, "Icono", TextCell("📋")),
      CellOr(row, "Orden", NumberCell(0.0)),
      IsYes(row, "Activo"),
      CustomFieldsOf(row).value)
  }

  function ImportCurrencyRow(row: Row): (c: ImportedCurrency)
    ensures c.isActive <==> IsYes(row, "Activa")
  {
    ImportedCurrency(CellOf(row, "Código"), CellOf(row, "Nombre"), CellOf(row, "Símbolo"), IsYes(row, "Activa"))
  }

  datatype ImportResult = ImportResult(
    policyholders: seq<ImportedPolicyholder>,
    policies: seq<Row>,
    companies: seq<ImportedCompany>,
    policyTypes: seq<ImportedPolicyType>,
    currencies: seq<ImportedCurrency>)

  datatype ImportOutcome = Imported(result: ImportResult) | Rejected

  /** Each sheet's rows mapped one by one, as `jsonData.map(...)` does. */
  function ImportPolicyholders(rows: seq<Row>): (r: seq<ImportedPolicyholder>)
    ensures |r| == |rows|
    ensures forall i :: 0 <= i < |rows| ==> r[i] == ImportPolicyholderRow(rows[i])
  {
    seq(|rows|, i requires 0 <= i < |rows| => ImportPolicyholderRow(rows[i]))
  }

  function ImportCompanies(rows: seq<Row>): (r: seq<ImportedCompany>)
    ensures |r| == |rows|
    ensures forall i :: 0 <= i < |rows| ==> r[i] == ImportCompanyRow(rows[i])
  {
    seq(|rows|, i requires 0 <= i < |rows| => ImportCompanyRow(rows[i]))
  }

  predicate CustomFieldsParse(rows: seq<Row>) {
    forall i :: 0 <= i < |rows| ==> CustomFieldsOf(rows[i]).Some?
  }

  function ImportPolicyTypes(rows: seq<Row>): (r: seq<ImportedPolicyType>)
    requires CustomFieldsParse(rows)
    ensures |r| == |rows|
    ensures forall i :: 0 <= i < |rows| ==> r[i] == ImportPolicyTypeRow(rows[i])
  {
    seq(|rows|, i requires 0 <= i < |rows| => ImportPolicyTypeRow(rows[i]))
  }

  function ImportCurrencies(rows: seq<Row>): (r: seq<ImportedCurrency>)
    ensures |r| == |rows|
    ensures forall i :: 0 <= i < |rows| ==> r[i] == ImportCurrencyRow(rows[i])
  {
    seq(|rows|, i requires 0 <= i < |rows| => ImportCurrencyRow(rows[i]))
  }

  /** What `importFromExcel` resolves with: every known sheet that is present
      is mapped, every absent one gives an empty list, and the policies sheet
      is never read. A custom-field cell that fails to parse rejects it all. */
  function ImportWorkbook(wb: Workbook): (r: ImportOutcome)
    ensures r.Rejected? <==> "Tipos de Póliza" in wb && !CustomFieldsParse(wb["Tipos de Póliza"])
    ensures r.Imported? ==> r.result.policies == []
    ensures r.Imported? && "Asegurados" !in wb ==> r.result.policyholders == []
    ensures r.Imported? && "Compañías" !in wb ==> r.result.companies == []
    ensures r.Imported? && "Tipos de Póliza" !in wb ==> r.result.policyTypes == []
    ensures r.Imported? && "Monedas" !in wb ==> r.result.currencies == []
    ensures r.Imported? && "Asegurados" in wb ==> r.result.policyholders == ImportPolicyholders(wb["Asegurados"])
    ensures r.Imported? && "Compañías" in wb ==> r.result.companies == ImportCompanies(wb["Compañías"])
    ensures r.Imported? && "Tipos de Póliza" in wb ==>
      CustomFieldsParse(wb["Tipos de Póliza"]) && r.result.policyTypes == ImportPolicyTypes(wb["Tipos de Póliza"])
    ensures r.Imported? && "Monedas" in wb ==> r.result.currencies == ImportCurrencies(wb["Monedas"])
  {
    if "Tipos de Póliza" in wb && !CustomFieldsParse(wb["Tipos de Póliza"]) then Rejected
    else Imported(ImportResult(
      if "Asegurados" in wb then ImportPolicyholders(wb["Asegurados"]) else [],
      [],
      if "Compañías" in wb then ImportCompanies(wb["Compañías"]) else [],
      if "Tipos de Póliza" in wb then ImportPolicyTypes(wb["Tipos de Póliza"]) else [],
      if "Monedas" in wb then ImportCurrencies(wb["Monedas"]) else []))
  }

  /** `importFromExcel`'s callback: start from empty lists and fill in each
      sheet that the workbook has, one field of the result at a time. */
  method ImportFromExcel(wb: Workbook) returns (outcome: ImportOutcome)
    ensures outcome == ImportWorkbook(wb)
  {
    var result := ImportResult([], [], [], [], []);
    if "Asegurados" in wb {
      result := result.(policyholders := ImportPolicyholders(wb["Asegurados"]));
    }
    if "Compañías" in wb {
      result := result.(companies := ImportCompanies(wb["Compañías"]));
    }
    if "Tipos de Póliza" in wb {
      var rows := wb["Tipos de Póliza"];
      var i := 0;
      while i < |rows|
        invariant 0 <= i <= |rows|
        invariant forall j :: 0 <= j < i ==> CustomFieldsOf(rows[j]).Some?
      {
        if CustomFieldsOf(rows[i]).None? {
          return Rejected;
        }
        i := i + 1;
      }
      result := result.(policyTypes := ImportPolicyTypes(rows));
    }
    if "Monedas" in wb {
      result := result.(currencies := ImportCurrencies(wb["Monedas"]));
    }
    outcome := Imported(result);
  }

  // ---------------------------------------------------------------------
  // Round trips
  // ---------------------------------------------------------------------

  /** What import makes of an optional text field that export wrote as `value || ''`. */
  function TextOrNull(o: Option<string>): Option<Cell> {
    if OrEmpty(o) == "" then None else Some(TextCell(o.value))
  }

  /** The entity type survives the round trip: "fisico" comes back as
      "fisico", every other type as "juridico". */
  lemma EntityTypeRoundTrip(p: Policyholder)
    ensures ImportPolicyholderRow(PolicyholderRow(p)).entityType ==
      (if p.entityType == "fisico" then "fisico" else "juridico")
  {
    var row := PolicyholderRow(p);
    assert CellOf(row, "Tipo de Entidad") == Some(TextCell(EntityTypeLabel(p.entityType)));
  }

  /** Every text field of a policyholder comes back unchanged when it is
      non-empty, and as null when it is null or empty. */
  lemma PolicyholderRoundTrip(p: Policyholder)
    ensures ImportPolicyholderRow(PolicyholderRow(p)) == ImportedPolicyholder(
      if p.entityType == "fisico" then "fisico" else "juridico",
      TextOrNull(p.firstName), TextOrNull(p.lastName), TextOrNull(p.businessName),
      TextOrNull(p.businessType), TextOrNull(p.legalRepresentative), TextOrNull(p.dni),
      TextOrNull(p.cuilCuit), TextOrNull(p.email), TextOrNull(p.phone), TextOrNull(p.address),
      TextOrNull(p.city), TextOrNull(p.state), TextOrNull(p.postalCode), TextOrNull(p.dateOfBirth))
  {
    EntityTypeRoundTrip(p);
    NameColumnsRoundTrip(p);
    IdColumnsRoundTrip(p);
    AddressColumnsRoundTrip(p);
  }

  lemma NameColumnsRoundTrip(p: Policyholder)
    ensures var q := ImportPolicyholderRow(PolicyholderRow(p));
      q.firstName == TextOrNull(p.firstName) && q.lastName == TextOrNull(p.lastName)
      && q.businessName == TextOrNull(p.businessName) && q.businessType == TextOrNull(p.businessType)
      && q.legalRepresentative == TextOrNull(p.legalRepresentative)
  {
    var row := PolicyholderRow(p);
    TextColumnRoundTrip(row, "Nombre", p.firstName);
    TextColumnRoundTrip(row, "Apellido", p.lastName);
    TextColumnRoundTrip(row, "Razón Social", p.businessName);
    TextColumnRoundTrip(row, "Tipo de Empresa", p.businessType);
    TextColumnRoundTrip(row, "Representante Legal", p.legalRepresentative);
  }

  lemma IdColumnsRoundTrip(p: Policyholder)
    ensures var q := ImportPolicyholderRow(PolicyholderRow(p));
      q.dni == TextOrNull(p.dni) && q.cuilCuit == TextOrNull(p.cuilCuit)
      && q.email == TextOrNull(p.email) && q.phone == TextOrNull(p.phone)
      && q.dateOfBirth == TextOrNull(p.dateOfBirth)
  {
    var row := PolicyholderRow(p);
    TextColumnRoundTrip(row, "DNI", p.dni);
    TextColumnRoundTrip(row, "CUIL/CUIT", p.cuilCuit);
    TextColumnRoundTrip(row, "Email", p.email);
    TextColumnRoundTrip(row, "Teléfono", p.phone);
    TextColumnRoundTrip(row, "Fecha de Nacimiento", p.dateOfBirth);
  }

  lemma AddressColumnsRoundTrip(p: Policyholder)
    ensures var q := ImportPolicyholderRow(PolicyholderRow(p));
      q.address == TextOrNull(p.address) && q.city == TextOrNull(p.city)
      && q.state == TextOrNull(p.state) && q.postalCode == TextOrNull(p.postalCode)
  {
    var row := PolicyholderRow(p);
    TextColumnRoundTrip(row, "Dirección", p.address);
    TextColumnRoundTrip(row, "Ciudad", p.city);
    TextColumnRoundTrip(row, "Provincia/Estado", p.state);
    TextColumnRoundTrip(row, "Código Postal", p.postalCode);
  }

  /** A column written as `value || ''` is read back by `|| null` as the
      value when it is non-empty and as null otherwise. */
  lemma TextColumnRoundTrip(row: Row, header: string, o: Option<string>)
    requires header in row && row[header] == TextOrEmpty(o)
    ensures CellOrNull(row, header) == TextOrNull(o)
  {
  }

  /** `is_active` survives the round trip through 'Sí'/'No' for companies. */
  lemma CompanyRoundTrip(c: InsuranceCompany)
    ensures ImportCompanyRow(CompanyRow(c)) == ImportedCompany(
      Some(TextCell(c.name)), TextOrNull(c.description), TextOrNull(c.contactEmail),
      TextOrNull(c.contactPhone), TextOrNull(c.website), c.isActive)
  {
  }

  /** A policy type comes back with its name, description, order, status and
      custom fields; an empty icon comes back as the default '📋'. */
  lemma PolicyTypeRoundTrip(pt: PolicyType)
    ensures CustomFieldsOf(PolicyTypeRow(pt)) == Some(pt.customFields)
    ensures ImportPolicyTypeRow(PolicyTypeRow(pt)) == ImportedPolicyType(
      Some(TextCell(pt.name)), TextOrNull(pt.description),
      TextCell(if pt.icon == "" then "📋" else pt.icon),
      NumberCell(pt.sortOrder as real), pt.isActive, pt.customFields)
  {
  }

  lemma CurrencyRoundTrip(c: Currency)
    ensures ImportCurrencyRow(CurrencyRow(c)) == ImportedCurrency(
      Some(TextCell(c.code)), Some(TextCell(c.name)), Some(TextCell(c.symbol)), c.isActive)
  {
  }

  /** Importing an exported backup gives back every list but the policies,
      each with its rows in the same order. */
  lemma WorkbookRoundTrip(d: BackupData)
    ensures ImportWorkbook(ExportWorkbook(d)).Imported?
    ensures var r := ImportWorkbook(ExportWorkbook(d)).result;
      && r.policies == []
      && |r.policyholders| == |d.policyholders|
      && (forall i :: 0 <= i < |d.policyholders| ==> r.policyholders[i] == ImportPolicyholderRow(PolicyholderRow(d.policyholders[i])))
      && |r.companies| == |d.companies|
      && (forall i :: 0 <= i < |d.companies| ==> r.companies[i] == ImportCompanyRow(CompanyRow(d.companies[i])))
      && |r.policyTypes| == |d.policyTypes|
      && (forall i :: 0 <= i < |d.policyTypes| ==> r.policyTypes[i] == ImportPolicyTypeRow(PolicyTypeRow(d.policyTypes[i])))
      && |r.currencies| == |d.currencies|
      && (forall i :: 0 <= i < |d.currencies| ==> r.currencies[i] == ImportCurrencyRow(CurrencyRow(d.currencies[i])))
  {
    var wb := ExportWorkbook(d);
    var typeRows := wb["Tipos de Póliza"];
    forall i | 0 <= i < |typeRows|
      ensures CustomFieldsOf(typeRows[i]).Some?
    {
      PolicyTypeRoundTrip(d.policyTypes[i]);
    }
    assert CustomFieldsParse(typeRows);
  }
}
