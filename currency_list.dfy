/** The currency page (src/components/CurrencyList.tsx): the currency search,
    the table of common currencies offered as presets, and the currency form
    with its defaults, its input limits and the upper-cased code it saves. */
module CurrencyList {
  import opened Js
  import opened Text
  import opened Lists
  import opened Records

  // ---------------------------------------------------------------------
  // Currency search
  // ---------------------------------------------------------------------

  /** The search test: the name or the code contain the term ignoring case,
      or the symbol contains it exactly. */
  predicate MatchesSearch(c: Currency, searchTerm: string) {
    || Includes(ToLower(c.name), ToLower(searchTerm))
    || Includes(ToLower(c.code), ToLower(searchTerm))
    || Includes(c.symbol, searchTerm)
  }

  function SearchTest(searchTerm: string): Currency -> bool {
    (c: Currency) => MatchesSearch(c, searchTerm)
  }

  /** The filter effect: the currencies that match, in their order. */
  function FilterCurrencies(currencies: seq<Currency>, searchTerm: string): (r: seq<Currency>)
    ensures Subseq(r, currencies)
    ensures forall c :: c in r ==> c in currencies && MatchesSearch(c, searchTerm)
    ensures forall c :: c in currencies && MatchesSearch(c, searchTerm) ==> c in r
  {
    Filter(currencies, SearchTest(searchTerm))
  }

  /** An empty search keeps every currency. */
  lemma EmptySearchKeepsAll(currencies: seq<Currency>)
    ensures FilterCurrencies(currencies, "") == currencies
  {
    forall c | c in currencies
      ensures MatchesSearch(c, "")
    {
      IncludesEmpty(ToLower(c.name));
    }
    FilterKeepsAll(currencies, SearchTest(""));
  }

  /** Typing the term in capitals finds the same currencies by name and code;
      the symbol is compared as typed. */
  lemma NameAndCodeIgnoreCase(c: Currency, searchTerm: string)
    ensures Includes(ToLower(c.code), ToLower(ToUpper(searchTerm))) == Includes(ToLower(c.code), ToLower(searchTerm))
    ensures Includes(ToLower(c.name), ToLower(ToUpper(searchTerm))) == Includes(ToLower(c.name), ToLower(searchTerm))
  {
    ToLowerOfUpper(searchTerm);
  }

  // ---------------------------------------------------------------------
  // Presets
  // ---------------------------------------------------------------------

  /** One entry of the 'Monedas Comunes' table. */
  datatype Preset = Preset(code: string, name: string, symbol: string)

  const Presets: seq<Preset> := [
    Preset("EUR", "Euro", "€"),
    Preset("USD", "Dólar Estadounidense", "$"),
    Preset("ARS", "Peso Argentino", "$"),
    Preset("CLP", "Peso Chileno", "$"),
    Preset("COP", "Peso Colombiano", "$"),
    Preset("MXN", "Peso Mexicano", "$"),
    Preset("PEN", "Sol Peruano", "S/"),
    Preset("UYU", "Peso Uruguayo", "$"),
    Preset("BOB", "Boliviano", "Bs"),
    Preset("BRL", "Real Brasileño", "R$"),
    Preset("GBP", "Libra Esterlina", "£"),
    Preset("JPY", "Yen Japonés", "¥"),
    Preset("CAD", "Dólar Canadiense", "C$"),
    Preset("CHF", "Franco Suizo", "CHF"),
    Preset("CNY", "Yuan Chino", "¥")]

  /** The preset codes serve as the buttons' keys, so no two presets share
      one; each is a three-letter upper-case code that fits the code input
      and that saving leaves unchanged. */
  lemma PresetsWellFormed()
    ensures |Presets| == 15
    ensures forall i, j :: 0 <= i < j < |Presets| ==> Presets[i].code != Presets[j].code
    ensures forall i :: 0 <= i < |Presets| ==> |Presets[i].code| == 3 && IsUpperCase(Presets[i].code)
    ensures forall i :: 0 <= i < |Presets| ==> 0 < |Presets[i].symbol| <= SymbolMaxLength
  {
  }

  // ---------------------------------------------------------------------
  // Currency form
  // ---------------------------------------------------------------------

  datatype CurrencyForm = CurrencyForm(code: string, name: string, symbol: string, isActive: bool)

  /** The form's initial values: the edited currency's, or empty text and
      active for a new one (`?? true` keeps an explicit false). */
  function InitialCurrencyForm(existing: Option<Currency>): (f: CurrencyForm)
    ensures existing.None? ==> f == CurrencyForm("", "", "", true)
    ensures existing.Some? ==>
      f.code == existing.value.code && f.name == existing.value.name
      && f.symbol == existing.value.symbol && f.isActive == existing.value.isActive
  {
    match existing
    case None => CurrencyForm("", "", "", true)
    case Some(c) => CurrencyForm(c.code, c.name, c.symbol, c.isActive)
  }

  /** `handlePresetSelect`: the preset's code, name and symbol replace the
      form's; the active flag is kept. */
  function ApplyPreset(f: CurrencyForm, preset: Preset): (r: CurrencyForm)
    ensures r.code == preset.code && r.name == preset.name && r.symbol == preset.symbol
    ensures r.isActive == f.isActive
  {
    f.(code := preset.code, name := preset.name, symbol := preset.symbol)
  }

  /** Choosing a second preset overrides the first: only the last choice counts. */
  lemma ApplyPresetLastWins(f: CurrencyForm, p: Preset, q: Preset)
    ensures ApplyPreset(ApplyPreset(f, p), q) == ApplyPreset(f, q)
  {
  }

  const CodeMaxLength: nat := 3
  const SymbolMaxLength: nat := 5

  /** The code field after typing: the input keeps at most three characters
      and the handler upper-cases them. */
  function CodeInput(typed: string): (r: string)
    ensures |r| <= CodeMaxLength
    ensures IsUpperCase(r)
    ensures ToLower(r) == ToLower(Take(typed, CodeMaxLength))
  {
    ToUpperIdempotent(Take(typed, CodeMaxLength));
    ToLowerOfUpper(Take(typed, CodeMaxLength));
    ToUpper(Take(typed, CodeMaxLength))
  }

  /** The symbol field after typing: at most five characters, case kept. */
  function SymbolInput(typed: string): (r: string)
    ensures |r| <= SymbolMaxLength
    ensures r <= typed
  {
    Take(typed, SymbolMaxLength)
  }

  /** What the form sends to the store: the form with its code upper-cased
      and the agent added. */
  datatype CurrencyPayload = CurrencyPayload(code: string, name: string, symbol: string, isActive: bool, agentId: string)

  function SavePayload(f: CurrencyForm, agentId: string): (p: CurrencyPayload)
    ensures IsUpperCase(p.code) && |p.code| == |f.code|
    ensures ToLower(p.code) == ToLower(f.code)
    ensures p.name == f.name && p.symbol == f.symbol && p.isActive == f.isActive && p.agentId == agentId
  {
    ToUpperIdempotent(f.code);
    ToLowerOfUpper(f.code);
    CurrencyPayload(ToUpper(f.code), f.name, f.symbol, f.isActive, agentId)
  }

  /** A code typed into the form is saved exactly as the field shows it, and
      so is the code of every preset: the upper-casing on save changes only
      codes that reached the form some other way (an edited record). */
  lemma SavedCodeAsShown(f: CurrencyForm, typed: string, i: nat, agentId: string)
    requires i < |Presets|
    ensures SavePayload(f.(code := CodeInput(typed)), agentId).code == CodeInput(typed)
    ensures SavePayload(ApplyPreset(f, Presets[i]), agentId).code == Presets[i].code
  {
    UpperCaseFixed(CodeInput(typed));
    PresetsWellFormed();
    UpperCaseFixed(Presets[i].code);
  }
}
