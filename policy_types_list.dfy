/** The policy-type page (src/components/PolicyTypesList.tsx): the search,
    and the policy-type form with its defaults, its sort-order field and its
    grid of preset icons. */
module PolicyTypesList {
  import opened Js
  import opened Text
  import opened Lists
  import opened Records

  // ---------------------------------------------------------------------
  // Policy-type search
  // ---------------------------------------------------------------------

  /** The search test: the name or the description contain the term, ignoring case. */
  predicate MatchesSearch(t: PolicyType, searchTerm: string) {
    || Includes(ToLower(t.name), ToLower(searchTerm))
    || (t.description.Some? && Includes(ToLower(t.description.value), ToLower(searchTerm)))
  }

  function SearchTest(searchTerm: string): PolicyType -> bool {
    (t: PolicyType) => MatchesSearch(t, searchTerm)
  }

  /** The filter effect: the policy types that match, in their order. */
  function FilterPolicyTypes(types: seq<PolicyType>, searchTerm: string): (r: seq<PolicyType>)
    ensures Subseq(r, types)
    ensures forall t :: t in r ==> t in types && MatchesSearch(t, searchTerm)
    ensures forall t :: t in types && MatchesSearch(t, searchTerm) ==> t in r
  {
    Filter(types, SearchTest(searchTerm))
  }

  /** An empty search keeps every policy type. */
  lemma EmptySearchKeepsAll(types: seq<PolicyType>)
    ensures FilterPolicyTypes(types, "") == types
  {
    forall t | t in types
      ensures MatchesSearch(t, "")
    {
      IncludesEmpty(ToLower(t.name));
    }
    FilterKeepsAll(types, SearchTest(""));
  }

  // ---------------------------------------------------------------------
  // Policy-type form
  // ---------------------------------------------------------------------

  const DefaultIcon := "📋"

  datatype PolicyTypeForm = PolicyTypeForm(name: string, description: string, icon: string, isActive: bool, sortOrder: int)

  /** The form's initial values: the edited type's, with a missing
      description shown as '' and an empty icon replaced by '📋'; a new type
      is active, first in order and has the clipboard icon. */
  function InitialPolicyTypeForm(existing: Option<PolicyType>): (f: PolicyTypeForm)
    ensures existing.None? ==> f == PolicyTypeForm("", "", DefaultIcon, true, 0)
    ensures f.icon != ""
    ensures existing.Some? ==>
      f.name == existing.value.name && f.description == OrEmpty(existing.value.description)
      && f.isActive == existing.value.isActive && f.sortOrder == existing.value.sortOrder
    ensures existing.Some? && existing.value.icon != "" ==> f.icon == existing.value.icon
  {
    match existing
    case None => PolicyTypeForm("", "", DefaultIcon, true, 0)
    case Some(t) =>
      PolicyTypeForm(t.name, OrEmpty(t.description), if t.icon == "" then DefaultIcon else t.icon, t.isActive, t.sortOrder)
  }

  /** The sort-order field after typing: `parseInt(value) || 0`. */
  function SortOrderInput(typed: string): (r: int)
    ensures ParseInt(typed).None? ==> r == 0
    ensures ParseInt(typed).Some? ==> r == ParseInt(typed).value
  {
    ParsedOrZero(ParseInt(typed), 0)
  }

  /** The field reads back every order written as a decimal number, and
      input without digits (an empty field included) gives 0. */
  lemma SortOrderInputReadsNumbers(i: int, typed: string)
    ensures SortOrderInput(IntToDecimal(i)) == i
    ensures LeadingDigits(SignFree(TrimStart(typed))) == [] ==> SortOrderInput(typed) == 0
  {
    ParseIntRoundTrip(i);
  }

  /** The icons offered under the icon field. */
  const CommonIcons: seq<string> := [
    "📋", "❤️", "🚗", "🏍️", "🚲", "🏠", "🏥", "✈️", "🐕", "⚖️",
    "💼", "🔧", "🌟", "🛡️", "💰", "🎯", "📊", "🔒", "🌍", "⭐"]

  /** The icons serve as the buttons' keys: there are twenty, all distinct,
      the default among them. */
  lemma CommonIconsDistinct()
    ensures |CommonIcons| == 20
    ensures forall i, j :: 0 <= i < j < |CommonIcons| ==> CommonIcons[i] != CommonIcons[j]
    ensures CommonIcons[0] == DefaultIcon
  {
  }

  /** Clicking an icon button: the form takes that icon and keeps every other field. */
  function PickIcon(f: PolicyTypeForm, icon: string): (r: PolicyTypeForm)
    ensures r.icon == icon
    ensures r.name == f.name && r.description == f.description
    ensures r.isActive == f.isActive && r.sortOrder == f.sortOrder
  {
    f.(icon := icon)
  }

  /** Whether button i is drawn as selected: its icon is the form's. */
  predicate Highlighted(f: PolicyTypeForm, i: nat)
    requires i < |CommonIcons|
  {
    f.icon == CommonIcons[i]
  }

  /** After a click on button i, that button and no other is drawn selected. */
  lemma PickHighlightsOnlyThatIcon(f: PolicyTypeForm, i: nat)
    requires i < |CommonIcons|
    ensures forall j :: 0 <= j < |CommonIcons| ==> (Highlighted(PickIcon(f, CommonIcons[i]), j) <==> j == i)
  {
    CommonIconsDistinct();
  }
}
