/** The dashboard's figures (src/components/Dashboard.tsx): the monthly
    premium income of the active policies, per currency, and the symbol a
    currency code is shown with. The counts come straight from the store. */
module Dashboard {
  import opened Js
  import opened Lists
  import opened Records

  /** The currency a policy's premium is counted in: `currency_code || 'EUR'`. */
  function PremiumCurrency(p: Policy): string {
    OrElse(p.currencyCode, "EUR")
  }

  /** How many months one payment covers, for the frequencies the dashboard knows. */
  function PeriodMonths(frequency: string): Option<real> {
    match frequency
    case "mensual" => Some(1.0)
    case "trimestral" => Some(3.0)
    case "semestral" => Some(6.0)
    case "anual" => Some(12.0)
    case _ => None
  }

  /** The `switch` on the payment frequency: what one policy adds to its
      currency's monthly income, the premium spread over the months one
      payment covers, and nothing for any other frequency. */
  function MonthlyShare(p: Policy): real {
    match p.paymentFrequency
    case "mensual" => p.premiumAmount
    case "trimestral" => p.premiumAmount / 3.0
    case "semestral" => p.premiumAmount / 6.0
    case "anual" => p.premiumAmount / 12.0
    case _ => 0.0
  }

  /** A known frequency spreads the whole premium over its months; any other
      frequency adds nothing. */
  lemma MonthlyShareSpreads(p: Policy)
    ensures PeriodMonths(p.paymentFrequency).Some? ==>
      MonthlyShare(p) * PeriodMonths(p.paymentFrequency).value == p.premiumAmount
    ensures PeriodMonths(p.paymentFrequency).None? ==> MonthlyShare(p) == 0.0
  {
  }

  /** The monthly income in currency c from the policies in s. */
  function Total(s: seq<Policy>, c: string): real {
    if s == [] then 0.0
    else Total(s[..|s| - 1], c) + (if PremiumCurrency(s[|s| - 1]) == c then MonthlyShare(s[|s| - 1]) else 0.0)
  }

  /** The currencies that get an entry: every currency some policy is in,
      even when its frequency adds nothing. */
  function Currencies(s: seq<Policy>): set<string> {
    set p | p in s :: PremiumCurrency(p)
  }

  /** The entry of one policy's currency after the loop has seen it: created
      at zero when missing, then raised by the policy's share. */
  function AddShare(m: map<string, real>, p: Policy): map<string, real> {
    var c := PremiumCurrency(p);
    m[c := (if c in m then m[c] else 0.0) + MonthlyShare(p)]
  }

  /** The map after the loop has seen the first n policies. */
  function Tally(policies: seq<Policy>, n: nat): map<string, real>
    requires n <= |policies|
  {
    if n == 0 then map[] else AddShare(Tally(policies, n - 1), policies[n - 1])
  }

  /** The `forEach` over the active policies that builds `monthlyPremiums`:
      one entry per currency some policy is in, holding that currency's
      monthly income. */
  method MonthlyPremiums(policies: seq<Policy>) returns (m: map<string, real>)
    ensures m.Keys == Currencies(policies)
    ensures forall c :: c in m ==> m[c] == Total(policies, c)
  {
    m := map[];
    var i := 0;
    while i < |policies|
      invariant 0 <= i <= |policies|
      invariant m == Tally(policies, i)
    {
      var policy := policies[i];
      var currency := OrElse(policy.currencyCode, "EUR");
      if currency !in m || m[currency] == 0.0 {
        m := m[currency := 0.0];
      }
      m := m[currency := m[currency] + MonthlyShare(policy)];
      i := i + 1;
    }
    TallyTotals(policies, |policies|);
    assert policies[..|policies|] == policies;
  }

  /** The map after n policies has one entry per currency among them, holding
      that currency's income from them. */
  lemma {:induction false} TallyTotals(policies: seq<Policy>, n: nat)
    requires n <= |policies|
    ensures Tally(policies, n).Keys == Currencies(policies[..n])
    ensures forall c :: c in Tally(policies, n) ==> Tally(policies, n)[c] == Total(policies[..n], c)
  {
    if n > 0 {
      TallyTotals(policies, n - 1);
      var seen, p := policies[..n - 1], policies[n - 1];
      assert policies[..n] == seen + [p];
      var m := Tally(policies, n - 1);
      var c0 := PremiumCurrency(p);
      CurrenciesSnoc(seen, p);
      forall c | c in Tally(policies, n)
        ensures Tally(policies, n)[c] == Total(seen + [p], c)
      {
        TotalSnoc(seen, p, c);
        if c == c0 && c0 !in m {
          TotalAbsent(seen, c);
        }
      }
    }
  }

  /** A currency no policy is in has no income. */
  lemma {:induction false} TotalAbsent(s: seq<Policy>, c: string)
    requires c !in Currencies(s)
    ensures Total(s, c) == 0.0
  {
    if s != [] {
      assert forall p :: p in s[..|s| - 1] ==> p in s;
      TotalAbsent(s[..|s| - 1], c);
    }
  }

  /** One more policy adds its share to its own currency and nothing to the others. */
  lemma TotalSnoc(s: seq<Policy>, p: Policy, c: string)
    ensures Total(s + [p], c) == Total(s, c) + (if PremiumCurrency(p) == c then MonthlyShare(p) else 0.0)
  {
    assert (s + [p])[..|s + [p]| - 1] == s;
  }

  lemma CurrenciesSnoc(s: seq<Policy>, p: Policy)
    ensures Currencies(s + [p]) == Currencies(s) + {PremiumCurrency(p)}
  {
    assert forall q :: q in s + [p] <==> q in s || q == p;
  }

  /** The income of two lists of policies together is the sum of their incomes. */
  lemma {:induction false} TotalAppend(a: seq<Policy>, b: seq<Policy>, c: string)
    ensures Total(a + b, c) == Total(a, c) + Total(b, c)
    decreases |b|
  {
    if b == [] {
      assert a + b == a;
    } else {
      assert (a + b)[..|a + b| - 1] == a + b[..|b| - 1];
      TotalAppend(a, b[..|b| - 1], c);
    }
  }

  /** The income does not depend on the order the store returns the policies in. */
  lemma {:induction false} TotalPermutation(a: seq<Policy>, b: seq<Policy>, c: string)
    requires multiset(a) == multiset(b)
    ensures Total(a, c) == Total(b, c)
    decreases |a|
  {
    if a != [] {
      var x := a[|a| - 1];
      assert x in multiset(b);
      var j :| 0 <= j < |b| && b[j] == x;
      var rest := b[..j] + b[j + 1..];
      assert b == b[..j] + [x] + b[j + 1..];
      assert a == a[..|a| - 1] + [x];
      assert multiset(b) == multiset(b[..j]) + multiset{x} + multiset(b[j + 1..]);
      assert multiset(a) == multiset(a[..|a| - 1]) + multiset{x};
      assert multiset(rest) == multiset(b[..j]) + multiset(b[j + 1..]);
      assert multiset(a[..|a| - 1]) == multiset(a) - multiset{x};
      assert multiset(rest) == multiset(b) - multiset{x};
      TotalPermutation(a[..|a| - 1], rest, c);
      TotalAppend(b[..j], b[j + 1..], c);
      TotalAppend(b[..j] + [x], b[j + 1..], c);
      TotalAppend(b[..j], [x], c);
      assert Total([x], c) == Total(a, c) - Total(a[..|a| - 1], c) by {
        assert [x][..0] == [];
      }
    }
  }

  /** When no premium is negative, no currency shows a negative income. */
  lemma {:induction false} TotalNonNegative(s: seq<Policy>, c: string)
    requires forall p :: p in s ==> p.premiumAmount >= 0.0
    ensures Total(s, c) >= 0.0
  {
    if s != [] {
      assert forall p :: p in s[..|s| - 1] ==> p in s;
      TotalNonNegative(s[..|s| - 1], c);
    }
  }

  /** The symbol `formatCurrency` writes after an amount: the symbol of the
      first configured currency with that code, or the code itself when no
      currency has it or that first one's symbol is empty. */
  function CurrencySymbol(currencies: seq<Currency>, code: string): (r: string)
    ensures (forall i :: 0 <= i < |currencies| ==> currencies[i].code != code) ==> r == code
    ensures forall i :: (0 <= i < |currencies| && currencies[i].code == code
                         && (forall j :: 0 <= j < i ==> currencies[j].code != code)) ==>
      r == (if currencies[i].symbol != "" then currencies[i].symbol else code)
    ensures code != "" ==> r != ""
  {
    var currency := Find(currencies, (c: Currency) => c.code == code);
    if currency.Some? && currency.value.symbol != "" then currency.value.symbol else code
  }

  /** Only the first currency with the code is looked at: an empty symbol
      there shows the code, even when a later currency has a symbol. */
  lemma CurrencySymbolFirstMatchOnly(a: Currency, b: Currency)
    requires a.code == b.code && a.symbol == "" && b.symbol != ""
    ensures CurrencySymbol([a, b], a.code) == a.code
    ensures CurrencySymbol([b, a], a.code) == b.symbol
  {
    assert [a, b][0] == a;
    assert [b, a][0] == b;
  }

  /** `formatCurrency`: the amount as the locale writes it with two decimals
      (passed in as text), a blank and the symbol. */
  function FormatCurrency(formattedAmount: string, currencies: seq<Currency>, code: string): (r: string)
    ensures formattedAmount + " " <= r
    ensures r[|formattedAmount| + 1..] == CurrencySymbol(currencies, code)
  {
    formattedAmount + " " + CurrencySymbol(currencies, code)
  }

  /** The counts the store reports for the dashboard's cards; each may be
      missing from the answer. */
  datatype StoreCounts = StoreCounts(
    policyholders: Option<nat>,
    policies: Option<nat>,
    activePolicies: Option<nat>,
    unreadNotifications: Option<nat>)

  datatype Stats = Stats(
    totalPolicyholders: nat,
    totalPolicies: nat,
    activePolicies: nat,
    expiringPolicies: nat,
    unreadNotifications: nat,
    monthlyPremiums: map<string, real>)

  /** The figures `setStats` stores: every count the store left out shows 0,
      every count it gave is shown as given. */
  function DashboardStats(counts: StoreCounts, expiringCount: Option<nat>, monthlyPremiums: map<string, real>): (r: Stats)
    ensures counts.policyholders.None? ==> r.totalPolicyholders == 0
    ensures counts.policies.None? ==> r.totalPolicies == 0
    ensures counts.activePolicies.None? ==> r.activePolicies == 0
    ensures expiringCount.None? ==> r.expiringPolicies == 0
    ensures counts.unreadNotifications.None? ==> r.unreadNotifications == 0
    ensures counts.policyholders.Some? ==> r.totalPolicyholders == counts.policyholders.value
    ensures counts.policies.Some? ==> r.totalPolicies == counts.policies.value
    ensures counts.activePolicies.Some? ==> r.activePolicies == counts.activePolicies.value
    ensures expiringCount.Some? ==> r.expiringPolicies == expiringCount.value
    ensures counts.unreadNotifications.Some? ==> r.unreadNotifications == counts.unreadNotifications.value
    ensures r.monthlyPremiums == monthlyPremiums
  {
    Stats(
      CountOrZero(counts.policyholders),
      CountOrZero(counts.policies),
      CountOrZero(counts.activePolicies),
      CountOrZero(expiringCount),
      CountOrZero(counts.unreadNotifications),
      monthlyPremiums)
  }

  /** The `count` a store query answers with: the number of matching rows
      when the query asks for `{ count: 'exact' }`, null when it does not. */
  function QueryCount(countRequested: bool, matching: nat): (r: Option<nat>)
    ensures r.Some? <==> countRequested
    ensures r.Some? ==> r.value == matching
  {
    if countRequested then Some(matching) else None
  }

  /** The expiring-policies query as written: it selects up to five rows
      for the list below the cards and does not ask for a count. */
  function ExpiringCountAsWritten(matching: nat): Option<nat> {
    QueryCount(false, matching)
  }

  /** As written, the 'Por Vencer (30 días)' card shows 0 whatever the
      number of policies about to expire; three such policies show as 0. */
  lemma ExpiringCardAlwaysZero(counts: StoreCounts, matching: nat, monthlyPremiums: map<string, real>)
    ensures DashboardStats(counts, ExpiringCountAsWritten(matching), monthlyPremiums).expiringPolicies == 0
    ensures DashboardStats(counts, ExpiringCountAsWritten(3), monthlyPremiums).expiringPolicies != 3
  {
  }

  /** The query with `{ count: 'exact' }` added: the count of every matching
      policy, not only of the five rows listed. */
  function ExpiringCount(matching: nat): Option<nat> {
    QueryCount(true, matching)
  }

  /** With the count requested, the card shows how many active policies
      expire within thirty days. */
  lemma ExpiringCardCountsPolicies(counts: StoreCounts, matching: nat, monthlyPremiums: map<string, real>)
    ensures DashboardStats(counts, ExpiringCount(matching), monthlyPremiums).expiringPolicies == matching
  {
  }
}
