/** Name and phone formatting used by the birthday reminders and the
    WhatsApp links (src/utils/formatUtils.ts). */
module FormatUtils {
  import opened Js
  import opened Text
  import opened Lists
  import opened Records

  /** Two strings that differ at most in the case of their letters. */
  predicate SameLettersIgnoringCase(a: string, b: string) {
    |a| == |b| && forall i :: 0 <= i < |a| ==> LowerChar(a[i]) == LowerChar(b[i])
  }

  /** A first name: '' stays '', otherwise the first character is upper-cased
      and every other one lower-cased. */
  function FormatName(name: string): (r: string)
    ensures name == "" ==> r == ""
    ensures SameLettersIgnoringCase(r, name)
    ensures r != "" ==> !IsLowerLetter(r[0])
    ensures forall i :: 1 <= i < |r| ==> !IsUpperLetter(r[i])
  {
    if name == "" then ""
    else
      var r := [UpperChar(name[0])] + ToLower(name[1..]);
      assert forall i :: 1 <= i < |r| ==> r[i] == LowerChar(name[i]);
      forall i | 0 <= i < |r| ensures LowerChar(r[i]) == LowerChar(name[i]) {
        LowerCharIdempotent(name[i]);
      }
      r
  }

  /** A last name: '' stays '', otherwise the whole name is upper-cased. */
  function FormatLastName(lastName: string): (r: string)
    ensures lastName == "" ==> r == ""
    ensures SameLettersIgnoringCase(r, lastName)
    ensures IsUpperCase(r)
  {
    if lastName == "" then ""
    else
      ToUpperIdempotent(lastName);
      ToUpperSameLetters(lastName);
      ToUpper(lastName)
  }

  /** A business name: formatted exactly like a last name. */
  function FormatBusinessName(businessName: string): (r: string)
    ensures businessName == "" ==> r == ""
    ensures SameLettersIgnoringCase(r, businessName)
    ensures IsUpperCase(r)
  {
    if businessName == "" then ""
    else
      ToUpperIdempotent(businessName);
      ToUpperSameLetters(businessName);
      ToUpper(businessName)
  }

  lemma ToUpperSameLetters(s: string)
    ensures SameLettersIgnoringCase(ToUpper(s), s)
  {
  }

  /** Formatting a first name twice is formatting it once. */
  lemma FormatNameIdempotent(name: string)
    ensures FormatName(FormatName(name)) == FormatName(name)
  {
    if name != "" {
      var r := FormatName(name);
      UpperCharIdempotent(name[0]);
      assert r[1..] == ToLower(name[1..]);
      ToLowerIdempotent(name[1..]);
    }
  }

  /** Formatting a last or business name twice is formatting it once. */
  lemma FormatLastNameIdempotent(lastName: string)
    ensures FormatLastName(FormatLastName(lastName)) == FormatLastName(lastName)
    ensures FormatBusinessName(FormatBusinessName(lastName)) == FormatBusinessName(lastName)
  {
    ToUpperIdempotent(lastName);
  }

  /** The name shown for a policyholder in the birthday reminders. */
  function FormatPolicyholderName(p: Option<Policyholder>): (r: string)
    ensures p.None? ==> r == "Sin asegurado"
    ensures p.Some? && p.value.entityType != "fisico" && OrEmpty(p.value.businessName) == "" ==> r == "SIN NOMBRE"
    ensures p.Some? && p.value.entityType != "fisico" && OrEmpty(p.value.businessName) != "" ==>
      r == ToUpper(p.value.businessName.value)
    ensures p.Some? && p.value.entityType == "fisico" ==>
      r == Trim(FormatName(OrEmpty(p.value.firstName)) + " " + FormatLastName(OrEmpty(p.value.lastName)))
    ensures p.Some? && p.value.entityType == "fisico" ==>
      r == "" || (!IsWhitespace(r[0]) && !IsWhitespace(r[|r| - 1]))
  {
    match p
    case None => "Sin asegurado"
    case Some(ph) =>
      if ph.entityType == "fisico" then
        var firstName := FormatName(OrEmpty(ph.firstName));
        var lastName := FormatLastName(OrEmpty(ph.lastName));
        Trim(firstName + " " + lastName)
      else
        FormatBusinessName(OrElse(ph.businessName, "Sin nombre"))
  }

  /** For a natural person a missing part leaves no stray blank: the name is
      just the other part, trimmed. */
  lemma FisicoNameMissingPart(ph: Policyholder)
    requires ph.entityType == "fisico"
    ensures OrEmpty(ph.firstName) == "" ==>
      FormatPolicyholderName(Some(ph)) == Trim(FormatLastName(OrEmpty(ph.lastName)))
    ensures OrEmpty(ph.lastName) == "" ==>
      FormatPolicyholderName(Some(ph)) == Trim(FormatName(OrEmpty(ph.firstName)))
    ensures OrEmpty(ph.firstName) == "" && OrEmpty(ph.lastName) == "" ==>
      FormatPolicyholderName(Some(ph)) == ""
  {
    var f := FormatName(OrEmpty(ph.firstName));
    var l := FormatLastName(OrEmpty(ph.lastName));
    if f == "" {
      assert f + " " + l == " " + l;
      TrimJoinedBlank(l);
    }
    if l == "" {
      assert f + " " + l == f + " ";
      TrimJoinedBlank(f);
    }
    if f == "" && l == "" {
      assert Trim(" ") == "";
    }
  }

  /** With both parts present, and no white space at the outer ends of the
      name, nothing is trimmed: the result is the first name, one blank and
      the last name, both formatted. */
  lemma FisicoNameBothParts(ph: Policyholder)
    requires ph.entityType == "fisico"
    requires OrEmpty(ph.firstName) != "" && !IsWhitespace(OrEmpty(ph.firstName)[0])
    requires OrEmpty(ph.lastName) != "" && !IsWhitespace(OrEmpty(ph.lastName)[|OrEmpty(ph.lastName)| - 1])
    ensures FormatPolicyholderName(Some(ph)) ==
      FormatName(OrEmpty(ph.firstName)) + " " + FormatLastName(OrEmpty(ph.lastName))
  {
    var first, last := OrEmpty(ph.firstName), OrEmpty(ph.lastName);
    var f, l := FormatName(first), FormatLastName(last);
    var joined := f + " " + l;
    assert f[0] == UpperChar(first[0]);
    assert l[|l| - 1] == UpperChar(last[|last| - 1]);
    assert joined[0] == f[0];
    assert joined[|joined| - 1] == l[|l| - 1];
    TrimUnchanged(joined);
  }

  /** The WhatsApp number: the digits of the phone, with Argentina's country
      code 54 put in front of a ten-digit number that does not already start
      with it. A missing phone reaches this function as ''. */
  function FormatPhoneForWhatsApp(phone: string): (r: string)
    ensures phone == "" ==> r == ""
    ensures AllDigits(r)
    ensures r == KeepDigits(phone) || r == "54" + KeepDigits(phone)
    ensures r == "54" + KeepDigits(phone) <==> |KeepDigits(phone)| == 10 && !("54" <= KeepDigits(phone))
  {
    if phone == "" then ""
    else
      var cleanPhone := KeepDigits(phone);
      if |cleanPhone| == 10 && !("54" <= cleanPhone) then "54" + cleanPhone
      else cleanPhone
  }

  /** Formatting an already formatted number changes nothing. */
  lemma FormatPhoneIdempotent(phone: string)
    ensures FormatPhoneForWhatsApp(FormatPhoneForWhatsApp(phone)) == FormatPhoneForWhatsApp(phone)
  {
    var r := FormatPhoneForWhatsApp(phone);
    KeepDigitsIdempotent(phone);
    assert KeepDigits(r) == r;
  }

  const WhatsAppBase := "https://wa.me/"

  /** The link `openWhatsApp` opens, or None when the number formats to ''
      (the source then alerts and opens nothing). The message is appended only
      when it is non-empty. */
  function WhatsAppUrl(phone: string, message: Option<string>): (url: Option<string>)
    ensures url.None? <==> FormatPhoneForWhatsApp(phone) == ""
    ensures url.Some? ==> WhatsAppBase + FormatPhoneForWhatsApp(phone) <= url.value
    ensures url.Some? && OrEmpty(message) == "" ==> url.value == WhatsAppBase + FormatPhoneForWhatsApp(phone)
    ensures url.Some? && OrEmpty(message) != "" ==>
      url.value == WhatsAppBase + FormatPhoneForWhatsApp(phone) + "?text=" + message.value
  {
    var formattedPhone := FormatPhoneForWhatsApp(phone);
    if formattedPhone == "" then None
    else
      var encodedMessage := OrEmpty(message);
      Some(WhatsAppBase + formattedPhone + (if encodedMessage != "" then "?text=" + encodedMessage else ""))
  }

  /** The guard of `getBirthdaysThisWeek`: only natural persons with a date of birth. */
  predicate BirthdayCandidate(ph: Policyholder) {
    ph.entityType == "fisico" && OrEmpty(ph.dateOfBirth) != ""
  }

  /** `getBirthdaysThisWeek`, with the calendar test (does the next birthday
      fall within the coming week, counted from today) passed in as `inWindow`. */
  function BirthdaysThisWeek(phs: seq<Policyholder>, inWindow: string -> bool): (r: seq<Policyholder>)
    ensures Subseq(r, phs)
    ensures forall ph :: ph in r ==> ph.entityType == "fisico" && OrEmpty(ph.dateOfBirth) != ""
    ensures forall ph :: ph in r ==> inWindow(OrEmpty(ph.dateOfBirth))
    ensures forall ph :: ph in phs && BirthdayCandidate(ph) && inWindow(OrEmpty(ph.dateOfBirth)) ==> ph in r
  {
    var r := Filter(phs, ph => BirthdayCandidate(ph) && inWindow(OrEmpty(ph.dateOfBirth)));
    assert forall ph :: ph in r ==> BirthdayCandidate(ph);
    r
  }
}
