/** The lead-capture check run by both contact forms (the inline one in the footer section and
    the reusable verification modal), and the form data they post when it passes. */
module LeadForm {
  import opened Text

  datatype Option<T> = None | Some(value: T)

  const INVALID_EMAIL: string := "INVALID EMAIL"
  const SELECT_CODE: string := "SELECT CODE"
  const INVALID_NUMBER: string := "INVALID NUMBER"
  const AUTHORIZATION_REQUIRED: string := "AUTHORIZATION REQUIRED"

  /** Texts written straight into the submit button while and after sending. */
  const TRANSMITTING: string := "TRANSMITTING..."
  const ERROR_RETRY: string := "ERROR - RETRY"

  /** The error map `{email?, phone?, authorized?}`: an absent key is `None`. */
  datatype Errors = Errors(email: Option<string>, phone: Option<string>, authorized: Option<string>)

  const NO_ERRORS: Errors := Errors(None, None, None)

  // ---------------------------------------------------------------------------------------
  // E-mail: the pattern ^[^\s@]+@[^\s@]+\.[^\s@]+$

  /** The class `[^\s@]`. */
  predicate EmailChar(c: char) {
    !IsSpace(c) && c != '@'
  }

  predicate AllEmailChars(s: string) {
    forall k | 0 <= k < |s| :: EmailChar(s[k])
  }

  /** What the regular expression accepts, read off its structure: a local part, `@`, a
      domain host, `.`, and a last part, each one or more characters of `[^\s@]`. */
  ghost predicate MatchesEmailPattern(s: string) {
    exists local: string, host: string, rest: string
      {:trigger AllEmailChars(local), AllEmailChars(host), AllEmailChars(rest)}
      | AllEmailChars(local) && AllEmailChars(host) && AllEmailChars(rest)
      :: && |local| > 0 && |host| > 0 && |rest| > 0
         && s == local + "@" + host + "." + rest
  }

  /** A domain with a `.` that has at least one character on each side. */
  predicate HasInnerDot(domain: string) {
    exists j | 1 <= j < |domain| - 1 :: domain[j] == '.'
  }

  /** The e-mail check written out: no whitespace, exactly one `@`, a non-empty local part,
      and a domain with an inner dot. */
  predicate EmailOk(s: string) {
    && NoSpace(s)
    && CountOf('@', s) == 1
    && var at := IndexOf('@', s);
       0 < at < |s| && HasInnerDot(s[at + 1..])
  }

  /** The written-out check accepts exactly what the regular expression accepts. */
  lemma EmailOkIffPattern(s: string)
    ensures EmailOk(s) <==> MatchesEmailPattern(s)
  {
    if EmailOk(s) { EmailOkMatches(s); }
    if MatchesEmailPattern(s) {
      var local: string, host: string, rest: string :|
        && AllEmailChars(local) && AllEmailChars(host) && AllEmailChars(rest)
        && |local| > 0 && |host| > 0 && |rest| > 0
        && s == local + "@" + host + "." + rest;
      PatternIsEmailOk(local, host, rest);
    }
  }

  lemma EmailOkMatches(s: string)
    requires EmailOk(s)
    ensures MatchesEmailPattern(s)
  {
    var at := IndexOf('@', s);
    OnlyAtSplits(s);
    var j :| 1 <= j < |s[at + 1..]| - 1 && s[at + 1..][j] == '.';
    SplitAtAtAndDot(s, at, j);
  }

  /** A whitespace-free string cut at its only `@` and at an inner dot after it. */
  lemma SplitAtAtAndDot(s: string, at: nat, j: nat)
    requires NoSpace(s) && 0 < at < |s| && s[at] == '@'
    requires '@' !in s[..at] && '@' !in s[at + 1..]
    requires 1 <= j < |s| - at - 2 && s[at + 1 + j] == '.'
    ensures MatchesEmailPattern(s)
  {
    var domain := s[at + 1..];
    assert domain[j] == '.';
    var local, host, rest := s[..at], domain[..j], domain[j + 1..];
    NoSpaceSuffix(s, at + 1);
    assert local == s[0..at];
    SliceIsEmailChars(s, 0, at);
    SliceIsEmailChars(domain, 0, j);
    SliceIsEmailChars(domain, j + 1, |domain|);
    assert s == local + [s[at]] + domain;
    assert domain == host + [domain[j]] + rest;
    PatternFromParts(s, local, host, rest);
  }

  /** With a single `@`, neither side of it holds another. */
  lemma OnlyAtSplits(s: string)
    requires CountOf('@', s) == 1
    ensures IndexOf('@', s) < |s|
    ensures '@' !in s[IndexOf('@', s) + 1..]
  {
    CountOfZero('@', s);
    var at := IndexOf('@', s);
    var before, after := s[..at], s[at + 1..];
    assert s == (before + [s[at]]) + after;
    CountOfConcat('@', before + [s[at]], after);
    CountOfConcat('@', before, [s[at]]);
    CountOfZero('@', before);
    assert CountOf('@', [s[at]]) == 1;
    assert CountOf('@', after) == 0;
    CountOfZero('@', after);
  }

  lemma PatternFromParts(s: string, local: string, host: string, rest: string)
    requires AllEmailChars(local) && AllEmailChars(host) && AllEmailChars(rest)
    requires |local| > 0 && |host| > 0 && |rest| > 0
    requires s == local + ['@'] + (host + ['.'] + rest)
    ensures MatchesEmailPattern(s)
  {
    assert s == local + "@" + host + "." + rest;
  }

  lemma NoSpaceSuffix(s: string, i: nat)
    requires i <= |s| && NoSpace(s)
    ensures NoSpace(s[i..])
  {
    forall k | 0 <= k < |s| - i ensures !IsSpace(s[i..][k]) {
      assert s[i..][k] == s[i + k];
    }
  }

  /** A stretch of a whitespace-free string that holds no `@` is made of `[^\s@]`. */
  lemma SliceIsEmailChars(s: string, i: nat, j: nat)
    requires i <= j <= |s| && NoSpace(s) && '@' !in s[i..j]
    ensures AllEmailChars(s[i..j])
  {
    forall k | 0 <= k < j - i ensures EmailChar(s[i..j][k]) {
      assert s[i..j][k] == s[i + k];
    }
  }

  lemma EmailCharsAreNoSpace(t: string)
    requires AllEmailChars(t)
    ensures NoSpace(t) && '@' !in t
  {
    forall k | 0 <= k < |t| ensures !IsSpace(t[k]) && t[k] != '@' {
      assert EmailChar(t[k]);
    }
  }

  lemma JoinNoSpace(a: string, c: char, b: string)
    requires NoSpace(a) && NoSpace(b) && !IsSpace(c)
    ensures NoSpace(a + [c] + b)
  {
    var t := a + [c] + b;
    forall k | 0 <= k < |t| ensures !IsSpace(t[k]) {
      if k < |a| { assert t[k] == a[k]; }
      else if k > |a| { assert t[k] == b[k - |a| - 1]; }
    }
  }

  lemma PatternIsEmailOk(local: string, host: string, rest: string)
    requires AllEmailChars(local) && AllEmailChars(host) && AllEmailChars(rest)
    requires |local| > 0 && |host| > 0 && |rest| > 0
    ensures EmailOk(local + "@" + host + "." + rest)
  {
    var domain := host + "." + rest;
    var s := local + "@" + domain;
    assert s == local + "@" + host + "." + rest;
    EmailCharsAreNoSpace(local);
    EmailCharsAreNoSpace(host);
    EmailCharsAreNoSpace(rest);
    JoinNoSpace(host, '.', rest);
    JoinNoSpace(local, '@', domain);
    assert '@' !in domain;
    CountOfZero('@', local);
    CountOfZero('@', domain);
    CountOfConcat('@', local, "@");
    CountOfConcat('@', local + "@", domain);
    assert s[..|local|] == local;
    assert IndexOf('@', s) == |local|;
    assert s[|local| + 1..] == domain;
    assert domain[|host|] == '.';
  }

  // ---------------------------------------------------------------------------------------
  // Phone: the pattern ^\d{6,14}$ applied to the number with all whitespace removed

  predicate AllDigits(s: string) {
    forall k | 0 <= k < |s| :: IsDigit(s[k])
  }

  predicate PhoneOk(phone: string) {
    var digits := StripSpaces(phone);
    6 <= |digits| <= 14 && AllDigits(digits)
  }

  /** The phone check read on the number as typed: every character is whitespace or an ASCII
      digit, and there are six to fourteen non-whitespace characters. */
  lemma PhoneOkIffDigitsAndSpaces(phone: string)
    ensures PhoneOk(phone) <==>
      (forall k | 0 <= k < |phone| :: IsSpace(phone[k]) || IsDigit(phone[k]))
      && 6 <= |StripSpaces(phone)| <= 14
  {
    var digits := StripSpaces(phone);
    if AllDigits(digits) {
      forall k | 0 <= k < |phone| ensures IsSpace(phone[k]) || IsDigit(phone[k]) {
        if !IsSpace(phone[k]) {
          StripSpacesConcat(phone[..k], phone[k..]);
          StripSpacesConcat([phone[k]], phone[k + 1..]);
          assert phone == phone[..k] + phone[k..];
          assert phone[k..] == [phone[k]] + phone[k + 1..];
          assert digits[|StripSpaces(phone[..k])|] == phone[k];
        }
      }
    }
    if forall k | 0 <= k < |phone| :: IsSpace(phone[k]) || IsDigit(phone[k]) {
      forall k | 0 <= k < |digits| ensures IsDigit(digits[k]) {
        NonSpaceCharsAreDigits(phone, k);
      }
    }
  }

  lemma {:induction false} NonSpaceCharsAreDigits(s: string, k: nat)
    requires forall i | 0 <= i < |s| :: IsSpace(s[i]) || IsDigit(s[i])
    requires k < |StripSpaces(s)|
    ensures IsDigit(StripSpaces(s)[k])
  {
    StripSpacesFrom(s, k);
    var c := StripSpaces(s)[k];
    var i :| 0 <= i < |s| && s[i] == c;
    assert !IsSpace(c);
  }

  /** Whitespace typed anywhere in the number never changes whether it is accepted. */
  lemma PhoneOkIgnoresSpaces(before: string, spaces: string, after: string)
    requires AllSpace(spaces)
    ensures PhoneOk(before + spaces + after) == PhoneOk(before + after)
  {
    StripSpacesConcat(before + spaces, after);
    StripSpacesConcat(before, spaces);
    StripSpacesOfAllSpace(spaces);
    StripSpacesConcat(before, after);
    assert StripSpaces(before + spaces) == StripSpaces(before);
    assert StripSpaces(before + spaces + after) == StripSpaces(before + after);
  }

  // ---------------------------------------------------------------------------------------
  // The whole check

  /** The error map `handleFinalSubmit` builds from the four form fields. */
  function Validate(email: string, countryCode: string, phone: string, authorized: bool): (e: Errors)
    ensures e.email == None <==> MatchesEmailPattern(email)
    ensures e.email == None || e.email == Some(INVALID_EMAIL)
    ensures e.phone == Some(SELECT_CODE) <==> countryCode == ""
    ensures e.phone == Some(INVALID_NUMBER) <==> countryCode != "" && !PhoneOk(phone)
    ensures e.phone == None <==> countryCode != "" && PhoneOk(phone)
    ensures e.authorized == None <==> authorized
    ensures e.authorized == None || e.authorized == Some(AUTHORIZATION_REQUIRED)
  {
    EmailOkIffPattern(email);
    Errors(
      if EmailOk(email) then None else Some(INVALID_EMAIL),
      if countryCode == "" then Some(SELECT_CODE)
      else if !PhoneOk(phone) then Some(INVALID_NUMBER)
      else None,
      if authorized then None else Some(AUTHORIZATION_REQUIRED))
  }

  /** `handleFinalSubmit`'s own sequence of steps: start from an empty map, record each
      failing field and clear `isValid` as it goes. */
  method CheckSubmission(email: string, countryCode: string, phone: string, authorized: bool)
    returns (newErrors: Errors, isValid: bool)
    ensures newErrors == Validate(email, countryCode, phone, authorized)
    ensures isValid <==> newErrors == NO_ERRORS
  {
    newErrors := NO_ERRORS;
    isValid := true;
    if !EmailOk(email) {
      newErrors := newErrors.(email := Some(INVALID_EMAIL));
      isValid := false;
    }
    if countryCode == "" {
      newErrors := newErrors.(phone := Some(SELECT_CODE));
      isValid := false;
    } else if !PhoneOk(phone) {
      newErrors := newErrors.(phone := Some(INVALID_NUMBER));
      isValid := false;
    }
    if !authorized {
      newErrors := newErrors.(authorized := Some(AUTHORIZATION_REQUIRED));
      isValid := false;
    }
  }

  /** A submission passes exactly when all four conditions hold. */
  lemma ValidIffAllFour(email: string, countryCode: string, phone: string, authorized: bool)
    ensures Validate(email, countryCode, phone, authorized) == NO_ERRORS <==>
      MatchesEmailPattern(email) && countryCode != "" && PhoneOk(phone) && authorized
  {
  }

  /** A missing country code reports "SELECT CODE" whatever the number is, so the number is
      only judged once a code is present. */
  lemma MissingCodeHidesNumber(email: string, phone1: string, phone2: string, authorized: bool)
    ensures Validate(email, "", phone1, authorized) == Validate(email, "", phone2, authorized)
    ensures Validate(email, "", phone1, authorized).phone == Some(SELECT_CODE)
  {
  }

  /** Each field's entry depends on that field alone, so one that passes carries no error. */
  lemma ErrorsAreFieldwise(email1: string, email2: string, code: string, phone: string, a1: bool, a2: bool)
    ensures Validate(email1, code, phone, a1).phone == Validate(email2, code, phone, a2).phone
    ensures MatchesEmailPattern(email2) ==> Validate(email2, code, phone, a2).email == None
  {
  }

  /** A valid submission; the number is written as two groups of digits with a space between. */
  lemma ValidExample()
    ensures Validate("a@b.co", "+91", "98765" + " " + "43210", true) == NO_ERRORS
  {
    SampleEmailOk();
    MobileKeepsSpaces();
  }

  lemma SampleEmailOk()
    ensures EmailOk("a@b.co")
  {
    PatternIsEmailOk("a", "b", "co");
    assert "a" + "@" + "b" + "." + "co" == "a@b.co";
  }

  /** Two groups of digits with one space between them lose just that space. */
  lemma {:induction false} StripSpacesBetweenDigits(a: string, b: string)
    requires AllDigits(a) && AllDigits(b)
    ensures StripSpaces(a + " " + b) == a + b
  {
    DigitsHaveNoSpace(a);
    DigitsHaveNoSpace(b);
    StripSpacesConcat(a + " ", b);
    StripSpacesConcat(a, " ");
    StripSpacesOfNoSpace(a);
    StripSpacesOfNoSpace(b);
    StripSpacesOfAllSpace(" ");
  }

  lemma DigitsHaveNoSpace(s: string)
    requires AllDigits(s)
    ensures NoSpace(s)
  {
    forall k | 0 <= k < |s| ensures !IsSpace(s[k]) {
      assert IsDigit(s[k]);
    }
  }

  /** The sample number of the examples, with its space removed. */
  lemma SampleNumberDigits()
    ensures StripSpaces("98765" + " " + "43210") == "9876543210"
  {
    var a, b := "98765", "43210";
    assert AllDigits(a) && AllDigits(b);
    StripSpacesBetweenDigits(a, b);
  }

  lemma InvalidExamples()
    ensures Validate("a@b", "+91", "12345", false) ==
      Errors(Some(INVALID_EMAIL), Some(INVALID_NUMBER), Some(AUTHORIZATION_REQUIRED))
  {
    var e := "a@b";
    assert IndexOf('@', e) == 1;
    assert !HasInnerDot(e[2..]);
    StripSpacesOfNoSpace("12345");
  }

  // ---------------------------------------------------------------------------------------
  // The posted form data

  const FORM_URL: string :=
    "https://docs.google.com/forms/d/e/1FAIpQLSd0uTXvBkYY8iJmhvR6-9SzdV55yriZR12nzbQpPCHhIiHmoA/formResponse"
  const HANDLE_ENTRY: string := "entry.316619129"
  const EMAIL_ENTRY: string := "entry.2004379225"
  const MOBILE_ENTRY: string := "entry.1663992994"

  /** `FormData` entries in the order they were appended. */
  type Payload = seq<(string, string)>

  /** The mobile entry: the country code, one space, and the number as typed. */
  function MobileNumber(countryCode: string, phone: string): string {
    countryCode + " " + phone
  }

  function BuildPayload(handle: string, email: string, countryCode: string, phone: string): Payload {
    [(HANDLE_ENTRY, handle), (EMAIL_ENTRY, email), (MOBILE_ENTRY, MobileNumber(countryCode, phone))]
  }

  /** `formData.get(key)`: the first entry with that key. */
  function Lookup(p: Payload, key: string): Option<string> {
    if p == [] then None else if p[0].0 == key then Some(p[0].1) else Lookup(p[1..], key)
  }

  /** Reading the mobile entry back: the code is everything before the first space. */
  function SplitMobile(mobile: string): (string, string) {
    var i := IndexOf(' ', mobile);
    if i < |mobile| then (mobile[..i], mobile[i + 1..]) else (mobile, "")
  }

  /** The payload holds exactly the three entries, under three distinct keys, in order, and each
      key gives back its field; the mobile entry splits back into the code and the raw number. */
  lemma PayloadRoundTrip(handle: string, email: string, countryCode: string, phone: string)
    requires ' ' !in countryCode
    ensures var p := BuildPayload(handle, email, countryCode, phone);
      && |p| == 3
      && p[0].0 == HANDLE_ENTRY && p[1].0 == EMAIL_ENTRY && p[2].0 == MOBILE_ENTRY
      && Lookup(p, HANDLE_ENTRY) == Some(handle)
      && Lookup(p, EMAIL_ENTRY) == Some(email)
      && Lookup(p, MOBILE_ENTRY).Some?
      && SplitMobile(Lookup(p, MOBILE_ENTRY).value) == (countryCode, phone)
  {
    var p := BuildPayload(handle, email, countryCode, phone);
    assert EMAIL_ENTRY[6] != MOBILE_ENTRY[6] && EMAIL_ENTRY != HANDLE_ENTRY;
    assert Lookup(p, MOBILE_ENTRY) == Lookup(p[1..], MOBILE_ENTRY) == Lookup(p[1..][1..], MOBILE_ENTRY);
    var m := MobileNumber(countryCode, phone);
    IndexOfAfterPrefix(countryCode, phone);
    assert m[..|countryCode|] == countryCode;
    assert m[|countryCode| + 1..] == phone;
  }

  lemma IndexOfAfterPrefix(code: string, phone: string)
    requires ' ' !in code
    ensures IndexOf(' ', code + " " + phone) == |code|
  {
    var m := code + " " + phone;
    assert m[..|code|] == code;
    assert m[|code|] == ' ';
    var i := IndexOf(' ', m);
    assert forall k | 0 <= k < |code| :: m[k] == code[k];
  }

  /** The number is posted as typed, whitespace included, although the check ignored it. */
  lemma MobileKeepsSpaces()
    ensures MobileNumber("+91", "98765" + " " + "43210") == "+91 98765 43210"
    ensures PhoneOk("98765" + " " + "43210")
  {
    SampleNumberDigits();
  }
}
