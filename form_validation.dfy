/** The checkout form's field rules. Each regular expression is written as a
    recogniser that consumes the input the way the expression does, and is
    proved equivalent to a plain description of the strings it accepts. */
module FormValidation {
  import opened Wrappers
  import opened Decimal

  /** `[A-Z]` under the case-insensitive flag. */
  predicate IsAsciiLetter(c: char) {
    'A' <= c <= 'Z' || 'a' <= c <= 'z'
  }

  // ---------------------------------------------------------------- postcode

  /** `[0-9]{n}$`: exactly `n` more digits, then the end of the input. */
  function DigitsThenEnd(s: string, n: nat): bool
    decreases n
  {
    if n == 0 then s == []
    else s != [] && IsDigit(s[0]) && DigitsThenEnd(s[1..], n - 1)
  }

  /** `/^[0-9]{4}$/` */
  function PostcodeMatches(s: string): bool {
    DigitsThenEnd(s, 4)
  }

  lemma {:induction false} DigitsThenEndIff(s: string, n: nat)
    ensures DigitsThenEnd(s, n) <==> |s| == n && forall i :: 0 <= i < |s| ==> IsDigit(s[i])
    decreases n
  {
    if n > 0 && s != [] {
      DigitsThenEndIff(s[1..], n - 1);
      if |s| == n && forall i :: 0 <= i < |s| ==> IsDigit(s[i]) {
        assert forall i :: 0 <= i < |s[1..]| ==> IsDigit(s[1..][i]) by {
          forall i | 0 <= i < |s[1..]| ensures IsDigit(s[1..][i]) {
            assert s[1..][i] == s[i + 1];
          }
        }
      }
      if DigitsThenEnd(s, n) {
        forall i | 0 <= i < |s| ensures IsDigit(s[i]) {
          if i > 0 { assert s[i] == s[1..][i - 1]; }
        }
      }
    }
  }

  /** A postcode is accepted exactly when it is four ASCII digits. */
  lemma PostcodeAccepted(s: string)
    ensures PostcodeMatches(s) <==> |s| == 4 && forall i :: 0 <= i < |s| ==> IsDigit(s[i])
  {
    DigitsThenEndIff(s, 4);
  }

  // ------------------------------------------------------------------- phone

  /** `[2-478]`: the digit after the trunk or country prefix. */
  predicate IsLeadDigit(c: char) {
    c == '2' || c == '3' || c == '4' || c == '7' || c == '8'
  }

  predicate IsSeparator(c: char) {
    c == ' ' || c == '-'
  }

  /** `(?:[ -]?[0-9]){n}$`: `n` digits, each optionally preceded by one separator, then the end. */
  function GroupsThenEnd(s: string, n: nat): bool
    decreases n
  {
    if n == 0 then s == []
    else if |s| >= 1 && IsDigit(s[0]) then GroupsThenEnd(s[1..], n - 1)
    else |s| >= 2 && IsSeparator(s[0]) && IsDigit(s[1]) && GroupsThenEnd(s[2..], n - 1)
  }

  /** `/^(?:\+?61|0)[2-478](?:[ -]?[0-9]){8}$/` */
  function PhoneMatches(s: string): bool {
    var rest :=
      if |s| >= 3 && s[..3] == "+61" then Some(s[3..])
      else if |s| >= 2 && s[..2] == "61" then Some(s[2..])
      else if |s| >= 1 && s[0] == '0' then Some(s[1..])
      else None;
    rest.Some? && |rest.value| >= 1 && IsLeadDigit(rest.value[0]) && GroupsThenEnd(rest.value[1..], 8)
  }

  /** The number of digits in `s`. */
  function DigitCount(s: string): nat {
    if s == [] then 0 else (if IsDigit(s[0]) then 1 else 0) + DigitCount(s[1..])
  }

  /** Digits and separators only, and every separator is followed by a digit. */
  predicate SeparatedDigits(s: string) {
    forall i {:trigger s[i]} :: 0 <= i < |s| ==>
      IsDigit(s[i]) || (IsSeparator(s[i]) && i + 1 < |s| && IsDigit(s[i + 1]))
  }

  /** The shape condition at one position. */
  lemma SeparatedAt(s: string, i: nat)
    requires SeparatedDigits(s) && i < |s|
    ensures IsDigit(s[i]) || (IsSeparator(s[i]) && i + 1 < |s| && IsDigit(s[i + 1]))
  {
  }

  lemma SeparatedDigitsTail(s: string, k: nat)
    requires SeparatedDigits(s) && k <= |s|
    ensures SeparatedDigits(s[k..])
  {
    forall i | 0 <= i < |s[k..]|
      ensures IsDigit(s[k..][i]) || (IsSeparator(s[k..][i]) && i + 1 < |s[k..]| && IsDigit(s[k..][i + 1]))
    {
      assert s[k..][i] == s[k + i];
      SeparatedAt(s, k + i);
      if k + i + 1 < |s| { assert s[k..][i + 1] == s[k + i + 1]; }
    }
  }

  lemma {:induction false} GroupsThenEndIff(s: string, n: nat)
    ensures GroupsThenEnd(s, n) <==> SeparatedDigits(s) && DigitCount(s) == n
    decreases n
  {
    if n == 0 {
      if s != [] && SeparatedDigits(s) {
        DigitsCounted(s);
      }
    } else if |s| >= 1 && IsDigit(s[0]) {
      GroupsThenEndIff(s[1..], n - 1);
      if SeparatedDigits(s) { SeparatedDigitsTail(s, 1); }
      if SeparatedDigits(s[1..]) { SeparatedDigitsCons(s); }
    } else if |s| >= 2 && IsSeparator(s[0]) && IsDigit(s[1]) {
      GroupsThenEndIff(s[2..], n - 1);
      assert s[1..][1..] == s[2..];
      if SeparatedDigits(s) { SeparatedDigitsTail(s, 2); }
      if SeparatedDigits(s[2..]) {
        SeparatedDigitsCons(s[1..]);
        SeparatedDigitsCons(s);
      }
    } else if s != [] {
      assert !(IsDigit(s[0]) || (IsSeparator(s[0]) && 0 + 1 < |s| && IsDigit(s[0 + 1])));
    }
  }

  /** A non-empty run of separated digits holds a digit. */
  lemma DigitsCounted(s: string)
    requires s != [] && SeparatedDigits(s)
    ensures DigitCount(s) > 0
  {
    if !IsDigit(s[0]) {
      assert IsDigit(s[1..][0]);
    }
  }

  /** Prepending a digit, or a separator before a digit, keeps the shape. */
  lemma SeparatedDigitsCons(s: string)
    requires s != [] && SeparatedDigits(s[1..])
    requires IsDigit(s[0]) || (|s| >= 2 && IsSeparator(s[0]) && IsDigit(s[1]))
    ensures SeparatedDigits(s)
  {
    forall i | 0 <= i < |s|
      ensures IsDigit(s[i]) || (IsSeparator(s[i]) && i + 1 < |s| && IsDigit(s[i + 1]))
    {
      if i > 0 {
        var t := s[1..];
        assert s[i] == t[i - 1];
        if i + 1 < |s| { assert s[i + 1] == t[i]; }
        SeparatedAt(t, i - 1);
      }
    }
  }

  /** `s` is the prefix `p`, a lead digit, and eight separated digits. */
  predicate NumberAfter(p: string, s: string) {
    |s| > |p| && s[..|p|] == p && IsLeadDigit(s[|p|]) && SeparatedDigits(s[|p| + 1..]) && DigitCount(s[|p| + 1..]) == 8
  }

  /** A phone number is accepted exactly when it is `+61`, `61` or `0`, then one of
      2, 3, 4, 7, 8, then eight digits each optionally preceded by a space or a hyphen. */
  lemma PhoneAccepted(s: string)
    ensures PhoneMatches(s) <==> NumberAfter("+61", s) || NumberAfter("61", s) || NumberAfter("0", s)
  {
    if |s| >= 1 { assert s[..1][0] == s[0]; }
    if |s| >= 2 { assert s[..2][0] == s[0]; }
    if |s| >= 3 { assert s[..3][0] == s[0]; }
    if |s| >= 4 && s[..3] == "+61" {
      GroupsThenEndIff(s[4..], 8);
      assert s[3..][1..] == s[4..];
    } else if |s| >= 3 && s[..2] == "61" {
      GroupsThenEndIff(s[3..], 8);
      assert s[2..][1..] == s[3..];
    } else if |s| >= 2 && s[0] == '0' {
      GroupsThenEndIff(s[2..], 8);
      assert s[1..][1..] == s[2..];
      assert s[..1] == "0";
    }
  }

  // ------------------------------------------------------------------- email

  /** `[A-Z0-9._%+-]` under the case-insensitive flag. */
  predicate IsLocalChar(c: char) {
    IsAsciiLetter(c) || IsDigit(c) || c == '.' || c == '_' || c == '%' || c == '+' || c == '-'
  }

  /** `[A-Z0-9.-]` under the case-insensitive flag. */
  predicate IsDomainChar(c: char) {
    IsAsciiLetter(c) || IsDigit(c) || c == '.' || c == '-'
  }

  predicate AllLocal(s: string) {
    forall i :: 0 <= i < |s| ==> IsLocalChar(s[i])
  }

  predicate AllDomain(s: string) {
    forall i :: 0 <= i < |s| ==> IsDomainChar(s[i])
  }

  predicate AllLetters(s: string) {
    forall i :: 0 <= i < |s| ==> IsAsciiLetter(s[i])
  }

  /** One way to split `s` as the expression does: a non-empty local part, `@`
      at `at`, a non-empty domain, `.` at `dot`, and two or more letters. */
  predicate EmailSplit(s: string, at: nat, dot: nat) {
    0 < at && at + 1 < dot && dot + 3 <= |s|
    && s[at] == '@' && s[dot] == '.'
    && AllLocal(s[..at]) && AllDomain(s[at + 1..dot]) && AllLetters(s[dot + 1..])
  }

  /** Whether `/^[A-Z0-9._%+-]+@[A-Z0-9.-]+\.[A-Z]{2,}$/i` matches: some split exists. */
  ghost predicate EmailSpec(s: string) {
    exists at: nat, dot: nat :: EmailSplit(s, at, dot)
  }

  /** The first index of `c` in `s`, if any. */
  function IndexOf(s: string, c: char): (r: Option<nat>)
    ensures r.Some? ==> r.value < |s| && s[r.value] == c && forall j :: 0 <= j < r.value ==> s[j] != c
    ensures r.None? ==> forall j :: 0 <= j < |s| ==> s[j] != c
  {
    if s == [] then None
    else if s[0] == c then Some(0)
    else
      match IndexOf(s[1..], c)
      case None => None
      case Some(k) => Some(k + 1)
  }

  /** The last index of `c` in `s`, if any. */
  function LastIndexOf(s: string, c: char): (r: Option<nat>)
    ensures r.Some? ==> r.value < |s| && s[r.value] == c && forall j :: r.value < j < |s| ==> s[j] != c
    ensures r.None? ==> forall j :: 0 <= j < |s| ==> s[j] != c
    decreases |s|
  {
    if s == [] then None
    else if s[|s| - 1] == c then Some(|s| - 1)
    else LastIndexOf(s[..|s| - 1], c)
  }

  /** The recogniser: the only possible `@` is the first one (the local part
      has none) and the only possible `.` is the last one (the letters after it have none). */
  function EmailMatches(s: string): bool {
    var at := IndexOf(s, '@');
    var dot := LastIndexOf(s, '.');
    at.Some? && dot.Some? && EmailSplit(s, at.value, dot.value)
  }

  lemma EmailAccepted(s: string)
    ensures EmailMatches(s) <==> EmailSpec(s)
  {
    if EmailSpec(s) {
      var at: nat, dot: nat :| EmailSplit(s, at, dot);
      var first := IndexOf(s, '@');
      var last := LastIndexOf(s, '.');
      assert first.Some? && first.value <= at;
      assert first.value == at by {
        assert forall j :: 0 <= j < at ==> s[j] == s[..at][j];
      }
      assert last.Some? && last.value >= dot;
      assert last.value == dot by {
        assert forall j :: dot < j < |s| ==> s[j] == s[dot + 1..][j - dot - 1];
      }
    }
  }

  // ------------------------------------------------------------ field rules

  /** The values the checkout form submits. */
  datatype FormData = FormData(
    firstName: string,
    lastName: string,
    email: string,
    phone: string,
    address: string,
    suburb: string,
    postcode: string,
    preferredDate: string,
    notes: string)

  /** A field rule: the `required` message is checked first, then the pattern. */
  function FieldError(value: string, requiredMessage: string, matches: bool, patternMessage: string): (e: Option<string>)
    ensures value == "" ==> e == Some(requiredMessage)
    ensures value != "" && !matches ==> e == Some(patternMessage)
    ensures e.None? <==> value != "" && matches
  {
    if value == "" then Some(requiredMessage)
    else if !matches then Some(patternMessage)
    else None
  }

  function EmailError(value: string): (e: Option<string>)
    ensures e.None? <==> EmailSpec(value)
    ensures e.Some? ==> e.value == "Email is required" || e.value == "Invalid email address"
  {
    EmailAccepted(value);
    assert value == "" ==> !EmailMatches(value);
    FieldError(value, "Email is required", EmailMatches(value), "Invalid email address")
  }

  function PhoneError(value: string): (e: Option<string>)
    ensures e.None? <==> NumberAfter("+61", value) || NumberAfter("61", value) || NumberAfter("0", value)
    ensures e.Some? ==> e.value == "Phone number is required" || e.value == "Invalid Australian phone number"
  {
    PhoneAccepted(value);
    FieldError(value, "Phone number is required", PhoneMatches(value), "Invalid Australian phone number")
  }

  function PostcodeError(value: string): (e: Option<string>)
    ensures e.None? <==> |value| == 4 && forall i :: 0 <= i < |value| ==> IsDigit(value[i])
    ensures e.Some? ==> e.value == "Postcode is required" || e.value == "Invalid postcode"
  {
    PostcodeAccepted(value);
    FieldError(value, "Postcode is required", PostcodeMatches(value), "Invalid postcode")
  }

  /** The names the form registers its inputs under. */
  datatype FieldName = FirstName | LastName | Email | Phone | Address | Suburb | Postcode | PreferredDate | Notes

  const AllFields: set<FieldName> :=
    {FirstName, LastName, Email, Phone, Address, Suburb, Postcode, PreferredDate, Notes}

  /** The rule registered for one field, applied to its value. */
  function Rule(data: FormData, field: FieldName): Option<string> {
    match field
    case FirstName => FieldError(data.firstName, "First name is required", true, "")
    case LastName => FieldError(data.lastName, "Last name is required", true, "")
    case Email => EmailError(data.email)
    case Phone => PhoneError(data.phone)
    case Address => FieldError(data.address, "Address is required", true, "")
    case Suburb => FieldError(data.suburb, "Suburb is required", true, "")
    case Postcode => PostcodeError(data.postcode)
    case PreferredDate => FieldError(data.preferredDate, "Preferred date is required", true, "")
    case Notes => None
  }

  /** The messages of the fields that fail their rule. `notes` has no rule. */
  function FormErrors(data: FormData): (errors: map<FieldName, string>)
    ensures Notes !in errors
    ensures errors == map[] <==>
      data.firstName != "" && data.lastName != "" && data.address != "" && data.suburb != ""
      && data.preferredDate != "" && EmailSpec(data.email) && PostcodeError(data.postcode).None?
      && PhoneError(data.phone).None?
  {
    var errors := map f | f in AllFields && Rule(data, f).Some? :: Rule(data, f).value;
    NoErrorsIff(data, errors);
    errors
  }

  lemma NoErrorsIff(data: FormData, errors: map<FieldName, string>)
    requires errors == map f | f in AllFields && Rule(data, f).Some? :: Rule(data, f).value
    ensures errors == map[] <==> forall f :: f in AllFields ==> Rule(data, f).None?
  {
    if forall f :: f in AllFields ==> Rule(data, f).None? {
      assert errors.Keys == {};
    } else {
      var f :| f in AllFields && Rule(data, f).Some?;
      assert f in errors;
    }
  }
}
