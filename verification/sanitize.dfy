/** The backend's input checks: password strength, Indian mobile numbers, user ids,
    and the quote- and keyword-stripping SQL sanitiser. An argument that is missing
    or is not a string is `None`. */
module Sanitize {
  import opened Optional
  import opened Text
  import opened Lists

  // ---------------------------------------------------------------------------
  // Password strength

  /** One finding of the strength check, in the order the checks run. */
  datatype PasswordError =
    | Required | TooShort | TooLong | NoLowercase | NoUppercase | NoDigit | NoSpecial | TooCommon

  function Message(e: PasswordError): string {
    match e
    case Required => "Password is required"
    case TooShort => "Password must be at least 8 characters long"
    case TooLong => "Password must not exceed 128 characters"
    case NoLowercase => "Password must contain at least one lowercase letter"
    case NoUppercase => "Password must contain at least one uppercase letter"
    case NoDigit => "Password must contain at least one number"
    case NoSpecial => "Password must contain at least one special character"
    case TooCommon => "Password is too common, please choose a stronger password"
  }

  /** Position of each check in the sequence the source runs them. */
  function Rank(e: PasswordError): nat {
    match e
    case Required => 0
    case TooShort => 1
    case TooLong => 2
    case NoLowercase => 3
    case NoUppercase => 4
    case NoDigit => 5
    case NoSpecial => 6
    case TooCommon => 7
  }

  datatype PasswordCheck = PasswordCheck(isValid: bool, errors: seq<PasswordError>)

  const MinPasswordLength: nat := 8
  const MaxPasswordLength: nat := 128

  /** The special-character class `[!@#$%^&*(),.?":{}|<>]`. */
  predicate IsSpecial(c: char) {
    || c == '!' || c == '@' || c == '#' || c == '$' || c == '%' || c == '^' || c == '&'
    || c == '*' || c == '(' || c == ')' || c == ',' || c == '.' || c == '?' || c == '"'
    || c == ':' || c == '{' || c == '}' || c == '|' || c == '<' || c == '>'
  }

  predicate HasLower(s: string) { exists i :: 0 <= i < |s| && IsLowerAscii(s[i]) }
  predicate HasUpper(s: string) { exists i :: 0 <= i < |s| && IsUpperAscii(s[i]) }
  predicate HasDigit(s: string) { exists i :: 0 <= i < |s| && IsDigit(s[i]) }
  predicate HasSpecial(s: string) { exists i :: 0 <= i < |s| && IsSpecial(s[i]) }

  const CommonPasswords: seq<string> :=
    ["password", "Password123", "12345678", "qwerty123", "admin123", "Admin@123", "Welcome@123"]

  /** A present password that meets every rule. */
  predicate Strong(p: string) {
    && MinPasswordLength <= |p| <= MaxPasswordLength
    && HasLower(p) && HasUpper(p) && HasDigit(p) && HasSpecial(p)
    && p !in CommonPasswords
  }

  /** Whether a present password breaks the rule that reports `e`. */
  predicate Fails(p: string, e: PasswordError) {
    match e
    case Required => false
    case TooShort => |p| < MinPasswordLength
    case TooLong => |p| > MaxPasswordLength
    case NoLowercase => !HasLower(p)
    case NoUppercase => !HasUpper(p)
    case NoDigit => !HasDigit(p)
    case NoSpecial => !HasSpecial(p)
    case TooCommon => p in CommonPasswords
  }

  /** The rules after the presence check, in the order they run. */
  const Rules: seq<PasswordError> :=
    [TooShort, TooLong, NoLowercase, NoUppercase, NoDigit, NoSpecial, TooCommon]

  /** Each error at most once, in the order the checks run. */
  predicate Ranked(errors: seq<PasswordError>) {
    forall i, j :: 0 <= i < j < |errors| ==> Rank(errors[i]) < Rank(errors[j])
  }

  lemma RulesRanked()
    ensures Ranked(Rules)
    ensures forall e :: e in Rules <==> e != Required
  {
    assert forall i :: 0 <= i < |Rules| ==> Rank(Rules[i]) == i + 1;
  }

  /** The errors of the broken rules among `rules`, in the order of `rules`. */
  function Broken(p: string, rules: seq<PasswordError>): (r: seq<PasswordError>)
    ensures forall e :: e in r <==> e in rules && Fails(p, e)
    ensures Ranked(rules) ==> Ranked(r)
  {
    if rules == [] then []
    else
      var rest := Broken(p, rules[1..]);
      if Fails(p, rules[0]) then
        RankedCons(rules, rest);
        [rules[0]] + rest
      else rest
  }

  lemma RankedCons(rules: seq<PasswordError>, rest: seq<PasswordError>)
    requires rules != []
    requires Ranked(rules[1..]) ==> Ranked(rest)
    requires forall e :: e in rest ==> e in rules[1..]
    ensures Ranked(rules) ==> Ranked([rules[0]] + rest)
  {
    if Ranked(rules) {
      assert forall e :: e in rest ==> Rank(rules[0]) < Rank(e);
    }
  }

  /** `validatePassword`: a missing value reports only that it is required; otherwise
      every broken rule reports once, in the order the rules are checked. */
  function ValidatePassword(password: Option<string>): (r: PasswordCheck)
    ensures !TruthyString(password) ==> r == PasswordCheck(false, [Required])
    ensures r.isValid <==> r.errors == []
    ensures TruthyString(password) ==> forall e :: e in r.errors <==> Fails(password.value, e)
    ensures Ranked(r.errors)
  {
    if !TruthyString(password) then PasswordCheck(false, [Required])
    else
      var errors := Broken(password.value, Rules);
      RulesRanked();
      PasswordCheck(|errors| == 0, errors)
  }

  /** A present password is accepted exactly when it meets every rule. */
  lemma ValidIffStrong(password: Option<string>)
    ensures ValidatePassword(password).isValid <==> TruthyString(password) && Strong(password.value)
  {
    if TruthyString(password) {
      if ValidatePassword(password).isValid {
        AcceptedIsStrong(password);
      } else if Strong(password.value) {
        StrongIsAccepted(password);
      }
    }
  }

  lemma AcceptedIsStrong(password: Option<string>)
    requires TruthyString(password) && ValidatePassword(password).isValid
    ensures Strong(password.value)
  {
    var r := ValidatePassword(password);
    assert TooShort !in r.errors && TooLong !in r.errors && NoLowercase !in r.errors;
    assert NoUppercase !in r.errors && NoDigit !in r.errors && NoSpecial !in r.errors;
    assert TooCommon !in r.errors;
  }

  lemma StrongIsAccepted(password: Option<string>)
    requires TruthyString(password) && Strong(password.value)
    ensures ValidatePassword(password).isValid
  {
    var p := password.value;
    assert forall e :: !Fails(p, e);
    NothingBroken(p, Rules);
  }

  lemma {:induction false} NothingBroken(p: string, rules: seq<PasswordError>)
    requires forall e :: !Fails(p, e)
    ensures Broken(p, rules) == []
  {
    if rules != [] {
      NothingBroken(p, rules[1..]);
    }
  }

  /** The listed common passwords are refused, even those that satisfy every
      character-class rule. */
  lemma CommonPasswordsRejected(p: string)
    requires p in CommonPasswords
    ensures !ValidatePassword(Some(p)).isValid
    ensures TooCommon in ValidatePassword(Some(p)).errors
  {
    assert Fails(p, TooCommon);
  }

  // ---------------------------------------------------------------------------
  // Indian mobile numbers

  predicate IsMobileStart(c: char) {
    '6' <= c <= '9'
  }

  /** `replace(/\D/g, '')`: keeps the ASCII digits, in order. */
  function DigitsOnly(s: string): (r: string)
    ensures |r| <= |s| && AllDigits(r)
    ensures forall c :: c in r <==> c in s && IsDigit(c)
    ensures AllDigits(s) ==> r == s
  {
    if s == [] then []
    else (if IsDigit(s[0]) then [s[0]] else []) + DigitsOnly(s[1..])
  }

  /** Stripping non-digits is filtering: a subsequence of the input holding each digit
      as often as the input does and nothing else. */
  lemma {:induction false} DigitsOnlyIsFilter(s: string)
    ensures Subsequence(DigitsOnly(s), s)
    ensures forall c :: multiset(DigitsOnly(s))[c] == if IsDigit(c) then multiset(s)[c] else 0
  {
    if s != [] {
      var rest := DigitsOnly(s[1..]);
      DigitsOnlyIsFilter(s[1..]);
      assert s == [s[0]] + s[1..];
      assert multiset(s) == multiset{s[0]} + multiset(s[1..]);
      if IsDigit(s[0]) {
        assert DigitsOnly(s) == [s[0]] + rest;
        assert multiset(DigitsOnly(s)) == multiset{s[0]} + multiset(rest);
        SubsequenceCons(s[0], rest, s[1..]);
      } else {
        assert DigitsOnly(s) == rest;
        SubsequenceSkip(s[0], rest, s[1..]);
      }
    }
  }

  /** Removing the non-digits twice removes nothing more. */
  lemma DigitsOnlyIdempotent(s: string)
    ensures DigitsOnly(DigitsOnly(s)) == DigitsOnly(s)
  {
  }

  /** Ten digits, the first of them 6 to 9. */
  predicate TenDigitMobile(s: string) {
    |s| == 10 && AllDigits(s) && IsMobileStart(s[0])
  }

  /** The pattern `^(\+91)?[6-9]\d{9}$` as written. */
  predicate PhonePattern(s: string) {
    || TenDigitMobile(s)
    || (|s| == 13 && s[..3] == "+91" && TenDigitMobile(s[3..]))
  }

  /** `isValidPhone`: the pattern is matched against the digits only, so the optional
      `+91` group can never take part in a match. */
  function IsValidPhone(phone: Option<string>): (r: bool)
    ensures r <==> TruthyString(phone) && TenDigitMobile(DigitsOnly(phone.value))
  {
    var ok := TruthyString(phone) && PhonePattern(DigitsOnly(phone.value));
    assert TruthyString(phone) && |DigitsOnly(phone.value)| == 13 ==> DigitsOnly(phone.value)[0] != '+';
    ok
  }

  lemma {:induction false} DigitsOnlyAppend(a: string, b: string)
    ensures DigitsOnly(a + b) == DigitsOnly(a) + DigitsOnly(b)
  {
    if a != [] {
      var head := if IsDigit(a[0]) then [a[0]] else [];
      assert (a + b)[0] == a[0] && (a + b)[1..] == a[1..] + b;
      assert DigitsOnly(a + b) == head + DigitsOnly(a[1..] + b);
      DigitsOnlyAppend(a[1..], b);
      assert head + (DigitsOnly(a[1..]) + DigitsOnly(b)) == (head + DigitsOnly(a[1..])) + DigitsOnly(b);
    } else {
      assert a + b == b;
    }
  }

  /** A number written with its country code, as the comment on the pattern
      documents it, is refused: `+91` followed by any valid ten-digit mobile. */
  lemma CountryCodeRejected(m: string)
    requires TenDigitMobile(m)
    ensures DigitsOnly("+91" + m) == "91" + m
    ensures !IsValidPhone(Some("+91" + m))
  {
    DigitsOnlyAppend("+91", m);
    assert DigitsOnly("+91") == "91";
  }

  /** The check as evidently intended: ten digits starting 6 to 9, optionally led by
      the country code 91. */
  function IsValidPhoneWithCode(phone: Option<string>): (r: bool)
    ensures IsValidPhone(phone) ==> r
    ensures r && !IsValidPhone(phone) ==>
              && TruthyString(phone) && |DigitsOnly(phone.value)| == 12
              && DigitsOnly(phone.value)[..2] == "91" && TenDigitMobile(DigitsOnly(phone.value)[2..])
  {
    if !TruthyString(phone) then false
    else
      var d := DigitsOnly(phone.value);
      TenDigitMobile(d) || (|d| == 12 && d[..2] == "91" && TenDigitMobile(d[2..]))
  }

  /** The corrected check accepts the country-code form. */
  lemma CountryCodeAccepted(m: string)
    requires TenDigitMobile(m)
    ensures IsValidPhoneWithCode(Some("+91" + m))
  {
    CountryCodeRejected(m);
    var d := "91" + m;
    assert d[..2] == "91" && d[2..] == m;
  }

  // ---------------------------------------------------------------------------
  // User ids

  /** `[a-zA-Z0-9_-]`. */
  predicate IsIdChar(c: char) {
    IsLowerAscii(c) || IsUpperAscii(c) || IsDigit(c) || c == '_' || c == '-'
  }

  /** `isValidUserId`: the pattern `^[a-zA-Z0-9_-]{3,50}$`, matched by one scan. */
  method IsValidUserId(userId: Option<string>) returns (r: bool)
    ensures r <==> TruthyString(userId) && 3 <= |userId.value| <= 50
                   && forall i :: 0 <= i < |userId.value| ==> IsIdChar(userId.value[i])
  {
    if !TruthyString(userId) {
      return false;
    }
    var s := userId.value;
    if |s| < 3 || |s| > 50 {
      return false;
    }
    var i := 0;
    while i < |s|
      invariant 0 <= i <= |s|
      invariant forall k :: 0 <= k < i ==> IsIdChar(s[k])
    {
      if !IsIdChar(s[i]) {
        return false;
      }
      i := i + 1;
    }
    return true;
  }

  // ---------------------------------------------------------------------------
  // SQL stripping

  predicate IsSqlQuote(c: char) {
    c == '\'' || c == '"' || c == ';' || c == '\\'
  }

  /** `replace(/['";\\]/g, '')`. */
  function StripQuotes(s: string): (r: string)
    ensures forall c :: c in r <==> c in s && !IsSqlQuote(c)
    ensures (forall k :: 0 <= k < |s| ==> !IsSqlQuote(s[k])) ==> r == s
  {
    if s == [] then []
    else (if IsSqlQuote(s[0]) then [] else [s[0]]) + StripQuotes(s[1..])
  }

  /** `replace(/pat/g, '')` for a literal pattern: matches are removed left to right,
      without overlapping, each search resuming after the previous match. */
  function RemoveAll(s: string, pat: string): (r: string)
    requires |pat| > 0
    ensures |r| <= |s|
    ensures forall c :: c in r ==> c in s
    decreases |s|
  {
    if s == [] then []
    else if StartsWith(s, pat) then RemoveAll(s[|pat|..], pat)
    else [s[0]] + RemoveAll(s[1..], pat)
  }

  /** `[A-Za-z0-9_]`, the characters `\b` separates from the rest. */
  predicate IsWordChar(c: char) {
    IsLowerAscii(c) || IsUpperAscii(c) || IsDigit(c) || c == '_'
  }

  /** The lower-case keyword `w` occurs at `i` as a whole word, ignoring case. */
  predicate WordAt(s: string, w: string, i: nat) {
    && i + |w| <= |s|
    && Lower(s[i..i + |w|]) == w
    && (i == 0 || !IsWordChar(s[i - 1]))
    && (i + |w| == |s| || !IsWordChar(s[i + |w|]))
  }

  /** `replace(/\bW\b/gi, '')` from index `i` on: word boundaries are judged on the
      string being searched, not on what remains after earlier removals. */
  function RemoveWordFrom(s: string, w: string, i: nat): (r: string)
    requires |w| > 0 && i <= |s|
    ensures |r| <= |s| - i
    ensures forall c :: c in r ==> c in s[i..]
    decreases |s| - i
  {
    if i == |s| then []
    else if WordAt(s, w, i) then
      var r := RemoveWordFrom(s, w, i + |w|);
      assert forall c :: c in s[i + |w|..] ==> c in s[i..];
      r
    else
      var r := RemoveWordFrom(s, w, i + 1);
      assert forall c :: c in s[i + 1..] ==> c in s[i..];
      [s[i]] + r
  }

  function RemoveWord(s: string, w: string): (r: string)
    requires |w| > 0
    ensures forall c :: c in r ==> c in s
  {
    assert s[0..] == s;
    RemoveWordFrom(s, w, 0)
  }

  /** The passes of `sanitizeSQL` before the final trim. */
  function StripSql(s: string): (r: string)
    ensures forall c :: c in r ==> c in s && !IsSqlQuote(c)
  {
    var t := RemoveAll(RemoveAll(RemoveAll(StripQuotes(s), "--"), "/*"), "*/");
    RemoveWord(RemoveWord(RemoveWord(RemoveWord(RemoveWord(RemoveWord(
      t, "union"), "select"), "insert"), "update"), "delete"), "drop")
  }

  /** `sanitizeSQL`: a missing or empty value comes back as it was; otherwise the
      result keeps only characters of the input, contains none of `' " ; \`, and
      has no surrounding whitespace. */
  function SanitizeSql(input: Option<string>): (r: Option<string>)
    ensures !TruthyString(input) ==> r == input
    ensures TruthyString(input) ==> r.Some?
    ensures TruthyString(input) ==> forall c :: c in r.value ==> c in input.value && !IsSqlQuote(c)
    ensures TruthyString(input) ==> r.value == [] || (!IsSpace(r.value[0]) && !IsSpace(r.value[|r.value| - 1]))
  {
    if !TruthyString(input) then input
    else
      var t := StripSql(input.value);
      var r := Trim(t);
      TrimInside(t);
      Some(r)
  }

  /** What `Trim` keeps is part of its argument. */
  lemma TrimInside(s: string)
    ensures forall c :: c in Trim(s) ==> c in s
  {
    var k: nat :| OccursAt(s, Trim(s), k);
    forall c | c in Trim(s) ensures c in s {
      var j :| 0 <= j < |Trim(s)| && Trim(s)[j] == c;
      assert s[k + j] == c;
    }
  }

  /** A string without word characters holds no keyword. */
  lemma RemoveWordNoWords(s: string, w: string, i: nat)
    requires |w| > 0 && IsWordChar(w[0]) && i <= |s|
    requires forall k :: i <= k < |s| ==> !IsWordChar(s[k])
    ensures RemoveWordFrom(s, w, i) == s[i..]
    decreases |s| - i
  {
    if i < |s| {
      assert !WordAt(s, w, i);
      RemoveWordNoWords(s, w, i + 1);
    }
  }

  /** A pattern whose first character does not occur is never removed. */
  lemma {:induction false} RemoveAllAbsent(s: string, pat: string)
    requires |pat| > 0 && pat[0] !in s
    ensures RemoveAll(s, pat) == s
    decreases |s|
  {
    if s != [] {
      assert !StartsWith(s, pat) by {
        assert s[0] != pat[0];
      }
      assert s[0] in s;
      RemoveAllAbsent(s[1..], pat);
    }
  }

  // The passes run once each, so a marker split by another can come together: a
  // dash, the block-comment opener and a dash lose the opener only after the
  // line-comment pass has run, and come out as a line-comment marker.
  lemma CommentMarkerSurvives(s: string)
    requires s == "-/*-"
    ensures SanitizeSql(Some(s)) == Some("--")
  {
    var d := MarkerPasses(s);
    TrimKeepsDashes(d);
  }

  lemma TrimKeepsDashes(d: string)
    requires d == "--"
    ensures Trim(d) == d
  {
    assert TrimStart(d) == d && TrimEnd(d) == d;
  }

  /** The quote pass and the line-comment pass leave the example alone; the
      block-opener pass joins its dashes, and nothing later changes them. */
  lemma MarkerPasses(s: string) returns (d: string)
    requires s == "-/*-"
    ensures d == "--" && StripSql(s) == d
  {
    d := "--";
    assert StripQuotes(s) == s by {
      assert forall k :: 0 <= k < |s| ==> !IsSqlQuote(s[k]);
    }
    assert RemoveAll(s, "--") == s by {
      NoPairs(s, [('-', '-')]);
      RemoveAllNoPair(s, "--");
    }
    OpenerPassJoins(s);
    RemoveAllAbsent(d, "*/");
    NoWordsLeft(d);
  }

  /** A two-character pattern whose characters never meet in `s` is never removed. */
  lemma {:induction false} RemoveAllNoPair(s: string, pat: string)
    requires |pat| == 2 && NoPair(s, pat[0], pat[1])
    ensures RemoveAll(s, pat) == s
    decreases |s|
  {
    if s != [] {
      assert !StartsWith(s, pat) by {
        if |s| >= 2 {
          assert !(s[0] == pat[0] && s[1] == pat[1]);
          assert s[..2][0] == s[0] && s[..2][1] == s[1];
        }
      }
      assert NoPair(s[1..], pat[0], pat[1]) by {
        forall i | 0 <= i < |s[1..]| - 1
          ensures !(s[1..][i] == pat[0] && s[1..][i + 1] == pat[1])
        {
          assert s[1..][i] == s[i + 1] && s[1..][i + 1] == s[i + 2];
        }
      }
      RemoveAllNoPair(s[1..], pat);
      assert s == [s[0]] + s[1..];
    }
  }

  lemma OpenerPassJoins(s: string)
    requires s == "-/*-"
    ensures RemoveAll(s, "/*") == "--"
  {
    assert s[0] == '-' && s[1] == '/' && s[2] == '*' && s[3] == '-';
    assert !StartsWith(s, "/*");
    var t := s[1..];
    assert t[..2] == "/*";
    assert t[2..] == "-";
    RemoveAllAbsent("-", "/*");
  }

  /** Keyword passes do nothing to text without word characters. */
  lemma NoWordsLeft(t: string)
    requires forall k :: 0 <= k < |t| ==> !IsWordChar(t[k])
    ensures RemoveWord(RemoveWord(RemoveWord(RemoveWord(RemoveWord(RemoveWord(
              t, "union"), "select"), "insert"), "update"), "delete"), "drop") == t
  {
    RemoveWordNoWords(t, "union", 0);
    RemoveWordNoWords(t, "select", 0);
    RemoveWordNoWords(t, "insert", 0);
    RemoveWordNoWords(t, "update", 0);
    RemoveWordNoWords(t, "delete", 0);
    RemoveWordNoWords(t, "drop", 0);
  }

  /** Text made only of characters the passes never touch is just trimmed. */
  lemma SanitizePlainText(s: string)
    requires s != []
    requires forall k :: 0 <= k < |s| ==>
      !IsSqlQuote(s[k]) && !IsWordChar(s[k]) && s[k] != '-' && s[k] != '/' && s[k] != '*'
    ensures SanitizeSql(Some(s)) == Some(Trim(s))
  {
    assert StripQuotes(s) == s;
    RemoveAllAbsent(s, "--");
    RemoveAllAbsent(s, "/*");
    RemoveAllAbsent(s, "*/");
    RemoveWordNoWords(s, "union", 0);
    RemoveWordNoWords(s, "select", 0);
    RemoveWordNoWords(s, "insert", 0);
    RemoveWordNoWords(s, "update", 0);
    RemoveWordNoWords(s, "delete", 0);
    RemoveWordNoWords(s, "drop", 0);
    assert StripSql(s) == s;
  }
}
