/** The frontend's shared form validators: e-mail shape, Indian mobile numbers,
    password length, password confirmation, and required fields. */
module Validation {
  import opened Optional
  import opened Text
  import Sanitize
  import Lists

  // ---------------------------------------------------------------------------
  // E-mail

  /** A run of the class `[^\s@]`. */
  predicate NoSpaceOrAt(s: string) {
    forall k :: 0 <= k < |s| ==> !IsSpace(s[k]) && s[k] != '@'
  }

  /** The pattern `^[^\s@]+@[^\s@]+\.[^\s@]+$` as written: some split of the string
      into a local part, `@`, a domain part, `.`, and a final part, all non-empty. */
  predicate EmailPattern(s: string) {
    exists i, j :: 0 < i && i + 1 < j < |s| - 1 && s[i] == '@' && s[j] == '.'
                   && NoSpaceOrAt(s[..i]) && NoSpaceOrAt(s[i + 1..j]) && NoSpaceOrAt(s[j + 1..])
  }

  /** `validateEmail`: no whitespace, exactly one `@`, not at the start, and a dot
      somewhere after the character following the `@` but before the last
      character. */
  function ValidateEmail(email: string): (r: bool)
    ensures r <==>
              (&& NoSpace(email) && multiset(email)['@'] == 1
               && exists i, j :: 0 < i && i + 1 < j < |email| - 1 && email[i] == '@' && email[j] == '.')
    ensures r ==> |email| >= 5
  {
    EmailPatternIff(email);
    EmailPattern(email)
  }

  lemma EmailPatternIff(email: string)
    ensures EmailPattern(email) <==>
              (&& NoSpace(email) && multiset(email)['@'] == 1
               && exists i, j :: 0 < i && i + 1 < j < |email| - 1 && email[i] == '@' && email[j] == '.')
  {
    if EmailPattern(email) {
      var i, j :| 0 < i && i + 1 < j < |email| - 1 && email[i] == '@' && email[j] == '.'
                  && NoSpaceOrAt(email[..i]) && NoSpaceOrAt(email[i + 1..j]) && NoSpaceOrAt(email[j + 1..]);
      PatternShape(email, i, j);
    } else if NoSpace(email) && multiset(email)['@'] == 1 {
      ShapePattern(email);
    }
  }

  lemma PatternShape(s: string, i: nat, j: nat)
    requires 0 < i && i + 1 < j < |s| - 1 && s[i] == '@' && s[j] == '.'
    requires NoSpaceOrAt(s[..i]) && NoSpaceOrAt(s[i + 1..j]) && NoSpaceOrAt(s[j + 1..])
    ensures NoSpace(s) && multiset(s)['@'] == 1
  {
    forall k | 0 <= k < |s| && k != i ensures !IsSpace(s[k]) && s[k] != '@' {
      if k < i { assert s[..i][k] == s[k]; }
      else if k < j { assert s[i + 1..j][k - i - 1] == s[k]; }
      else if k > j { assert s[j + 1..][k - j - 1] == s[k]; }
    }
    assert s == s[..i] + [s[i]] + s[i + 1..];
    NoneCounted(s[..i], '@');
    NoneCounted(s[i + 1..], '@');
  }

  lemma ShapePattern(s: string)
    requires NoSpace(s) && multiset(s)['@'] == 1
    ensures forall i, j :: 0 < i && i + 1 < j < |s| - 1 && s[i] == '@' && s[j] == '.' ==>
              NoSpaceOrAt(s[..i]) && NoSpaceOrAt(s[i + 1..j]) && NoSpaceOrAt(s[j + 1..])
  {
    forall i, j | 0 < i && i + 1 < j < |s| - 1 && s[i] == '@' && s[j] == '.'
      ensures NoSpaceOrAt(s[..i]) && NoSpaceOrAt(s[i + 1..j]) && NoSpaceOrAt(s[j + 1..])
    {
      OnlyOccurrence(s, '@', i);
    }
  }

  /** A character absent from `s` is counted zero times. */
  lemma NoneCounted(s: string, c: char)
    requires forall k :: 0 <= k < |s| ==> s[k] != c
    ensures multiset(s)[c] == 0
  {
    assert c !in s;
  }

  /** A character counted once occurs nowhere but at its one index. */
  lemma OnlyOccurrence(s: string, c: char, i: nat)
    requires i < |s| && s[i] == c && multiset(s)[c] == 1
    ensures forall k :: 0 <= k < |s| && k != i ==> s[k] != c
  {
    forall k | 0 <= k < |s| && k != i && s[k] == c ensures false {
      if k < i { Lists.TwiceCounted(s, c, k, i); } else { Lists.TwiceCounted(s, c, i, k); }
    }
  }

  // ---------------------------------------------------------------------------
  // Mobile numbers

  /** `replace(/\s|-/g, '')`: drops whitespace and hyphens, keeping the rest in order. */
  function StripSeparators(s: string): (r: string)
    ensures |r| <= |s|
    ensures forall c :: c in r <==> c in s && !IsSpace(c) && c != '-'
  {
    if s == [] then []
    else (if IsSpace(s[0]) || s[0] == '-' then [] else [s[0]]) + StripSeparators(s[1..])
  }

  /** `validatePhone`: ten digits starting 6 to 9 once spaces and hyphens are gone. */
  function ValidatePhone(phone: string): (r: bool)
    ensures r ==> forall c :: c in phone ==> IsDigit(c) || IsSpace(c) || c == '-'
  {
    PhoneCharacters(phone);
    Sanitize.TenDigitMobile(StripSeparators(phone))
  }

  lemma PhoneCharacters(phone: string)
    ensures Sanitize.TenDigitMobile(StripSeparators(phone)) ==>
              forall c :: c in phone ==> IsDigit(c) || IsSpace(c) || c == '-'
  {
    var s := StripSeparators(phone);
    if Sanitize.TenDigitMobile(s) {
      forall c | c in phone ensures IsDigit(c) || IsSpace(c) || c == '-' {
        if !IsSpace(c) && c != '-' {
          var k :| 0 <= k < 10 && s[k] == c;
        }
      }
    }
  }

  /** Once only digits remain after dropping separators, dropping every non-digit
      gives the same string. */
  lemma {:induction false} StripSeparatorsDigits(s: string)
    requires AllDigits(StripSeparators(s))
    ensures Sanitize.DigitsOnly(s) == StripSeparators(s)
  {
    if s != [] {
      var head := if IsSpace(s[0]) || s[0] == '-' then [] else [s[0]];
      assert StripSeparators(s) == head + StripSeparators(s[1..]);
      assert AllDigits(StripSeparators(s[1..])) by {
        forall k | 0 <= k < |StripSeparators(s[1..])|
          ensures IsDigit(StripSeparators(s[1..])[k])
        {
          assert StripSeparators(s)[|head| + k] == StripSeparators(s[1..])[k];
        }
      }
      if head != [] {
        assert StripSeparators(s)[0] == s[0];
      }
      StripSeparatorsDigits(s[1..]);
    }
  }

  /** Every number the form accepts is accepted by the server as well. */
  lemma PhoneAcceptedByServer(phone: string)
    requires ValidatePhone(phone)
    ensures Sanitize.IsValidPhone(Some(phone))
  {
    StripSeparatorsDigits(phone);
  }

  /** The server is more lenient: it drops every non-digit, so a bracket before a
      valid number passes there but not in the form. */
  lemma ServerMoreLenient(m: string)
    requires Sanitize.TenDigitMobile(m)
    ensures Sanitize.IsValidPhone(Some("(" + m))
    ensures !ValidatePhone("(" + m)
  {
    ServerIgnoresPrefix("(", m);
    FormRejectsBracket("(" + m);
  }

  /** Any prefix without digits is invisible to the server's check. */
  lemma ServerIgnoresPrefix(p: string, m: string)
    requires forall k :: 0 <= k < |p| ==> !IsDigit(p[k])
    requires Sanitize.TenDigitMobile(m)
    ensures Sanitize.IsValidPhone(Some(p + m))
  {
    Sanitize.DigitsOnlyAppend(p, m);
    NoDigitsKept(p);
  }

  lemma {:induction false} NoDigitsKept(p: string)
    requires forall k :: 0 <= k < |p| ==> !IsDigit(p[k])
    ensures Sanitize.DigitsOnly(p) == []
  {
    if p != [] {
      NoDigitsKept(p[1..]);
    }
  }

  /** The form refuses any number holding a bracket. */
  lemma FormRejectsBracket(s: string)
    requires s != [] && s[0] == '('
    ensures !ValidatePhone(s)
  {
    assert '(' in s;
  }

  // ---------------------------------------------------------------------------
  // Passwords and required fields

  datatype PasswordResult = PasswordResult(isValid: bool, error: Option<string>)

  const DefaultMinLength: int := 8
  const PasswordRequired: string := "Password is required"

  function TooShortMessage(minLength: int): string {
    "Password must be at least " + IntToString(minLength) + " characters"
  }

  /** `validatePassword(password, minLength = 8)`: valid exactly when present and at
      least `minLength` long; an invalid result names the first problem. */
  function ValidatePassword(password: string, minLength: int): (r: PasswordResult)
    ensures r.isValid <==> password != "" && |password| >= minLength
    ensures r.isValid <==> r.error == None
    ensures password == "" ==> r.error == Some(PasswordRequired)
    ensures password != "" && |password| < minLength ==> r.error == Some(TooShortMessage(minLength))
  {
    if password == "" then PasswordResult(false, Some(PasswordRequired))
    else if |password| < minLength then PasswordResult(false, Some(TooShortMessage(minLength)))
    else PasswordResult(true, None)
  }

  /** A password valid for some minimum is valid for every smaller minimum. */
  lemma PasswordMinimumMonotone(password: string, m: int, n: int)
    requires n <= m && ValidatePassword(password, m).isValid
    ensures ValidatePassword(password, n).isValid
  {
  }

  /** `validatePasswordsMatch`: string equality. */
  function ValidatePasswordsMatch(password1: string, password2: string): (r: bool)
    ensures r <==> |password1| == |password2| && forall k :: 0 <= k < |password1| ==> password1[k] == password2[k]
  {
    password1 == password2
  }

  /** `validateRequired`: something other than whitespace was entered. */
  function ValidateRequired(value: string): (r: bool)
    ensures r <==> exists k :: 0 <= k < |value| && !IsSpace(value[k])
  {
    TrimEmptyIffAllSpace(value);
    |Trim(value)| > 0
  }
}
