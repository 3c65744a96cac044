/**
 * The local checks of the login page (src/app/login/page.js): the signup rules in
 * the order they are tried, the password rules shared with the password reset,
 * the e-mail pattern, the six-digit code pattern and the code input's sanitiser.
 */
module Validation {
  import opened Wrappers
  import opened Text
  import opened Seqs

  // ----- e-mail -----

  /** A character of the class `[^\s@]`. */
  predicate EmailChar(c: char) { !IsJsSpace(c) && c != '@' }

  predicate AllEmailChars(s: string)
  {
    forall k :: 0 <= k < |s| ==> EmailChar(s[k])
  }

  /**
   * `/^[^\s@]+@[^\s@]+\.[^\s@]+$/.test(s)`: `s` reads local "@" host "." suffix,
   * three non-empty runs of characters that are neither white space nor "@".
   */
  predicate IsValidEmail(s: string)
  {
    exists i, j | 0 <= i < |s| && 0 <= j < |s| :: EmailSplit(s, i, j)
  }

  /** Three non-empty runs of pattern characters always make a valid address. */
  lemma ValidEmailFromParts(local: string, host: string, suffix: string)
    requires local != [] && host != [] && suffix != []
    requires AllEmailChars(local) && AllEmailChars(host) && AllEmailChars(suffix)
    ensures IsValidEmail(local + "@" + host + "." + suffix)
  {
    var s := local + "@" + host + "." + suffix;
    var i, j := |local|, |local| + 1 + |host|;
    assert s[..i] == local;
    assert s[i + 1..j] == host;
    assert s[j + 1..] == suffix;
    assert s[i] == '@' && s[j] == '.';
    assert EmailSplit(s, i, j);
  }

  /** A run of pattern characters holds no "@". */
  lemma NoAtInEmailChars(t: string)
    requires AllEmailChars(t)
    ensures multiset(t)['@'] == 0
  {
    assert '@' !in t;
  }

  /** The split of a valid address at its "@" (index `i`) and its "." (index `j`). */
  predicate EmailSplit(s: string, i: int, j: int)
  {
    && 0 < i && i + 1 < j && j + 1 < |s| && s[i] == '@' && s[j] == '.'
    && AllEmailChars(s[..i]) && AllEmailChars(s[i + 1..j]) && AllEmailChars(s[j + 1..])
  }

  lemma EmailSplitNoSpace(s: string, i: int, j: int)
    requires EmailSplit(s, i, j)
    ensures forall k :: 0 <= k < |s| ==> !IsJsSpace(s[k])
  {
    forall k | 0 <= k < |s| ensures !IsJsSpace(s[k]) {
      if k < i { assert s[k] == s[..i][k]; }
      else if i < k < j { assert s[k] == s[i + 1..j][k - i - 1]; }
      else if j < k { assert s[k] == s[j + 1..][k - j - 1]; }
    }
  }

  lemma EmailSplitOneAt(s: string, i: int, j: int)
    requires EmailSplit(s, i, j)
    ensures multiset(s)['@'] == 1
  {
    var a, b, c := s[..i], s[i + 1..j], s[j + 1..];
    var tail := s[i + 1..];
    assert s == a + ['@'] + tail;
    assert tail == b + ['.'] + c;
    NoAtInEmailChars(a);
    NoAtInEmailChars(b);
    NoAtInEmailChars(c);
    assert multiset(tail)['@'] == 0;
  }

  /** A valid address holds exactly one "@", no white space, and a "." after the "@". */
  lemma ValidEmailShape(s: string)
    requires IsValidEmail(s)
    ensures forall k :: 0 <= k < |s| ==> !IsJsSpace(s[k])
    ensures multiset(s)['@'] == 1
    ensures exists i, j :: 0 < i < j < |s| - 1 && s[i] == '@' && s[j] == '.'
  {
    var i, j :| EmailSplit(s, i, j);
    EmailSplitNoSpace(s, i, j);
    EmailSplitOneAt(s, i, j);
  }

  /** An ordinary address passes the pattern. */
  lemma EmailExampleAccepted()
    ensures IsValidEmail("user@example.com")
  {
    ValidEmailFromParts("user", "example", "com");
    assert "user" + "@" + "example" + "." + "com" == "user@example.com";
  }

  /** An address with white space anywhere in it fails the pattern. */
  lemma EmailWithSpaceRefused(s: string, k: int)
    requires 0 <= k < |s| && IsJsSpace(s[k])
    ensures !IsValidEmail(s)
  {
    if IsValidEmail(s) {
      ValidEmailShape(s);
      assert false;
    }
  }

  /** An address with a second "@" fails the pattern. */
  lemma EmailWithTwoAtsRefused(s: string)
    requires multiset(s)['@'] >= 2
    ensures !IsValidEmail(s)
  {
    if IsValidEmail(s) {
      ValidEmailShape(s);
    }
  }

  /** Two malformed addresses the pattern refuses. */
  lemma MalformedEmailExamples()
    ensures !IsValidEmail("a b@c.d")
    ensures !IsValidEmail("a@b@c.d")
  {
    EmailWithSpaceRefused("a b@c.d", 1);
    var t := "a@b@c.d";
    assert t == ['a', '@'] + ['b', '@'] + "c.d";
    EmailWithTwoAtsRefused(t);
  }

  // ----- passwords -----

  /** `/[A-Z]/.test(s)`. */
  predicate HasUpper(s: string) { exists k :: 0 <= k < |s| && IsAsciiUpper(s[k]) }
  /** `/[a-z]/.test(s)`. */
  predicate HasLower(s: string) { exists k :: 0 <= k < |s| && IsAsciiLower(s[k]) }
  /** `/\d/.test(s)`. */
  predicate HasDigit(s: string) { exists k :: 0 <= k < |s| && IsAsciiDigit(s[k]) }

  /** The composition rule both the signup and the reset enforce. */
  predicate IsStrongComposition(pw: string)
  {
    HasUpper(pw) && HasLower(pw) && HasDigit(pw)
  }

  /** The password rules, shared by signup and password reset. */
  datatype PasswordRule = MinLength | Matches | Composition

  /** The position of each password rule in the order both forms try them. */
  function PasswordRank(p: PasswordRule): nat
  {
    match p
    case MinLength => 0
    case Matches => 1
    case Composition => 2
  }

  predicate PasswordHolds(p: PasswordRule, pw: string, retype: string)
  {
    match p
    case MinLength => JsLength(pw) >= 8
    case Matches => pw == retype
    case Composition => IsStrongComposition(pw)
  }

  /**
   * The password checks of the signup and the password reset: the first rule that
   * fails, in the order length, equality, composition; None when all pass.
   */
  function CheckNewPassword(pw: string, retype: string): (r: Option<PasswordRule>)
    ensures r.None? <==> forall p :: PasswordHolds(p, pw, retype)
    ensures r.Some? ==> !PasswordHolds(r.value, pw, retype)
    ensures r.Some? ==> forall q :: PasswordRank(q) < PasswordRank(r.value) ==> PasswordHolds(q, pw, retype)
  {
    if JsLength(pw) < 8 then
      assert !PasswordHolds(MinLength, pw, retype);
      Some(MinLength)
    else if pw != retype then
      assert !PasswordHolds(Matches, pw, retype);
      Some(Matches)
    else if !IsStrongComposition(pw) then
      assert !PasswordHolds(Composition, pw, retype);
      Some(Composition)
    else None
  }

  function PasswordRuleMessage(p: PasswordRule): string
  {
    match p
    case MinLength => "Password must be at least 8 characters"
    case Matches => "Passwords do not match"
    case Composition => "Password must contain uppercase, lowercase, and numbers"
  }

  // ----- signup -----

  datatype SignupForm = SignupForm(name: string, email: string, password: string, retype: string)

  datatype SignupRule = NameLength | EmailShape | Password(rule: PasswordRule)

  /** The position of each signup rule in the order the signup form tries them. */
  function SignupRank(r: SignupRule): nat
  {
    match r
    case NameLength => 0
    case EmailShape => 1
    case Password(p) => 2 + PasswordRank(p)
  }

  predicate SignupHolds(r: SignupRule, f: SignupForm)
  {
    match r
    case NameLength => JsLength(Trim(f.name)) >= 2
    case EmailShape => IsValidEmail(f.email)
    case Password(p) => PasswordHolds(p, f.password, f.retype)
  }

  /**
   * The signup form's validation: the first rule that fails, in the order trimmed
   * name length, e-mail pattern, password length, equality, composition; None when
   * the form may be sent.
   */
  function CheckSignup(f: SignupForm): (r: Option<SignupRule>)
    ensures r.None? <==> forall q :: SignupHolds(q, f)
    ensures r.Some? ==> !SignupHolds(r.value, f)
    ensures r.Some? ==> forall q :: SignupRank(q) < SignupRank(r.value) ==> SignupHolds(q, f)
  {
    if JsLength(Trim(f.name)) < 2 then
      assert !SignupHolds(NameLength, f);
      Some(NameLength)
    else if !IsValidEmail(f.email) then
      assert !SignupHolds(EmailShape, f);
      Some(EmailShape)
    else
      match CheckNewPassword(f.password, f.retype)
      case Some(p) =>
        assert !SignupHolds(Password(p), f);
        Some(Password(p))
      case None =>
        assert forall q :: SignupHolds(q, f) by {
          forall q ensures SignupHolds(q, f) {
            if q.Password? { assert PasswordHolds(q.rule, f.password, f.retype); }
          }
        }
        None
  }

  function SignupRuleMessage(r: SignupRule): string
  {
    match r
    case NameLength => "Name must be at least 2 characters"
    case EmailShape => "Valid email is required"
    case Password(p) => PasswordRuleMessage(p)
  }

  /** A name of white space only trims to nothing, so it is refused before anything else is looked at. */
  lemma BlankNameRefusedFirst(f: SignupForm)
    requires AllSpace(f.name)
    ensures CheckSignup(f) == Some(NameLength)
  {
    TrimEmptyIffBlank(f.name);
  }

  /** Once name and e-mail pass, signup and reset judge the password identically. */
  lemma SignupPasswordAsReset(f: SignupForm)
    requires JsLength(Trim(f.name)) >= 2 && IsValidEmail(f.email)
    ensures CheckSignup(f).None? <==> CheckNewPassword(f.password, f.retype).None?
    ensures CheckNewPassword(f.password, f.retype).Some? ==>
              CheckSignup(f) == Some(Password(CheckNewPassword(f.password, f.retype).value))
  {
  }

  // ----- one-time codes -----

  /** `/^\d{6}$/.test(s)`. */
  predicate IsSixDigitCode(s: string)
  {
    |s| == 6 && AllDigits(s)
  }

  /** What the code inputs can hold: ASCII digits, at most six of them. */
  predicate IsSanitizedCode(s: string)
  {
    |s| <= 6 && AllDigits(s)
  }

  /** The digits of `s`, in order: `s.replace(/\D/g, '')`. */
  function DigitsOf(s: string): string
  {
    Filter(s, IsAsciiDigit)
  }

  /** The code inputs' change handler: `value.replace(/\D/g, '').slice(0, 6)`. */
  function SanitizeCode(raw: string): (r: string)
    ensures IsSanitizedCode(r)
    ensures |r| == if |DigitsOf(raw)| <= 6 then |DigitsOf(raw)| else 6
    ensures r == DigitsOf(raw)[..|r|]
  {
    var d := DigitsOf(raw);
    if |d| <= 6 then d else d[..6]
  }

  /** Sanitising an already sanitised value changes nothing, so the sanitiser is idempotent. */
  lemma SanitizeFixedPoints(s: string)
    ensures SanitizeCode(s) == s <==> IsSanitizedCode(s)
    ensures SanitizeCode(SanitizeCode(s)) == SanitizeCode(s)
  {
    if IsSanitizedCode(s) {
      FilterAll(s, IsAsciiDigit);
    }
    FilterAll(SanitizeCode(s), IsAsciiDigit);
  }

  /** The sanitised input is a complete code exactly when the typed text held six digits or more. */
  lemma SanitizedCodeComplete(raw: string)
    ensures IsSixDigitCode(SanitizeCode(raw)) <==> |DigitsOf(raw)| >= 6
  {
  }

  /** The examples of the code pattern: six digits pass; five, seven or a letter fail. */
  lemma SixDigitExamples()
    ensures IsSixDigitCode("123456") && IsSixDigitCode("000000")
    ensures !IsSixDigitCode("12345") && !IsSixDigitCode("1234567") && !IsSixDigitCode("12a456")
  {
    assert !IsAsciiDigit("12a456"[2]);
  }
}
