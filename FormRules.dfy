/**
 * Validation rules that the login and registration forms share, in the order
 * react-hook-form applies them to one field: `required` (only the empty string
 * fails it), then `minLength`, then `pattern`, then the `validate` functions.
 * A rule's result is None when the field is valid and Some(message) otherwise.
 */
module FormRules {
  import opened Common
  import opened Strings

  const EmailRequired := "Email is required"
  const EmailInvalid := "Invalid email address"
  const PasswordRequired := "Password is required"
  const PasswordTooShort := "Password must be at least 8 characters long"
  const MinPasswordLength := 8

  // ---------------------------------------------------------------- the email pattern

  /** `[A-Z0-9._%+-]` under the case-insensitive flag. */
  predicate IsLocalChar(c: char) {
    IsLetter(c) || IsDigit(c) || c == '.' || c == '_' || c == '%' || c == '+' || c == '-'
  }

  /** `[A-Z0-9.-]` under the case-insensitive flag. */
  predicate IsDomainChar(c: char) {
    IsLetter(c) || IsDigit(c) || c == '.' || c == '-'
  }

  predicate AllLocal(s: string) {
    forall i :: 0 <= i < |s| ==> IsLocalChar(s[i])
  }

  predicate AllDomain(s: string) {
    forall i :: 0 <= i < |s| ==> IsDomainChar(s[i])
  }

  /** `[A-Z]{2,}` under the case-insensitive flag. */
  predicate IsTopLevelDomain(s: string) {
    |s| >= 2 && forall i :: 0 <= i < |s| ==> IsLetter(s[i])
  }

  /** One way to match `^[A-Z0-9._%+-]+@[A-Z0-9.-]+\.[A-Z]{2,}$`: the '@' at `at`, the
      '.' before the top-level domain at `dot`. */
  predicate EmailSplit(s: string, at: int, dot: int) {
    && 0 < at && at + 1 < dot && dot < |s|
    && AllLocal(s[..at]) && s[at] == '@'
    && AllDomain(s[at + 1..dot]) && s[dot] == '.'
    && IsTopLevelDomain(s[dot + 1..])
  }

  /** The pattern matches when some split does. */
  ghost predicate MatchesEmailPattern(s: string) {
    exists at, dot :: EmailSplit(s, at, dot)
  }

  /** The first index of c in s, or -1. */
  function FirstIndexOf(s: string, c: char): (i: int)
    ensures -1 <= i < |s|
    ensures i >= 0 ==> s[i] == c
    ensures forall k :: 0 <= k < |s| && (i == -1 || k < i) ==> s[k] != c
  {
    if s == [] then -1
    else if s[0] == c then 0
    else
      var j := FirstIndexOf(s[1..], c);
      if j == -1 then -1 else j + 1
  }

  /** The last index of c in s, or -1. */
  function LastIndexOf(s: string, c: char): (i: int)
    ensures -1 <= i < |s|
    ensures i >= 0 ==> s[i] == c
    ensures forall k :: i < k < |s| ==> s[k] != c
  {
    if s == [] then -1
    else if s[|s| - 1] == c then |s| - 1
    else LastIndexOf(s[..|s| - 1], c)
  }

  /** A direct check: the local part ends at the first '@', and the top-level domain starts
      after the last '.', since neither of those characters can occur where they would clash. */
  function IsEmail(s: string): bool {
    var at := FirstIndexOf(s, '@');
    var dot := LastIndexOf(s, '.');
    0 < at && at + 1 < dot && AllLocal(s[..at]) && AllDomain(s[at + 1..dot])
    && IsTopLevelDomain(s[dot + 1..])
  }

  /** The direct check accepts exactly the strings the pattern matches. */
  lemma IsEmailIffMatchesPattern(s: string)
    ensures IsEmail(s) <==> MatchesEmailPattern(s)
  {
    var at := FirstIndexOf(s, '@');
    var dot := LastIndexOf(s, '.');
    if IsEmail(s) {
      assert EmailSplit(s, at, dot);
    }
    if MatchesEmailPattern(s) {
      var at', dot' :| EmailSplit(s, at', dot');
      assert at == at' by {
        assert forall k :: 0 <= k < at' ==> s[..at'][k] == s[k];
      }
      assert dot == dot' by {
        forall k | dot' < k < |s|
          ensures s[k] != '.'
        {
          assert s[dot' + 1..][k - dot' - 1] == s[k];
        }
      }
      assert s[..at] == s[..at'];
    }
  }

  /** The email rule of both forms. */
  function EmailError(s: string): (r: Option<string>)
    ensures r.None? <==> MatchesEmailPattern(s)
    ensures s == "" ==> r == Some(EmailRequired)
  {
    IsEmailIffMatchesPattern(s);
    if s == "" then Some(EmailRequired)
    else if !IsEmail(s) then Some(EmailInvalid)
    else None
  }

  /** The password's `required` and `minLength: 8` rules, which both forms apply first. */
  function PasswordLengthError(s: string): (r: Option<string>)
    ensures r.None? <==> |s| >= MinPasswordLength
    ensures r.Some? ==> r.value == PasswordRequired || r.value == PasswordTooShort
  {
    if s == "" then Some(PasswordRequired)
    else if |s| < MinPasswordLength then Some(PasswordTooShort)
    else None
  }
}
