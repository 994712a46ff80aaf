/**
 * The registration form's field rules. `new Date(value)` is the parameter `parseDate`
 * (None for an Invalid Date, whose comparisons are all false); "now" is an Instant in
 * the local (UTC) time zone.
 */
module RegisterForm {
  import opened Common
  import opened Strings
  import opened Dates
  import opened FormRules

  const NameRequired := "Name is required"
  const NameInvalid := "Name must contain only letters and be at least 2 characters"
  const DobRequired := "Date of Birth is required"
  const DobInFuture := "Date of Birth cannot be in the future"
  const TooYoung := "You must be at least 13 years old"
  const ContactRequired := "Contact Number is required"
  const PhoneInvalid := "Invalid phone number format"
  const PasswordWeak := "Password must include uppercase, lowercase, number, and special character"
  const MinimumAge := 13

  datatype Registration = Registration(
    name: string, dob: string, contactNo: string, emailId: string, password: string)

  // ---------------------------------------------------------------- name

  /** `^[A-Za-z\s]{2,}$` */
  predicate IsName(s: string) {
    |s| >= 2 && forall i :: 0 <= i < |s| ==> IsLetter(s[i]) || IsSpace(s[i])
  }

  function NameError(s: string): (r: Option<string>)
    ensures r.None? <==> IsName(s)
    ensures s == "" ==> r == Some(NameRequired)
  {
    if s == "" then Some(NameRequired)
    else if !IsName(s) then Some(NameInvalid)
    else None
  }

  /** The name pattern admits whitespace alone: any two or more whitespace characters pass
      as a name, while a lone one is rejected for being too short. */
  lemma BlankNameIsAccepted(s: string)
    requires IsBlank(s) && s != ""
    ensures NameError(s) == None <==> |s| >= 2
    ensures |s| == 1 ==> NameError(s) == Some(NameInvalid)
  {
    BlankIffAllSpace(s);
  }

  // ---------------------------------------------------------------- contact number

  /** `^\+?[1-9]\d{1,14}$`: an optional '+', then 2 to 15 digits of which the first is not 0. */
  predicate IsPhoneNumber(s: string) {
    var digits := if |s| > 0 && s[0] == '+' then s[1..] else s;
    2 <= |digits| <= 15 && digits[0] != '0' && AllDigits(digits)
  }

  function ContactError(s: string): (r: Option<string>)
    ensures r.None? <==> IsPhoneNumber(s)
    ensures s == "" ==> r == Some(ContactRequired)
  {
    if s == "" then Some(ContactRequired)
    else if !IsPhoneNumber(s) then Some(PhoneInvalid)
    else None
  }

  /** A leading '+' is optional: it changes nothing for a string that does not start with one. */
  lemma PlusIsOptional(s: string)
    requires |s| > 0 && s[0] != '+'
    ensures IsPhoneNumber("+" + s) <==> IsPhoneNumber(s)
  {
    assert ("+" + s)[1..] == s;
  }

  /** A number has 2 to 15 decimal digits exactly when it lies in [10, 10^15). */
  lemma TwoToFifteenDigits(n: nat)
    ensures 2 <= |NatToString(n)| <= 15 <==> 10 <= n < Pow10(15)
  {
    NatToStringLength(n, 1);
    NatToStringLength(n, 15);
    assert Pow10(1) == 10;
  }

  /** Digits with no leading zero form a phone number exactly when there are 2 to 15 of them. */
  lemma DigitStringIsPhoneNumber(d: string)
    requires IsDigitString(d) && (|d| >= 2 ==> d[0] != '0')
    ensures IsPhoneNumber(d) <==> 2 <= |d| <= 15
  {
    assert IsDigit(d[0]);
  }

  /** The decimal rendering of a number is a phone number exactly when it has 2 to 15 digits. */
  lemma DigitsOfNatArePhoneNumber(n: nat)
    ensures IsPhoneNumber(NatToString(n)) <==> 10 <= n < Pow10(15)
  {
    TwoToFifteenDigits(n);
    NatToStringNoLeadingZero(n);
    DigitStringIsPhoneNumber(NatToString(n));
  }

  /** The decimal rendering of a number, with or without '+', is accepted exactly for
      the numbers of 2 to 15 digits. */
  lemma PhoneNumberOfNat(n: nat)
    ensures IsPhoneNumber(NatToString(n)) <==> 10 <= n < Pow10(15)
    ensures IsPhoneNumber("+" + NatToString(n)) <==> 10 <= n < Pow10(15)
  {
    DigitsOfNatArePhoneNumber(n);
    PlusIsOptional(NatToString(n));
  }

  // ---------------------------------------------------------------- password

  predicate IsPasswordSpecial(c: char) {
    c == '@' || c == '$' || c == '!' || c == '%' || c == '*' || c == '?' || c == '&'
  }

  /** `^(?=.*[a-z])(?=.*[A-Z])(?=.*\d)(?=.*[@$!%*?&])[A-Za-z\d@$!%*?&]{8,}$` */
  predicate IsStrongPassword(s: string) {
    && |s| >= MinPasswordLength
    && (forall i :: 0 <= i < |s| ==> IsLetter(s[i]) || IsDigit(s[i]) || IsPasswordSpecial(s[i]))
    && (exists i :: 0 <= i < |s| && IsLower(s[i]))
    && (exists i :: 0 <= i < |s| && IsUpper(s[i]))
    && (exists i :: 0 <= i < |s| && IsDigit(s[i]))
    && (exists i :: 0 <= i < |s| && IsPasswordSpecial(s[i]))
  }

  /** `required`, then `minLength: 8`, then the strength pattern. */
  function PasswordError(s: string): (r: Option<string>)
    ensures r.None? <==> IsStrongPassword(s)
    ensures |s| < MinPasswordLength ==> r == PasswordLengthError(s)
  {
    if PasswordLengthError(s).Some? then PasswordLengthError(s)
    else if !IsStrongPassword(s) then Some(PasswordWeak)
    else None
  }

  /** A password long enough but lacking any one of the four required classes gets the
      strength message. */
  lemma MissingClassIsWeak(s: string)
    requires |s| >= MinPasswordLength
    requires || (forall i :: 0 <= i < |s| ==> !IsLower(s[i]))
             || (forall i :: 0 <= i < |s| ==> !IsUpper(s[i]))
             || (forall i :: 0 <= i < |s| ==> !IsDigit(s[i]))
             || (forall i :: 0 <= i < |s| ==> !IsPasswordSpecial(s[i]))
    ensures PasswordError(s) == Some(PasswordWeak)
  {
  }

  /** Example: "Passw0rd!" is strong and "password" is not. */
  lemma StrongPasswordExample()
    ensures IsStrongPassword("Passw0rd!")
    ensures !IsStrongPassword("password")
  {
    var p := "Passw0rd!";
    assert IsUpper(p[0]) && IsLower(p[1]) && IsDigit(p[5]) && IsPasswordSpecial(p[8]);
    var q := "password";
    assert forall i :: 0 <= i < |q| ==> !IsUpper(q[i]);
  }

  // ---------------------------------------------------------------- date of birth

  /** `oldEnough` as written: `new Date(value) <= minAgeDate`, where minAgeDate is now moved back
      13 years with `setFullYear` (29 February rolls over to 1 March in a common year). */
  predicate OldEnoughAsWritten(birth: Date, now: Instant) {
    MidnightOnOrBefore(birth, Instant(ShiftYearsJs(now.date, -MinimumAge), now.millis))
  }

  /** `oldEnough` as evidently intended: the 13th birthday has come. */
  predicate OldEnough(birth: Date, today: Date) {
    OnOrBefore(Anniversary(birth, MinimumAge), today)
  }

  /** The corrected rule accepts exactly the people whose age is at least 13. */
  lemma OldEnoughIffAge(birth: Date, today: Date)
    ensures OldEnough(birth, today) <==> AgeOn(birth, today) >= MinimumAge
  {
    AtLeastAgeIffAnniversaryReached(birth, today, MinimumAge);
  }

  /** On any day but 29 February the rule as written agrees with the corrected one. */
  lemma OldEnoughAsWrittenAgreesOffLeapDay(birth: Date, now: Instant)
    requires !(now.date.month == 2 && now.date.day == 29)
    ensures OldEnoughAsWritten(birth, now) <==> OldEnough(birth, now.date)
  {
    assert ShiftYearsJs(now.date, -MinimumAge) == Anniversary(now.date, -MinimumAge);
  }

  /** On 29 February 2028 the rule as written accepts someone born on 1 March 2015, who is 12. */
  lemma OldEnoughAsWrittenAcceptsTwelveYearOld()
    ensures var birth, now := Date(2015, 3, 1), Instant(Date(2028, 2, 29), 0);
      OldEnoughAsWritten(birth, now) && !OldEnough(birth, now.date) && AgeOn(birth, now.date) == 12
  {
    assert !IsLeapYear(2015);
    assert ShiftYearsJs(Date(2028, 2, 29), -MinimumAge) == Date(2015, 3, 1);
  }

  /** `required`, then `validDate` (strictly before now), then `oldEnough` (corrected). An
      unparsable date fails `validDate`, since comparisons with NaN are false. */
  function DobError(dob: string, parseDate: string -> Option<Date>, now: Instant): (r: Option<string>)
    ensures r.None? <==>
              dob != "" && parseDate(dob).Some? && MidnightBefore(parseDate(dob).value, now)
              && AgeOn(parseDate(dob).value, now.date) >= MinimumAge
    ensures dob != "" && parseDate(dob).None? ==> r == Some(DobInFuture)
  {
    if dob == "" then Some(DobRequired)
    else match parseDate(dob)
      case None => Some(DobInFuture)
      case Some(birth) =>
        OldEnoughIffAge(birth, now.date);
        if !MidnightBefore(birth, now) then Some(DobInFuture)
        else if !OldEnough(birth, now.date) then Some(TooYoung)
        else None
  }

  // ---------------------------------------------------------------- the whole form

  /** The form submits only when every field passes its rules. */
  predicate IsValidRegistration(r: Registration, parseDate: string -> Option<Date>, now: Instant) {
    && NameError(r.name).None?
    && DobError(r.dob, parseDate, now).None?
    && ContactError(r.contactNo).None?
    && EmailError(r.emailId).None?
    && PasswordError(r.password).None?
  }

  /** Every field of a registration that the form lets through is non-empty. */
  lemma ValidRegistrationHasAllFields(r: Registration, parseDate: string -> Option<Date>, now: Instant)
    requires IsValidRegistration(r, parseDate, now)
    ensures r.name != "" && r.dob != "" && r.contactNo != "" && r.emailId != "" && r.password != ""
  {
    assert |r.name| >= 2;
    assert |r.password| >= MinPasswordLength;
    assert NameError(r.name) != Some(NameRequired);
    assert ContactError(r.contactNo) != Some(ContactRequired);
    assert EmailError(r.emailId) != Some(EmailRequired);
  }
}
