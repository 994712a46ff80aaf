/**
 * The add/edit policy dialog: the form it keeps as text, the age it derives from the
 * date of birth, the validation that decides whether the form may be submitted, and
 * the prefill that reads a displayed table row back into form text.
 *
 * `new Date(dob)` is a parameter (`parseDate`): None stands for an Invalid Date.
 * "Today" is the calendar date of `new Date()` in the local (UTC) time zone.
 */
module PolicyDialog {
  import opened Common
  import opened Strings
  import opened Dates
  import opened PolicyTable

  /** The form state: every field holds the text of its input. */
  datatype FormData = FormData(
    dob: string, gender: string, sumAssured: string, modalPremium: string,
    premiumFrequency: string, pt: string, ppt: string)

  /** One message per field; "" means no error. */
  datatype FormErrors = FormErrors(
    dob: string, age: string, gender: string, sumAssured: string, modalPremium: string,
    premiumFrequency: string, pt: string, ppt: string)

  const EmptyForm := FormData("", "", "", "", "", "", "")
  const NoErrors := FormErrors("", "", "", "", "", "", "", "")

  const MinAge := 23
  const MaxAge := 56
  const MinPremium := 10000
  const MaxPremium := 50000
  const PremiumMultiple := 10
  const MinSumAssured := 5000000
  const MinPpt := 5
  const MaxPpt := 10
  const MinPt := 10
  const MaxPt := 20

  const DobRequired := "Date of Birth is required"
  const AgeOutOfRange := "Age must be between 23 and 56"
  const GenderRequired := "Gender is required"
  const PremiumRequired := "Modal Premium is required"
  const PremiumNotNumber := "Modal Premium must be a valid number"
  const PremiumOutOfRange := "Modal Premium must be between 10,000 and 50,000"
  const SumAssuredRequired := "Sum Assured is required"
  const SumAssuredNotNumber := "Sum Assured must be a valid number"
  const FrequencyRequired := "Premium Frequency is required"
  const PptRequired := "Premium Paying Term is required"
  const PptNotNumber := "Premium Paying Term must be a valid number"
  const PptOutOfRange := "Premium Paying Term must be between 5 and 10"
  const PtRequired := "Policy Term is required"
  const PtNotNumber := "Policy Term must be a valid number"
  const PtOutOfRange := "Policy Term must be between 10 and 20"
  const PtNotAfterPpt := "Policy Term must be greater than Premium Paying Term"

  /** `Sum Assured must be at least ${min.toLocaleString()}` */
  function SumAssuredTooSmall(min: nat): string {
    "Sum Assured must be at least " + GroupThousands(NatToString(min))
  }

  function Max(a: int, b: int): (m: int)
    ensures m >= a && m >= b && (m == a || m == b)
  {
    if a >= b then a else b
  }

  // ---------------------------------------------------------------- age

  /** `calculateAge`: an empty date gives 0, an unparsable one NaN (None); otherwise the year
      difference, less one while this year's birthday is still ahead. */
  method CalculateAge(dob: string, parseDate: string -> Option<Date>, today: Date) returns (age: Option<int>)
    ensures dob == "" ==> age == Some(0)
    ensures dob != "" && parseDate(dob).None? ==> age.None?
    ensures dob != "" && parseDate(dob).Some? ==> age == Some(AgeOn(parseDate(dob).value, today))
  {
    if dob == "" {
      return Some(0);
    }
    var birth := parseDate(dob);
    if birth.None? {
      return None;
    }
    var years := today.year - birth.value.year;
    var monthDiff := today.month - birth.value.month;
    if monthDiff < 0 || (monthDiff == 0 && today.day < birth.value.day) {
      years := years - 1;
    }
    age := Some(years);
  }

  // ---------------------------------------------------------------- validation rules

  /** What the dialog accepts, stated on numbers: a date of birth whose age is 23 to 56 (an
      unparsable date is not rejected), a gender and a frequency, a premium of 10,000 to 50,000,
      a sum assured of at least ten premiums and at least 5,000,000, a premium paying term of
      5 to 10 years and a policy term of 10 to 20 years that is longer than it. */
  predicate Accepted(f: FormData, parseDate: string -> Option<Date>, today: Date) {
    && f.dob != ""
    && (parseDate(f.dob).Some? ==> MinAge <= AgeOn(parseDate(f.dob).value, today) <= MaxAge)
    && f.gender != ""
    && f.premiumFrequency != ""
    && NumbersAccepted(f)
  }

  /** The rules on the four numeric fields, stated on their values. */
  predicate NumbersAccepted(f: FormData) {
    && NumberInRange(f.modalPremium, MinPremium, MaxPremium)
    && SumAssuredAccepted(f.sumAssured, f.modalPremium)
    && NumberInRange(f.ppt, MinPpt, MaxPpt)
    && PtAccepted(f.pt, f.ppt)
  }

  /** A string of digits whose value lies in [lo, hi]. */
  predicate NumberInRange(s: string, lo: int, hi: int) {
    IsDigitString(s) && lo <= DecimalValue(s) <= hi
  }

  /** A sum assured of at least ten premiums and at least 5,000,000. */
  predicate SumAssuredAccepted(sum: string, premium: string)
    requires IsDigitString(premium)
  {
    IsDigitString(sum) && DecimalValue(sum) >= PremiumMultiple * DecimalValue(premium)
    && DecimalValue(sum) >= MinSumAssured
  }

  /** A policy term of 10 to 20 years that is longer than the premium paying term. */
  predicate PtAccepted(pt: string, ppt: string)
    requires IsDigitString(ppt)
  {
    IsDigitString(pt) && MinPt <= DecimalValue(pt) <= MaxPt && DecimalValue(pt) > DecimalValue(ppt)
  }

  /** A numeric field's first failing check: blank, then not all digits, then out of range. */
  function NumberFieldError(s: string, lo: int, hi: int, required: string, notNumber: string, outOfRange: string): string
  {
    if IsBlank(s) then required
    else if !IsDigitString(s) then notNumber
    else
      var n := ParseIntOrZero(s);
      if n < lo || n > hi then outOfRange else ""
  }

  /** A numeric field is clear exactly when it holds digits whose value lies in [lo, hi]. */
  lemma NumberFieldErrorMeaning(s: string, lo: int, hi: int, required: string, notNumber: string, outOfRange: string)
    requires required != "" && notNumber != "" && outOfRange != ""
    ensures NumberFieldError(s, lo, hi, required, notNumber, outOfRange) == "" <==> NumberInRange(s, lo, hi)
    ensures IsBlank(s) ==> NumberFieldError(s, lo, hi, required, notNumber, outOfRange) == required
  {
    if IsDigitString(s) {
      DigitStringNotBlank(s);
      ParseIntOfDigits(s);
    }
  }

  /** The sum assured rule; the premium is read with `parseInt(...) || 0`. */
  function SumAssuredError(sum: string, premium: string): string {
    if IsBlank(sum) then SumAssuredRequired
    else if !IsDigitString(sum) then SumAssuredNotNumber
    else
      var minSum := Max(ParseIntOrZero(premium) * PremiumMultiple, MinSumAssured);
      if ParseIntOrZero(sum) < minSum then SumAssuredTooSmall(minSum) else ""
  }

  /** With a numeric premium, the sum assured is clear exactly when it is a number of at least
      ten premiums and at least 5,000,000; a blank one is reported as required. */
  lemma SumAssuredErrorMeaning(sum: string, premium: string)
    ensures IsBlank(sum) ==> SumAssuredError(sum, premium) == SumAssuredRequired
    ensures IsDigitString(premium) ==> (SumAssuredError(sum, premium) == "" <==> SumAssuredAccepted(sum, premium))
  {
    if IsDigitString(sum) {
      DigitStringNotBlank(sum);
      ParseIntOfDigits(sum);
      if IsDigitString(premium) {
        ParseIntOfDigits(premium);
      }
    }
  }

  /** The policy term rule; the premium paying term is read with `parseInt(...) || 0`. */
  function PtError(pt: string, ppt: string): string {
    if IsBlank(pt) then PtRequired
    else if !IsDigitString(pt) then PtNotNumber
    else
      var term := ParseIntOrZero(pt);
      if term < MinPt || term > MaxPt then PtOutOfRange
      else if term <= ParseIntOrZero(ppt) then PtNotAfterPpt
      else ""
  }

  /** With a numeric premium paying term, the policy term is clear exactly when it is a number
      from 10 to 20 that exceeds it; the range is checked before the comparison. */
  lemma PtErrorMeaning(pt: string, ppt: string)
    ensures IsBlank(pt) ==> PtError(pt, ppt) == PtRequired
    ensures IsDigitString(ppt) ==> (PtError(pt, ppt) == "" <==> PtAccepted(pt, ppt))
    ensures IsDigitString(pt) && !(MinPt <= DecimalValue(pt) <= MaxPt) ==> PtError(pt, ppt) == PtOutOfRange
  {
    if IsDigitString(pt) {
      DigitStringNotBlank(pt);
      ParseIntOfDigits(pt);
      if IsDigitString(ppt) {
        ParseIntOfDigits(ppt);
      }
    }
  }

  /** The age rule: only checked for a non-empty date; an unparsable date (NaN) passes. */
  function AgeError(dob: string, parseDate: string -> Option<Date>, today: Date): (e: string)
    ensures e == "" <==> dob == "" || parseDate(dob).None?
                         || MinAge <= AgeOn(parseDate(dob).value, today) <= MaxAge
  {
    if dob != "" && parseDate(dob).Some? then
      var age := AgeOn(parseDate(dob).value, today);
      if age < MinAge || age > MaxAge then AgeOutOfRange else ""
    else ""
  }

  /** The messages `validateForm` stores, field by field. */
  function ErrorsOf(f: FormData, parseDate: string -> Option<Date>, today: Date): FormErrors {
    FormErrors(
      if f.dob == "" then DobRequired else "",
      AgeError(f.dob, parseDate, today),
      if f.gender == "" then GenderRequired else "",
      SumAssuredError(f.sumAssured, f.modalPremium),
      NumberFieldError(f.modalPremium, MinPremium, MaxPremium, PremiumRequired, PremiumNotNumber, PremiumOutOfRange),
      if f.premiumFrequency == "" then FrequencyRequired else "",
      PtError(f.pt, f.ppt),
      NumberFieldError(f.ppt, MinPpt, MaxPpt, PptRequired, PptNotNumber, PptOutOfRange))
  }

  /** The form shows no message exactly when it is accepted. */
  lemma NoErrorsIffAccepted(f: FormData, parseDate: string -> Option<Date>, today: Date)
    ensures ErrorsOf(f, parseDate, today) == NoErrors <==> Accepted(f, parseDate, today)
  {
    NumericFieldsClearIffAccepted(f);
  }

  /** The four numeric fields show no message exactly when their values meet the rules. */
  lemma NumericFieldsClearIffAccepted(f: FormData)
    ensures && NumberFieldError(f.modalPremium, MinPremium, MaxPremium, PremiumRequired, PremiumNotNumber, PremiumOutOfRange) == ""
            && SumAssuredError(f.sumAssured, f.modalPremium) == ""
            && NumberFieldError(f.ppt, MinPpt, MaxPpt, PptRequired, PptNotNumber, PptOutOfRange) == ""
            && PtError(f.pt, f.ppt) == ""
            <==> NumbersAccepted(f)
  {
    NumberFieldErrorMeaning(f.modalPremium, MinPremium, MaxPremium, PremiumRequired, PremiumNotNumber, PremiumOutOfRange);
    NumberFieldErrorMeaning(f.ppt, MinPpt, MaxPpt, PptRequired, PptNotNumber, PptOutOfRange);
    SumAssuredErrorMeaning(f.sumAssured, f.modalPremium);
    PtErrorMeaning(f.pt, f.ppt);
  }

  /** `validateForm`: every rule is checked (none stops the others); the result is true
      exactly when no rule failed, that is, when the form is accepted. */
  method ValidateForm(f: FormData, parseDate: string -> Option<Date>, today: Date)
    returns (errors: FormErrors, isValid: bool)
    ensures errors == ErrorsOf(f, parseDate, today)
    ensures isValid <==> errors == NoErrors
    ensures isValid <==> Accepted(f, parseDate, today)
  {
    // One local per property of the `newErrors` object, which starts empty.
    var dob, age, gender, sumAssured, modalPremium, premiumFrequency, pt, ppt := "", "", "", "", "", "", "", "";
    isValid := true;

    if f.dob == "" {
      dob := DobRequired;
      isValid := false;
    } else {
      var years := CalculateAge(f.dob, parseDate, today);
      if years.Some? && (years.value < MinAge || years.value > MaxAge) {
        age := AgeOutOfRange;
        isValid := false;
      }
    }

    if f.gender == "" {
      gender := GenderRequired;
      isValid := false;
    }

    var premiumError := NumberFieldError(f.modalPremium, MinPremium, MaxPremium,
                                         PremiumRequired, PremiumNotNumber, PremiumOutOfRange);
    if premiumError != "" {
      modalPremium := premiumError;
      isValid := false;
    }

    var sumError := SumAssuredError(f.sumAssured, f.modalPremium);
    if sumError != "" {
      sumAssured := sumError;
      isValid := false;
    }

    if f.premiumFrequency == "" {
      premiumFrequency := FrequencyRequired;
      isValid := false;
    }

    var pptError := NumberFieldError(f.ppt, MinPpt, MaxPpt, PptRequired, PptNotNumber, PptOutOfRange);
    if pptError != "" {
      ppt := pptError;
      isValid := false;
    }

    var ptError := PtError(f.pt, f.ppt);
    if ptError != "" {
      pt := ptError;
      isValid := false;
    }

    errors := FormErrors(dob, age, gender, sumAssured, modalPremium, premiumFrequency, pt, ppt);
    NoErrorsIffAccepted(f, parseDate, today);
  }

  /** An age outside 23 to 56 is reported on the age field only; the date field stays clear. */
  lemma AgeErrorLeavesDobClear(f: FormData, parseDate: string -> Option<Date>, today: Date)
    requires f.dob != "" && parseDate(f.dob).Some?
    requires !(MinAge <= AgeOn(parseDate(f.dob).value, today) <= MaxAge)
    ensures ErrorsOf(f, parseDate, today).age == AgeOutOfRange
    ensures ErrorsOf(f, parseDate, today).dob == ""
  {
  }

  // ---------------------------------------------------------------- prefill from a table row

  /** The edit prefill of an amount as written: `.replace("$", "").replace(",", "")`,
      which removes only the FIRST comma. */
  function StripAmountAsWritten(s: string): string {
    ReplaceFirst(ReplaceFirst(s, "$", ""), ",", "")
  }

  /** The prefill of an amount as evidently intended: the currency sign and every comma go. */
  function StripAmount(s: string): (r: string)
    ensures forall i :: 0 <= i < |r| ==> r[i] != ','
  {
    RemoveAll(ReplaceFirst(s, "$", ""), ',')
  }

  /** `.replace(" years", "")` */
  function StripYears(s: string): string {
    ReplaceFirst(s, YearsSuffix, "")
  }

  /** The form for a row; without a row every field is empty. With a row the text fields are
      copied, the amounts lose their currency sign and every comma, and the terms lose " years". */
  function PrefillForm(row: Option<DisplayRow>): (f: FormData)
    ensures row.None? ==> f == EmptyForm
    ensures row.Some? ==> f.dob == row.value.dob && f.gender == row.value.gender
                          && f.premiumFrequency == row.value.premiumFrequency
    ensures row.Some? ==> f.sumAssured == StripAmount(row.value.sumAssured)
                          && f.modalPremium == StripAmount(row.value.modalPremium)
                          && f.pt == StripYears(row.value.pt) && f.ppt == StripYears(row.value.ppt)
    ensures row.Some? ==> ',' !in f.sumAssured && ',' !in f.modalPremium
  {
    match row
    case None => EmptyForm
    case Some(r) =>
      FormData(r.dob, r.gender, StripAmount(r.sumAssured), StripAmount(r.modalPremium),
               r.premiumFrequency, StripYears(r.pt), StripYears(r.ppt))
  }

  lemma DropCurrencySign(n: nat)
    ensures ReplaceFirst(FormatAmount(n), "$", "") == GroupThousands(NatToString(n))
  {
    var g := GroupThousands(NatToString(n));
    ReplaceFirstAfter([], "$", g, "");
    assert [] + "$" + g == FormatAmount(n);
    assert [] + "" + g == g;
  }

  /** Every displayed amount reads back as its digits. */
  lemma AmountRoundTrip(n: nat)
    ensures StripAmount(FormatAmount(n)) == NatToString(n)
  {
    DropCurrencySign(n);
    UngroupThousands(NatToString(n));
  }

  /** Every displayed term reads back as its digits. */
  lemma YearsRoundTrip(n: nat)
    ensures StripYears(FormatYears(n)) == NatToString(n)
  {
    var d := NatToString(n);
    forall k | 0 <= k < |d|
      ensures d[k] != YearsSuffix[0]
    {
      assert IsDigit(d[k]);
    }
    ReplaceFirstAfter(d, YearsSuffix, [], "");
    assert d + YearsSuffix + [] == FormatYears(n);
    assert d + "" + [] == d;
  }

  /** Editing a displayed policy starts from the policy's own numbers. */
  lemma PrefillOfFormattedPolicy(p: PolicySlice.Policy)
    ensures PrefillForm(Some(FormatPolicy(p))) ==
      FormData(p.dob, p.gender, NatToString(p.sumAssured), NatToString(p.modalPremium),
               p.premiumFrequency, NatToString(p.pt), NatToString(p.ppt))
  {
    AmountRoundTrip(p.sumAssured);
    AmountRoundTrip(p.modalPremium);
    YearsRoundTrip(p.pt);
    YearsRoundTrip(p.ppt);
  }

  /** Below one million the display has at most one comma, which the prefill as written removes. */
  lemma StripAmountAsWrittenBelowMillion(n: nat)
    requires n < 1000000
    ensures StripAmountAsWritten(FormatAmount(n)) == NatToString(n)
  {
    DropCurrencySign(n);
    NatToStringLength(n, 6);
    assert Pow10(6) == 1000000;
    UngroupUpToSixDigits(NatToString(n));
  }

  /** The amount prefill as written reads a displayed amount back only below one million:
      from 1,000,000 on the display has two commas and one survives. */
  lemma StripAmountAsWrittenRoundTripIff(n: nat)
    ensures StripAmountAsWritten(FormatAmount(n)) == NatToString(n) <==> n < 1000000
  {
    if n < 1000000 {
      StripAmountAsWrittenBelowMillion(n);
    } else {
      StripAmountAsWrittenKeepsComma(n);
      assert IsDigitString(NatToString(n));
    }
  }

  /** From 1,000,000 on, the prefill as written leaves a comma in the amount. */
  lemma StripAmountAsWrittenKeepsComma(n: nat)
    requires n >= 1000000
    ensures ',' in StripAmountAsWritten(FormatAmount(n))
  {
    var d := NatToString(n);
    var g := GroupThousands(d);
    DropCurrencySign(n);
    NatToStringLength(n, 6);
    assert Pow10(6) == 1000000;
    GroupedCommaCount(d);
    ReplaceFirstRemovesOne(g, ',');
    var r := ReplaceFirst(g, ",", "");
    assert Count(r, ',') >= 1;
    CountZeroIffAbsent(r, ',');
  }

  /** Every amount of at least 1,000,000, and so every sum assured the dialog accepts, is
      prefilled as written into text the dialog rejects as not a number. */
  lemma AsWrittenPrefillRejectsLargeAmounts(n: nat, premium: string)
    requires n >= 1000000
    ensures SumAssuredError(StripAmountAsWritten(FormatAmount(n)), premium) == SumAssuredNotNumber
  {
    StripAmountAsWrittenKeepsComma(n);
    CommaIsNotNumber(StripAmountAsWritten(FormatAmount(n)));
  }
}
