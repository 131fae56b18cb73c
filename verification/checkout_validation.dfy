/** `validateShippingInfo` and `validatePaymentInfo`: total functions from
    a checkout form to a field-keyed error map. */
module CheckoutValidation {
  import opened Text
  import opened Patterns
  import opened Forms
  import opened Wrappers
  import CardFormat

  /** The shipping form read by the validator (the checkout's own shape,
      with `address` and `zipCode`). */
  datatype ShippingInfo = ShippingInfo(
    firstName: string,
    lastName: string,
    email: string,
    address: string,
    city: string,
    state: string,
    zipCode: string,
    country: string)

  datatype PaymentInfo = PaymentInfo(
    cardNumber: string,
    expiryDate: string,
    cvv: string,
    cardholderName: string)

  const ShippingFields: set<Field> :=
    {FirstName, LastName, Email, Address, City, State, ZipCode}

  const PaymentFields: set<Field> :=
    {CardNumber, ExpiryDate, Cvv, CardholderName}

  // ---------------------------------------------------------------------
  // Shipping

  /** Whether the shipping form passes, stated with the regular
      expressions' own languages: every required field has a
      non-whitespace character, the email contains a match of
      `\S+@\S+\.\S+`, and the ZIP code matches `^\d{5}(-\d{4})?$` as typed. */
  ghost predicate ShippingInfoValid(info: ShippingInfo) {
    && !IsBlank(info.firstName)
    && !IsBlank(info.lastName)
    && EmailPatternMatches(info.email)
    && !IsBlank(info.address)
    && !IsBlank(info.city)
    && !IsBlank(info.state)
    && ZipPattern(info.zipCode)
  }

  /** The message one `if` of `validateShippingInfo` stores under `key`,
      if any. Each `if` writes its own key, so they do not interact. */
  function ShippingFieldError(info: ShippingInfo, key: Field): Option<string> {
    match key
    case FirstName => RequiredError(info.firstName, "First name is required")
    case LastName => RequiredError(info.lastName, "Last name is required")
    case Email =>
      PatternError(info.email, ContainsEmailShape(info.email), "Email is required", "Email is invalid")
    case Address => RequiredError(info.address, "Address is required")
    case City => RequiredError(info.city, "City is required")
    case State => RequiredError(info.state, "State is required")
    case ZipCode =>
      PatternError(info.zipCode, ZipPattern(info.zipCode), "ZIP code is required", "Invalid ZIP code format")
    case _ => None
  }

  /** The message under `key` for a shipping form, stated with the
      regular expressions' languages and whitespace-only blanks. */
  ghost function ShippingFieldSpec(info: ShippingInfo, key: Field): Option<string> {
    match key
    case FirstName => if IsBlank(info.firstName) then Some("First name is required") else None
    case LastName => if IsBlank(info.lastName) then Some("Last name is required") else None
    case Email =>
      if !EmailPatternMatches(info.email) then
        Some(if IsBlank(info.email) then "Email is required" else "Email is invalid")
      else None
    case Address => if IsBlank(info.address) then Some("Address is required") else None
    case City => if IsBlank(info.city) then Some("City is required") else None
    case State => if IsBlank(info.state) then Some("State is required") else None
    case ZipCode =>
      if !ZipPattern(info.zipCode) then
        Some(if IsBlank(info.zipCode) then "ZIP code is required" else "Invalid ZIP code format")
      else None
    case _ => None
  }

  lemma ShippingFieldMeetsSpec(info: ShippingInfo, key: Field)
    ensures ShippingFieldError(info, key) == ShippingFieldSpec(info, key)
  {
    match key
    case Email => EmailShapeIsPatternMatch(info.email);
    case ZipCode =>
      if ZipPattern(info.zipCode) {
        assert !IsWhitespace(info.zipCode[0]);
      }
    case _ =>
  }

  lemma ShippingFieldsMeetSpec(info: ShippingInfo)
    ensures forall key :: ShippingFieldError(info, key) == ShippingFieldSpec(info, key)
  {
    forall key ensures ShippingFieldError(info, key) == ShippingFieldSpec(info, key) {
      ShippingFieldMeetsSpec(info, key);
    }
  }

  /** Each field of the form has an error exactly when the reference
      definition gives it one, and then carries that message. */
  function ValidateShippingInfo(info: ShippingInfo): (errors: Errors)
    ensures errors.Keys <= ShippingFields
    ensures forall key :: key in errors <==> ShippingFieldSpec(info, key).Some?
    ensures forall key | key in errors :: errors[key] == ShippingFieldSpec(info, key).value
  {
    ShippingFieldsMeetSpec(info);
    map key | key in ShippingFields && ShippingFieldError(info, key).Some? ::
      ShippingFieldError(info, key).value
  }

  /** A valid form gets no errors. */
  lemma ValidShippingHasNoErrors(info: ShippingInfo)
    requires ShippingInfoValid(info)
    ensures ValidateShippingInfo(info) == map[]
  {
    var errors := ValidateShippingInfo(info);
    assert forall key :: ShippingFieldSpec(info, key).None?;
    assert errors.Keys == {};
  }

  /** No errors means a valid form. */
  lemma NoErrorsMeansValidShipping(info: ShippingInfo)
    requires ValidateShippingInfo(info) == map[]
    ensures ShippingInfoValid(info)
  {
    var errors := ValidateShippingInfo(info);
    assert FirstName !in errors && LastName !in errors && Email !in errors;
    assert Address !in errors && City !in errors && State !in errors && ZipCode !in errors;
  }

  /** The validator returns an empty map exactly for valid forms. */
  lemma ShippingAcceptsExactlyValid(info: ShippingInfo)
    ensures ValidateShippingInfo(info) == map[] <==> ShippingInfoValid(info)
  {
    if ShippingInfoValid(info) {
      ValidShippingHasNoErrors(info);
    }
    if ValidateShippingInfo(info) == map[] {
      NoErrorsMeansValidShipping(info);
    }
  }

  /** The country is never checked. */
  lemma ShippingIgnoresCountry(info: ShippingInfo, country: string)
    ensures ValidateShippingInfo(info.(country := country)) == ValidateShippingInfo(info)
  {
    var other := info.(country := country);
    forall key ensures ShippingFieldError(other, key) == ShippingFieldError(info, key) {
    }
  }

  /** A bad email and a one-digit ZIP code, with every other field
      filled in, give exactly those two errors. */
  lemma ShippingReportsOnlyBadFields(info: ShippingInfo)
    requires info.email == "bad" && info.zipCode == "1"
    requires !IsBlank(info.firstName) && !IsBlank(info.lastName) && !IsBlank(info.address)
    requires !IsBlank(info.city) && !IsBlank(info.state)
    ensures ValidateShippingInfo(info) ==
      map[Email := "Email is invalid", ZipCode := "Invalid ZIP code format"]
  {
    EmailShapeIsPatternMatch("bad");
    assert !ContainsEmailShape("bad");
    assert !IsBlank("bad") by {
      assert !IsWhitespace("bad"[0]);
    }
    assert !IsBlank("1") by {
      assert !IsWhitespace("1"[0]);
    }
  }

  // ---------------------------------------------------------------------
  // Payment

  /** The card number, with all whitespace removed, is exactly sixteen
      ASCII digits. */
  ghost predicate CardNumberAccepted(cardNumber: string) {
    var digits := StripWhitespace(cardNumber);
    |digits| == 16 && AllDigits(digits)
  }

  /** Whether the payment form passes: a sixteen-digit card number, an
      `MM/YY` expiry with month 1 to 12, a CVV of three or four digits
      and a cardholder name with a non-whitespace character. */
  ghost predicate PaymentInfoValid(info: PaymentInfo) {
    && CardNumberAccepted(info.cardNumber)
    && IsMonthSlashYear(info.expiryDate)
    && CvvPattern(info.cvv)
    && !IsBlank(info.cardholderName)
  }

  /** The message one `if` of `validatePaymentInfo` stores under `key`,
      if any. The card number is tested with all whitespace removed. */
  function PaymentFieldError(info: PaymentInfo, key: Field): Option<string> {
    match key
    case CardNumber =>
      PatternError(info.cardNumber, CardPattern(StripWhitespace(info.cardNumber)),
        "Card number is required", "Invalid card number format")
    case ExpiryDate =>
      PatternError(info.expiryDate, ExpiryPattern(info.expiryDate),
        "Expiry date is required", "Invalid expiry date format (MM/YY)")
    case Cvv => PatternError(info.cvv, CvvPattern(info.cvv), "CVV is required", "Invalid CVV format")
    case CardholderName => RequiredError(info.cardholderName, "Cardholder name is required")
    case _ => None
  }

  /** The message under `key` for a payment form, stated with the
      accepted card numbers, `MM/YY` as numbers and whitespace-only blanks. */
  ghost function PaymentFieldSpec(info: PaymentInfo, key: Field): Option<string> {
    match key
    case CardNumber =>
      if !CardNumberAccepted(info.cardNumber) then
        Some(if IsBlank(info.cardNumber) then "Card number is required" else "Invalid card number format")
      else None
    case ExpiryDate =>
      if !IsMonthSlashYear(info.expiryDate) then
        Some(if IsBlank(info.expiryDate) then "Expiry date is required" else "Invalid expiry date format (MM/YY)")
      else None
    case Cvv =>
      if !CvvPattern(info.cvv) then
        Some(if IsBlank(info.cvv) then "CVV is required" else "Invalid CVV format")
      else None
    case CardholderName =>
      if IsBlank(info.cardholderName) then Some("Cardholder name is required") else None
    case _ => None
  }

  lemma PaymentFieldMeetsSpec(info: PaymentInfo, key: Field)
    ensures PaymentFieldError(info, key) == PaymentFieldSpec(info, key)
  {
    match key
    case CardNumber => CardPatternAfterStrip(info.cardNumber);
    case ExpiryDate =>
      ExpiryIsMonthSlashYear(info.expiryDate);
      if ExpiryPattern(info.expiryDate) {
        assert !IsWhitespace(info.expiryDate[0]);
      }
    case Cvv =>
      if CvvPattern(info.cvv) {
        assert !IsWhitespace(info.cvv[0]);
      }
    case _ =>
  }

  lemma PaymentFieldsMeetSpec(info: PaymentInfo)
    ensures forall key :: PaymentFieldError(info, key) == PaymentFieldSpec(info, key)
  {
    forall key ensures PaymentFieldError(info, key) == PaymentFieldSpec(info, key) {
      PaymentFieldMeetsSpec(info, key);
    }
  }

  /** Each field of the form has an error exactly when the reference
      definition gives it one, and then carries that message. */
  function ValidatePaymentInfo(info: PaymentInfo): (errors: Errors)
    ensures errors.Keys <= PaymentFields
    ensures forall key :: key in errors <==> PaymentFieldSpec(info, key).Some?
    ensures forall key | key in errors :: errors[key] == PaymentFieldSpec(info, key).value
  {
    PaymentFieldsMeetSpec(info);
    map key | key in PaymentFields && PaymentFieldError(info, key).Some? ::
      PaymentFieldError(info, key).value
  }

  /** A valid form gets no errors. */
  lemma ValidPaymentHasNoErrors(info: PaymentInfo)
    requires PaymentInfoValid(info)
    ensures ValidatePaymentInfo(info) == map[]
  {
    var errors := ValidatePaymentInfo(info);
    assert forall key :: PaymentFieldSpec(info, key).None?;
    assert errors.Keys == {};
  }

  /** No errors means a valid form. */
  lemma NoErrorsMeansValidPayment(info: PaymentInfo)
    requires ValidatePaymentInfo(info) == map[]
    ensures PaymentInfoValid(info)
  {
    var errors := ValidatePaymentInfo(info);
    assert CardNumber !in errors && ExpiryDate !in errors;
    assert Cvv !in errors && CardholderName !in errors;
  }

  /** The validator returns an empty map exactly for valid forms. */
  lemma PaymentAcceptsExactlyValid(info: PaymentInfo)
    ensures ValidatePaymentInfo(info) == map[] <==> PaymentInfoValid(info)
  {
    if PaymentInfoValid(info) {
      ValidPaymentHasNoErrors(info);
    }
    if ValidatePaymentInfo(info) == map[] {
      NoErrorsMeansValidPayment(info);
    }
  }

  /** A card number typed through the field's formatter is accepted
      exactly when at least sixteen digits were typed. */
  lemma FormattedCardAccepted(typed: string)
    ensures CardNumberAccepted(CardFormat.FormatCardNumber(typed))
        <==> |KeepDigits(typed)| >= 16
  {
    CardFormat.FormatKeepsDigits(typed);
  }

}
