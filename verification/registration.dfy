/** The sign-up form: its four inputs, `handleChange`, `validateForm` and
    the guard in `handleSubmit` in front of the registration request. */
module Registration {
  import opened Wrappers
  import opened Text
  import opened Patterns
  import opened Forms
  import opened Credentials

  datatype RegistrationForm = RegistrationForm(
    firstName: string,
    lastName: string,
    email: string,
    password: string)

  datatype RegistrationState = RegistrationState(form: RegistrationForm, errors: Errors)

  /** The result of a submit: the new state and the body of the
      registration request, if one is sent. */
  datatype Submitted = Submitted(state: RegistrationState, request: Option<RegistrationForm>)

  const RegistrationFields: set<Field> := {FirstName, LastName, Email, Password}

  const Initial: RegistrationState := RegistrationState(RegistrationForm("", "", "", ""), map[])

  /** Whether the form passes: both names have a non-whitespace
      character, the email contains a match of the pattern and the
      password is long enough. */
  ghost predicate RegistrationFormValid(form: RegistrationForm) {
    && !IsBlank(form.firstName)
    && !IsBlank(form.lastName)
    && EmailPatternMatches(form.email)
    && Utf16Length(form.password) >= MinPasswordLength
  }

  function FieldValue(form: RegistrationForm, f: Field): string {
    match f
    case FirstName => form.firstName
    case LastName => form.lastName
    case Email => form.email
    case Password => form.password
    case _ => ""
  }

  /** The message `validateForm` stores under `f`, if any. */
  function FieldError(form: RegistrationForm, f: Field): Option<string> {
    match f
    case FirstName => RequiredError(form.firstName, "First name is required")
    case LastName => RequiredError(form.lastName, "Last name is required")
    case Email => EmailError(form.email)
    case Password => PasswordError(form.password)
    case _ => None
  }

  /** The message under `f`, stated with whitespace-only names, the email
      pattern's language and the password's length in code units. */
  ghost function FieldSpec(form: RegistrationForm, f: Field): Option<string> {
    match f
    case FirstName => if IsBlank(form.firstName) then Some("First name is required") else None
    case LastName => if IsBlank(form.lastName) then Some("Last name is required") else None
    case Email =>
      if !EmailPatternMatches(form.email) then
        Some(if form.email == "" then "Email is required" else "Please enter a valid email")
      else None
    case Password =>
      if Utf16Length(form.password) < MinPasswordLength then
        Some(if form.password == "" then "Password is required" else "Password must be at least 6 characters")
      else None
    case _ => None
  }

  lemma FieldsMeetSpec(form: RegistrationForm)
    ensures forall f :: FieldError(form, f) == FieldSpec(form, f)
  {
    forall f ensures FieldError(form, f) == FieldSpec(form, f) {
      match f
      case FirstName =>
      case LastName =>
      case Email =>
      case Password =>
      case _ =>
    }
  }

  /** The `newErrors` object `validateForm` builds: each field has an
      error exactly when the reference definition gives it one, and then
      carries that message. */
  function ValidateForm(form: RegistrationForm): (errors: Errors)
    ensures errors.Keys <= RegistrationFields
    ensures forall f :: f in errors <==> FieldSpec(form, f).Some?
    ensures forall f | f in errors :: errors[f] == FieldSpec(form, f).value
  {
    FieldsMeetSpec(form);
    map f | f in RegistrationFields && FieldError(form, f).Some? :: FieldError(form, f).value
  }

  /** `validateForm()` returns true exactly for valid forms. */
  lemma ValidateFormAcceptsExactlyValid(form: RegistrationForm)
    ensures ValidateForm(form) == map[] <==> RegistrationFormValid(form)
  {
    var errors := ValidateForm(form);
    if RegistrationFormValid(form) {
      assert forall f :: FieldSpec(form, f).None?;
      assert errors.Keys == {};
    }
    if errors == map[] {
      assert FirstName !in errors && LastName !in errors;
      assert Email !in errors && Password !in errors;
    }
  }

  function SetFieldValue(form: RegistrationForm, f: Field, value: string): (r: RegistrationForm)
    requires f in RegistrationFields
    ensures FieldValue(r, f) == value
    ensures forall g | g in RegistrationFields && g != f :: FieldValue(r, g) == FieldValue(form, g)
  {
    match f
    case FirstName => form.(firstName := value)
    case LastName => form.(lastName := value)
    case Email => form.(email := value)
    case Password => form.(password := value)
  }

  /** `handleChange` for the input named `f`: the field takes the typed
      value, the others keep theirs, and only that field's error message
      is blanked, its key staying in the map. */
  function HandleChange(s: RegistrationState, f: Field, value: string): (r: RegistrationState)
    requires f in RegistrationFields
    ensures FieldValue(r.form, f) == value
    ensures forall g | g in RegistrationFields && g != f :: FieldValue(r.form, g) == FieldValue(s.form, g)
    ensures r.errors.Keys == s.errors.Keys
    ensures forall g | g in s.errors && g != f :: r.errors[g] == s.errors[g]
    ensures f in s.errors ==> r.errors[f] == ""
  {
    RegistrationState(SetFieldValue(s.form, f, value), ClearFieldError(s.errors, f))
  }

  /** `handleSubmit`: the errors become the validator's, and the request
      is sent, with the form data as its body, exactly when the form is
      valid. */
  function HandleSubmit(s: RegistrationState): (r: Submitted)
    ensures r.state.form == s.form
    ensures r.state.errors == ValidateForm(s.form)
    ensures r.request.Some? <==> RegistrationFormValid(s.form)
    ensures r.request.Some? ==> r.request.value == s.form
  {
    var errors := ValidateForm(s.form);
    ValidateFormAcceptsExactlyValid(s.form);
    Submitted(s.(errors := errors), if HasErrors(errors) then None else Some(s.form))
  }

  /** Names are trimmed but the email is not: a name of spaces is
      "required", an email of spaces is "invalid". */
  lemma SpacesAreTreatedDifferently(form: RegistrationForm)
    requires form.firstName == "  " && form.email == "  "
    ensures ValidateForm(form)[FirstName] == "First name is required"
    ensures ValidateForm(form)[Email] == "Please enter a valid email"
  {
    assert IsBlank(form.firstName);
    assert !ContainsEmailShape(form.email);
    EmailShapeIsPatternMatch(form.email);
  }

}
