/** The sign-in form: its two inputs, `handleChange`, `validateForm` and
    the guard in `handleSubmit` in front of `onLogin`. */
module Login {
  import opened Wrappers
  import opened Text
  import opened Patterns
  import opened Forms
  import opened Credentials

  datatype LoginForm = LoginForm(email: string, password: string)

  /** The component state that the logic touches: `formData` and `errors`. */
  datatype LoginState = LoginState(form: LoginForm, errors: Errors)

  /** The result of a submit: the new state and the data passed to
      `onLogin`, if it is called. */
  datatype Submitted = Submitted(state: LoginState, login: Option<LoginForm>)

  const LoginFields: set<Field> := {Email, Password}

  const Initial: LoginState := LoginState(LoginForm("", ""), map[])

  /** Whether the form passes, in terms of the pattern's language and the
      password's length. */
  ghost predicate LoginFormValid(form: LoginForm) {
    EmailPatternMatches(form.email) && Utf16Length(form.password) >= MinPasswordLength
  }

  function FieldValue(form: LoginForm, f: Field): string {
    match f
    case Email => form.email
    case Password => form.password
    case _ => ""
  }

  /** The `newErrors` object `validateForm` builds. */
  function ValidateForm(form: LoginForm): (errors: Errors)
    ensures errors.Keys <= LoginFields
    ensures Email in errors <==> !EmailPatternMatches(form.email)
    ensures Password in errors <==> Utf16Length(form.password) < MinPasswordLength
    ensures Email in errors ==>
      errors[Email] == if form.email == "" then "Email is required" else "Please enter a valid email"
    ensures Password in errors ==>
      errors[Password] ==
        if form.password == "" then "Password is required" else "Password must be at least 6 characters"
  {
    Entry(Email, EmailError(form.email)) + Entry(Password, PasswordError(form.password))
  }

  /** `validateForm()` returns true exactly for valid forms. */
  lemma ValidateFormAcceptsExactlyValid(form: LoginForm)
    ensures ValidateForm(form) == map[] <==> LoginFormValid(form)
  {
    var errors := ValidateForm(form);
    if LoginFormValid(form) {
      assert errors.Keys == {};
    }
    if errors == map[] {
      assert Email !in errors && Password !in errors;
    }
  }

  /** `handleChange` for the input named `f`: the field takes the typed
      value, the other field keeps its value, and only that field's error
      message is blanked, its key staying in the map. */
  function HandleChange(s: LoginState, f: Field, value: string): (r: LoginState)
    requires f in LoginFields
    ensures FieldValue(r.form, f) == value
    ensures forall g | g in LoginFields && g != f :: FieldValue(r.form, g) == FieldValue(s.form, g)
    ensures r.errors.Keys == s.errors.Keys
    ensures forall g | g in s.errors && g != f :: r.errors[g] == s.errors[g]
    ensures f in s.errors ==> r.errors[f] == ""
  {
    var form := if f == Email then s.form.(email := value) else s.form.(password := value);
    LoginState(form, ClearFieldError(s.errors, f))
  }

  /** `handleSubmit`: the errors become the validator's, and `onLogin`
      receives the form data unchanged exactly when the form is valid. */
  function HandleSubmit(s: LoginState): (r: Submitted)
    ensures r.state.form == s.form
    ensures r.state.errors == ValidateForm(s.form)
    ensures r.login.Some? <==> LoginFormValid(s.form)
    ensures r.login.Some? ==> r.login.value == s.form
  {
    var errors := ValidateForm(s.form);
    ValidateFormAcceptsExactlyValid(s.form);
    Submitted(s.(errors := errors), if HasErrors(errors) then None else Some(s.form))
  }

  /** Submitting the empty form reports both fields as missing and does
      not log in. */
  lemma EmptyFormReportsBoth()
    ensures HandleSubmit(Initial) ==
      Submitted(
        LoginState(Initial.form, map[Email := "Email is required", Password := "Password is required"]),
        None)
  {
    var errors := ValidateForm(Initial.form);
    assert Email in errors && Password in errors;
    assert errors == map[Email := "Email is required", Password := "Password is required"];
  }

  /** After a failed submit, typing into one field blanks its message only;
      typing again changes nothing more in the error map. */
  lemma TypingClearsOnlyThatError(s: LoginState, f: Field, v1: string, v2: string)
    requires f in LoginFields
    ensures HandleChange(HandleChange(s, f, v1), f, v2).errors == HandleChange(s, f, v1).errors
  {
  }

}
