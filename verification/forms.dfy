/** The field-keyed error maps every form of the storefront keeps
    (`Record<string, string>` in the checkout, an interface of optional
    strings in login and registration). */
module Forms {
  import opened Wrappers
  import opened Text

  /** The keys an error map can hold: the `name`/`id` of every validated
      input across the forms. The `general` key, set only when a request
      fails, belongs to the network paths that are not modelled. */
  datatype Field =
    | FirstName | LastName | Email | Address | City | State | ZipCode | Country
    | CardNumber | ExpiryDate | Cvv | CardholderName
    | Password

  /** Field to message. A key whose message is `""` counts as no error
      when rendered but is still a key of the object. */
  type Errors = map<Field, string>

  /** `Object.keys(errors).length > 0` */
  predicate HasErrors(errors: Errors) {
    |errors| > 0
  }

  /** `if (!value.trim()) errors[key] = message` */
  function RequiredError(value: string, message: string): (r: Option<string>)
    ensures r.Some? <==> IsBlank(value)
    ensures r.Some? ==> r.value == message
  {
    if Trim(value) == "" then Some(message) else None
  }

  /** A required field that must also pass a pattern as typed: the
      "required" message when it trims to nothing, the format message
      when the pattern fails. */
  function PatternError(value: string, matches: bool, required: string, invalid: string): (r: Option<string>)
    ensures r.Some? <==> IsBlank(value) || !matches
    ensures r.Some? ==> r.value == if IsBlank(value) then required else invalid
  {
    if Trim(value) == "" then Some(required)
    else if !matches then Some(invalid)
    else None
  }

  /** What one `if (…) newErrors.key = message` contributes: the key with
      its message when the check fails, nothing otherwise. */
  function Entry(key: Field, message: Option<string>): (e: Errors)
    ensures e.Keys <= {key}
    ensures key in e <==> message.Some?
    ensures key in e ==> e[key] == message.value
  {
    if message.Some? then map[key := message.value] else map[]
  }

  /** The error-clearing half of `handleChange` in the login and
      registration forms: if the edited field shows a (non-empty) error,
      that error is blanked. The set of keys never changes, and no other
      field's message changes. */
  function ClearFieldError(errors: Errors, name: Field): (r: Errors)
    ensures r.Keys == errors.Keys
    ensures forall k | k in errors && k != name :: r[k] == errors[k]
    ensures name in errors ==> r[name] == ""
  {
    if name in errors && errors[name] != "" then errors[name := ""] else errors
  }

}
