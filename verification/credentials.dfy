/** The email and password rules the login and registration forms share.
    Unlike the checkout, neither form trims the email before testing it. */
module Credentials {
  import opened Wrappers
  import opened Text
  import opened Patterns

  /** Shortest password accepted, counted in UTF-16 code units. */
  const MinPasswordLength: nat := 6

  /** `if (!email) … else if (!/\S+@\S+\.\S+/.test(email)) …`: an empty
      email is missing; any other email must contain a match of the
      pattern. */
  function EmailError(email: string): (r: Option<string>)
    ensures r.Some? <==> !EmailPatternMatches(email)
    ensures r.Some? ==>
      r.value == if email == "" then "Email is required" else "Please enter a valid email"
  {
    EmailShapeIsPatternMatch(email);
    if email == "" then Some("Email is required")
    else if !ContainsEmailShape(email) then Some("Please enter a valid email")
    else None
  }

  /** `if (!password) … else if (password.length < 6) …` */
  function PasswordError(password: string): (r: Option<string>)
    ensures r.Some? <==> Utf16Length(password) < MinPasswordLength
    ensures r.Some? ==>
      r.value == if password == "" then "Password is required" else "Password must be at least 6 characters"
  {
    if password == "" then Some("Password is required")
    else if Utf16Length(password) < 6 then Some("Password must be at least 6 characters")
    else None
  }

  /** For a password typed without characters outside the Basic
      Multilingual Plane, the rule is "at least six characters". */
  lemma BmpPasswordLength(password: string)
    requires forall i | 0 <= i < |password| :: password[i] as int <= 0xFFFF
    ensures PasswordError(password).Some? <==> |password| < MinPasswordLength
  {
    Utf16LengthOfBmp(password);
  }

  /** An email of spaces is not "required" but "invalid": it is not empty,
      and it holds no `@`. */
  lemma SpacesEmailIsInvalid()
    ensures EmailError("   ") == Some("Please enter a valid email")
  {
    assert !ContainsEmailShape("   ");
  }

  /** Any six characters are long enough, and so are three characters
      outside the Basic Multilingual Plane, which count twice. */
  lemma PasswordLengthInCodeUnits(password: string)
    ensures |password| >= MinPasswordLength ==> PasswordError(password) == None
    ensures PasswordError("\U{1F600}\U{1F600}\U{1F600}") == None
    ensures PasswordError("abcde") == Some("Password must be at least 6 characters")
  {
    var p := "\U{1F600}\U{1F600}\U{1F600}";
    assert Utf16Length(p[2..]) == 2;
    assert Utf16Length(p[1..]) == 4;
  }

}
