/**
 * The older schema file validators/index.ts, which the login and sign-up pages
 * import. It declares only the sign-up and sign-in schemas; their rules and
 * messages are those of app/validators/index.ts, so this module reuses that
 * module's value types and messages, writes the two schemas out again, and
 * proves that they report exactly the same issues.
 */
module LegacyValidators {
  import opened Ui
  import opened Validators

  function LegacySignUpErrors(v: SignUpValues, isEmail: EmailCheck): (r: seq<FieldError>)
    ensures r == [] <==> |v.name| >= 1 && isEmail(v.email) && |v.password| >= 8 && v.password == v.confirmPassword
    ensures v.password != v.confirmPassword ==> FieldError("confirmPassword", PasswordsDontMatch) in r
    ensures forall e :: e in r && e.message == PasswordsDontMatch ==> e.path == "confirmPassword"
  {
    (if |v.name| < 1 then [FieldError("name", NameBlank)] else [])
    + (if !isEmail(v.email) then [FieldError("email", InvalidEmail)] else [])
    + (if |v.password| < 8 then [FieldError("password", PasswordTooShort)] else [])
    + (if v.password != v.confirmPassword then [FieldError("confirmPassword", PasswordsDontMatch)] else [])
  }

  function LegacySignInErrors(v: SignInValues, isEmail: EmailCheck): (r: seq<FieldError>)
    ensures r == [] <==> isEmail(v.email) && |v.password| >= 8
    ensures |v.password| < 8 ==> FieldError("password", PasswordTooShort) in r
  {
    (if !isEmail(v.email) then [FieldError("email", InvalidEmail)] else [])
    + (if |v.password| < 8 then [FieldError("password", PasswordTooShort)] else [])
  }

  /** An empty name is rejected. */
  lemma LegacySignUpRejectsBlankName(v: SignUpValues, isEmail: EmailCheck)
    requires v.name == ""
    ensures FieldError("name", NameBlank) in LegacySignUpErrors(v, isEmail)
  {
  }

  /** The older sign-up schema rejects a password shorter than 8 characters, on `password`. */
  lemma LegacySignUpRejectsShortPassword(v: SignUpValues, isEmail: EmailCheck)
    requires |v.password| < 8
    ensures FieldError("password", PasswordTooShort) in LegacySignUpErrors(v, isEmail)
  {
  }

  /** The older sign-in schema rejects a password shorter than 8 characters, on `password`. */
  lemma LegacySignInRejectsShortPassword(v: SignInValues, isEmail: EmailCheck)
    requires |v.password| < 8
    ensures FieldError("password", PasswordTooShort) in LegacySignInErrors(v, isEmail)
  {
  }

  /** The two copies of the schemas report the same issues, in the same order, on every input. */
  lemma LegacyMatchesApp(up: SignUpValues, inn: SignInValues, isEmail: EmailCheck)
    ensures LegacySignUpErrors(up, isEmail) == SignUpErrors(up, isEmail)
    ensures LegacySignInErrors(inn, isEmail) == SignInErrors(inn, isEmail)
  {
  }
}
