/**
 * The form schemas of app/validators/index.ts: sign-up, sign-in, forgot-password
 * and resume upload. Each schema is a validity predicate (the conjunction of its
 * rules) and an issue-list function giving the (field, message) pairs the schema
 * library reports, in the order it reports them: the object's fields in
 * declaration order, then object-level refinements.
 *
 * The email format check belongs to the schema library and is the parameter
 * `isEmail`. The file limits come from a constants module outside this model and
 * are the parameter `limits`.
 */
module Validators {
  import opened Ui

  const NameBlank := "Name cannot be blank"
  const InvalidEmail := "Invalid email address"
  const PasswordTooShort := "Password must be at least 8 characters long"
  const PasswordsDontMatch := "Passwords don't match"
  const JobTitleTooShort := "Job title must be at least 2 characters"
  const CompanyNameTooShort := "Company name must be at least 2 characters"
  const DescriptionTooShort := "Please provide a more detailed description"
  const ResumeRequired := "Resume PDF is required"
  const FileTooLarge := "File size must be less than 20MB."
  const UnsupportedFormat := "Only .pdf format is supported."

  const MinNameLength := 1
  const MinPasswordLength := 8
  const MinJobTitleLength := 2
  const MinCompanyNameLength := 2
  const MinDescriptionLength := 10

  /** The schema library's email-format check; its pattern is not modelled. */
  type EmailCheck = string -> bool

  datatype SignUpValues = SignUpValues(name: string, email: string, password: string, confirmPassword: string)
  datatype SignInValues = SignInValues(email: string, password: string)
  datatype ForgotPasswordValues = ForgotPasswordValues(email: string)

  /** A browser file: its size in bytes and its MIME type. */
  datatype File = File(size: nat, mimeType: string)

  /** `resumeFile` is None when the file input holds no File object. */
  datatype ResumeUploadValues =
    ResumeUploadValues(jobTitle: string, companyName: string, jobDescription: string, resumeFile: Option<File>)

  /** MAX_FILE_SIZE and ACCEPTED_FILE_TYPES. */
  datatype FileLimits = FileLimits(maxFileSize: nat, acceptedFileTypes: seq<string>)

  /** The issue a single rule reports: none when it holds. */
  function Rule(holds: bool, path: string, message: string): seq<FieldError>
  {
    if holds then [] else [FieldError(path, message)]
  }

  // ---------------------------------------------------------------- sign-up

  predicate SignUpValid(v: SignUpValues, isEmail: EmailCheck)
  {
    && |v.name| >= MinNameLength
    && isEmail(v.email)
    && |v.password| >= MinPasswordLength
    && v.password == v.confirmPassword
  }

  /** Every issue names a rule that is broken, and every broken rule is reported. */
  function SignUpErrors(v: SignUpValues, isEmail: EmailCheck): (r: seq<FieldError>)
    ensures r == [] <==> SignUpValid(v, isEmail)
    ensures FieldError("name", NameBlank) in r <==> |v.name| < MinNameLength
    ensures FieldError("email", InvalidEmail) in r <==> !isEmail(v.email)
    ensures FieldError("password", PasswordTooShort) in r <==> |v.password| < MinPasswordLength
    ensures FieldError("confirmPassword", PasswordsDontMatch) in r <==> v.password != v.confirmPassword
    ensures forall e :: e in r ==>
              e in [FieldError("name", NameBlank), FieldError("email", InvalidEmail),
                    FieldError("password", PasswordTooShort), FieldError("confirmPassword", PasswordsDontMatch)]
    ensures forall i, j :: 0 <= i < j < |r| ==> r[i] != r[j]
  {
    Rule(|v.name| >= MinNameLength, "name", NameBlank)
    + Rule(isEmail(v.email), "email", InvalidEmail)
    + Rule(|v.password| >= MinPasswordLength, "password", PasswordTooShort)
    + Rule(v.password == v.confirmPassword, "confirmPassword", PasswordsDontMatch)
  }

  /** An empty name is rejected, with the blank-name message on `name`. */
  lemma SignUpRejectsBlankName(v: SignUpValues, isEmail: EmailCheck)
    requires v.name == ""
    ensures !SignUpValid(v, isEmail)
    ensures FieldError("name", NameBlank) in SignUpErrors(v, isEmail)
  {
  }

  /** A password shorter than 8 characters is rejected, with the error on `password`. */
  lemma SignUpRejectsShortPassword(v: SignUpValues, isEmail: EmailCheck)
    requires |v.password| < 8
    ensures !SignUpValid(v, isEmail)
    ensures FieldError("password", PasswordTooShort) in SignUpErrors(v, isEmail)
  {
  }

  /**
   * A mismatch is reported on `confirmPassword`, never on `password`; the only
   * issue `password` can carry is the length rule.
   */
  lemma MismatchTargetsConfirmPassword(v: SignUpValues, isEmail: EmailCheck)
    requires v.password != v.confirmPassword
    ensures FieldError("confirmPassword", PasswordsDontMatch) in SignUpErrors(v, isEmail)
    ensures forall e :: e in SignUpErrors(v, isEmail) && e.message == PasswordsDontMatch ==> e.path == "confirmPassword"
    ensures forall e :: e in SignUpErrors(v, isEmail) && e.path == "password" ==> e.message == PasswordTooShort
  {
  }

  /** `confirmPassword` has no rule of its own, yet it inherits the length bound through equality. */
  lemma AcceptedConfirmPasswordIsLong(v: SignUpValues, isEmail: EmailCheck)
    requires SignUpValid(v, isEmail)
    ensures |v.confirmPassword| >= MinPasswordLength
  {
  }

  // ---------------------------------------------------------------- sign-in

  predicate SignInValid(v: SignInValues, isEmail: EmailCheck)
  {
    isEmail(v.email) && |v.password| >= MinPasswordLength
  }

  function SignInErrors(v: SignInValues, isEmail: EmailCheck): (r: seq<FieldError>)
    ensures r == [] <==> SignInValid(v, isEmail)
    ensures FieldError("email", InvalidEmail) in r <==> !isEmail(v.email)
    ensures FieldError("password", PasswordTooShort) in r <==> |v.password| < MinPasswordLength
    ensures forall e :: e in r ==> e in [FieldError("email", InvalidEmail), FieldError("password", PasswordTooShort)]
    ensures forall i, j :: 0 <= i < j < |r| ==> r[i] != r[j]
  {
    Rule(isEmail(v.email), "email", InvalidEmail)
    + Rule(|v.password| >= MinPasswordLength, "password", PasswordTooShort)
  }

  // -------------------------------------------------------- forgot-password

  function ForgotPasswordErrors(v: ForgotPasswordValues, isEmail: EmailCheck): (r: seq<FieldError>)
    ensures r == [] <==> isEmail(v.email)
    ensures forall e :: e in r ==> e == FieldError("email", InvalidEmail)
    ensures forall i, j :: 0 <= i < j < |r| ==> r[i] != r[j]
  {
    Rule(isEmail(v.email), "email", InvalidEmail)
  }

  // ---------------------------------------------------------- resume upload

  predicate FileValid(f: File, limits: FileLimits)
  {
    f.size <= limits.maxFileSize && f.mimeType in limits.acceptedFileTypes
  }

  predicate ResumeUploadValid(v: ResumeUploadValues, limits: FileLimits)
  {
    && |v.jobTitle| >= MinJobTitleLength
    && |v.companyName| >= MinCompanyNameLength
    && |v.jobDescription| >= MinDescriptionLength
    && v.resumeFile.Some?
    && FileValid(v.resumeFile.value, limits)
  }

  /**
   * The issues on `resumeFile`. A missing file stops the field's checks (the
   * instance check aborts); a present file gets both refinements, and both may
   * report.
   */
  function FileErrors(file: Option<File>, limits: FileLimits): (r: seq<FieldError>)
    ensures r == [] <==> file.Some? && FileValid(file.value, limits)
    ensures file.None? ==> r == [FieldError("resumeFile", ResumeRequired)]
    ensures file.Some? ==>
              && (FieldError("resumeFile", FileTooLarge) in r <==> file.value.size > limits.maxFileSize)
              && (FieldError("resumeFile", UnsupportedFormat) in r <==> file.value.mimeType !in limits.acceptedFileTypes)
              && FieldError("resumeFile", ResumeRequired) !in r
              && forall e :: e in r ==> e in [FieldError("resumeFile", FileTooLarge), FieldError("resumeFile", UnsupportedFormat)]
    ensures forall i, j :: 0 <= i < j < |r| ==> r[i] != r[j]
  {
    match file
    case None => [FieldError("resumeFile", ResumeRequired)]
    case Some(f) =>
      Rule(f.size <= limits.maxFileSize, "resumeFile", FileTooLarge)
      + Rule(f.mimeType in limits.acceptedFileTypes, "resumeFile", UnsupportedFormat)
  }

  function ResumeUploadErrors(v: ResumeUploadValues, limits: FileLimits): (r: seq<FieldError>)
    ensures r == [] <==> ResumeUploadValid(v, limits)
    ensures FieldError("jobTitle", JobTitleTooShort) in r <==> |v.jobTitle| < MinJobTitleLength
    ensures FieldError("companyName", CompanyNameTooShort) in r <==> |v.companyName| < MinCompanyNameLength
    ensures FieldError("jobDescription", DescriptionTooShort) in r <==> |v.jobDescription| < MinDescriptionLength
    ensures forall e :: e in r && e.path == "resumeFile" ==> e in FileErrors(v.resumeFile, limits)
    ensures forall e :: e in FileErrors(v.resumeFile, limits) ==> e in r
    ensures forall e :: e in r ==>
              e in [FieldError("jobTitle", JobTitleTooShort), FieldError("companyName", CompanyNameTooShort),
                    FieldError("jobDescription", DescriptionTooShort)] + FileErrors(v.resumeFile, limits)
    ensures forall i, j :: 0 <= i < j < |r| ==> r[i] != r[j]
  {
    Rule(|v.jobTitle| >= MinJobTitleLength, "jobTitle", JobTitleTooShort)
    + Rule(|v.companyName| >= MinCompanyNameLength, "companyName", CompanyNameTooShort)
    + Rule(|v.jobDescription| >= MinDescriptionLength, "jobDescription", DescriptionTooShort)
    + FileErrors(v.resumeFile, limits)
  }

  /** A missing file is rejected with the required-file message and nothing else on that field. */
  lemma MissingResumeRejected(v: ResumeUploadValues, limits: FileLimits)
    requires v.resumeFile.None?
    ensures !ResumeUploadValid(v, limits)
    ensures FieldError("resumeFile", ResumeRequired) in ResumeUploadErrors(v, limits)
    ensures forall e :: e in ResumeUploadErrors(v, limits) && e.path == "resumeFile" ==> e.message == ResumeRequired
  {
  }

  /** The size bound is inclusive: a file of exactly the maximum size passes the size check. */
  lemma FileAtSizeLimitAccepted(f: File, limits: FileLimits)
    requires f.size == limits.maxFileSize
    ensures FieldError("resumeFile", FileTooLarge) !in FileErrors(Some(f), limits)
    ensures f.mimeType in limits.acceptedFileTypes ==> FileErrors(Some(f), limits) == []
  {
  }

  /** A file over the size bound is rejected whatever its type. */
  lemma OversizedFileRejected(v: ResumeUploadValues, limits: FileLimits)
    requires v.resumeFile.Some? && v.resumeFile.value.size > limits.maxFileSize
    ensures !ResumeUploadValid(v, limits)
    ensures FieldError("resumeFile", FileTooLarge) in ResumeUploadErrors(v, limits)
  {
  }

  /** A file of a type not accepted is rejected whatever its size. */
  lemma WrongFileTypeRejected(v: ResumeUploadValues, limits: FileLimits)
    requires v.resumeFile.Some? && v.resumeFile.value.mimeType !in limits.acceptedFileTypes
    ensures !ResumeUploadValid(v, limits)
    ensures FieldError("resumeFile", UnsupportedFormat) in ResumeUploadErrors(v, limits)
  {
  }
}
