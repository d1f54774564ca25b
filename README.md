# Sign-in decision logic of the resume-analyzer front end, in Dafny

This project models the client-side decisions around authentication in the
resume-analyzer web front end, and proves properties about them:

- the form schemas for sign-up, sign-in, forgot-password and resume upload
  (`Validators`, `LegacyValidators`). Each schema is a validity predicate plus
  a function giving the (field, message) issues the schema reports;
- the global auth store `{user, isLoading}` and its two writers, `setUser` and
  `clearUser` (`AuthStore`). The store is a class whose methods are tied to
  the pure transition function `Apply`; `Run` folds `Apply` over a sequence
  of writes;
- the protected-route guard (`ProtectedLayout`). It is a total three-way
  decision over the store state: spinner, redirect to `/login`, or render
  the nested routes;
- the submit handlers of the login page, the password-reset page and the
  Google sign-in button (`Login`, `ForgotPassword`, `GoogleSignIn`).

Each handler page is a class with its busy flags and a log of UI effects.
The effects are provider calls, toasts, field errors and navigations.
`Begin` is the part before the await. `Settle(outcome)` is the rest, including
the `finally`. The provider's answer is the abstract `Outcome = Ok | Err(code)`.

The schema library's email check is the parameter `isEmail: string -> bool`.
`MAX_FILE_SIZE` and `ACCEPTED_FILE_TYPES` come from the `@/constants` module.
That module is not part of this model, so they form the `FileLimits` parameter.

Issue semantics follow the schema library:
- every string rule and the object-level password-match refinement report
  independently;
- a field's checks run in declaration order;
- a missing resume file stops that field's checks, so only "Resume PDF is
  required" is reported for it;
- a present file gets both the size and type refinements.

String lengths count Dafny characters, not UTF-16 code units.

Two facts about the code that the model records:
- The login page sets `isButtonDisabled` but never binds it to its button
  (app/routes/auth/login.tsx:127-133). So `Login.LoginPage.Button` is always
  enabled, also while a sign-in call is in flight, and `Begin` states that.
- The resume file's size limit is the imported `MAX_FILE_SIZE`. In the schema,
  "20MB" appears only in the message (app/validators/index.ts:35-36); the upload
  form's description label repeats it (app/components/resume-upload-form.tsx:109).

## Model

| member | source | states |
|---|---|---|
| `Ui.CountToastsAppend` | app/routes/auth/login.tsx:46-68 | toast counts add over concatenated effect logs, which makes each settlement add exactly one toast to a page's log |
| `Ui.ShowAll` | app/routes/auth/login.tsx:83 | schema issues are displayed one field-error effect per issue, in order |
| `Validators.SignUpErrors` | app/validators/index.ts:5-15 | no issue exactly when name is non-empty, the email passes the check, the password has at least 8 characters and equals the confirmation; each of the four messages is reported exactly when its rule is broken, at most once, and no other issue exists |
| `Validators.SignUpRejectsBlankName` | app/validators/index.ts:7 | an empty name is rejected with "Name cannot be blank" on `name` |
| `Validators.SignUpRejectsShortPassword` | app/validators/index.ts:9 | a password under 8 characters is rejected with the error on `password` |
| `Validators.MismatchTargetsConfirmPassword` | app/validators/index.ts:12-15 | a mismatch reports "Passwords don't match" on `confirmPassword`; that message never lands on another field, and `password` carries only the length message |
| `Validators.AcceptedConfirmPasswordIsLong` | app/validators/index.ts:9-12 | any accepted sign-up has a confirmation of at least 8 characters, though the confirmation field has no length rule of its own |
| `Validators.SignInErrors` | app/validators/index.ts:17-20 | sign-in accepts exactly when the email passes the check and the password has at least 8 characters; each message appears exactly when its rule is broken, at most once, and no other issue exists |
| `Validators.ForgotPasswordErrors` | app/validators/index.ts:22-24 | forgot-password accepts exactly when the email passes the check; the only possible issue is the invalid-email one, reported at most once |
| `Validators.FileErrors` | app/validators/index.ts:32-41 | no issue exactly for a present file within the size bound and of an accepted type; a missing file gives only the required-file issue; for a present file the size and type issues appear independently, each exactly when its check fails and at most once, and no other issue exists |
| `Validators.ResumeUploadErrors` | app/validators/index.ts:26-42 | accepts exactly when job title and company name have at least 2 characters, the description at least 10, and the file is valid; each length message appears exactly when its rule is broken; the file's issues are exactly those of `FileErrors`; no issue appears twice, and no other issue exists |
| `Validators.MissingResumeRejected` | app/validators/index.ts:32-33 | a missing file is rejected with "Resume PDF is required" and no other message on `resumeFile` |
| `Validators.FileAtSizeLimitAccepted` | app/validators/index.ts:34-37 | a file of exactly the maximum size passes the size check (the check is `<=` despite the "less than" message), and is accepted if its type is |
| `Validators.OversizedFileRejected` | app/validators/index.ts:34-37 | a file above the maximum size is rejected with the size message, whatever its type |
| `Validators.WrongFileTypeRejected` | app/validators/index.ts:38-41 | a file whose type is not accepted is rejected with the format message, whatever its size |
| `LegacyValidators.LegacySignUpErrors` | validators/index.ts:3-13 | the older sign-up schema accepts exactly the valid sign-ups; a mismatch is reported on `confirmPassword` and only there |
| `LegacyValidators.LegacySignInErrors` | validators/index.ts:15-18 | the older sign-in schema accepts exactly when the email passes the check and the password has at least 8 characters |
| `LegacyValidators.LegacySignUpRejectsBlankName` | validators/index.ts:5 | an empty name is rejected on `name` |
| `LegacyValidators.LegacySignUpRejectsShortPassword` | validators/index.ts:7 | the older sign-up schema rejects a password under 8 characters on `password` |
| `LegacyValidators.LegacySignInRejectsShortPassword` | validators/index.ts:17 | the older sign-in schema rejects a password under 8 characters on `password` |
| `LegacyValidators.LegacyMatchesApp` | validators/index.ts:3-18 | the older schemas report the same issues, in the same order, as those of app/validators/index.ts on every input |
| `AuthStore.Apply` | app/store/use-auth-store.ts:6-7 | after either writer the loading flag is false; `setUser(u)` leaves user `u`, `clearUser()` leaves no user |
| `AuthStore.ApplyIgnoresPriorState` | app/store/use-auth-store.ts:6-7 | each writer overwrites the whole state, so the result does not depend on the prior state |
| `AuthStore.ClearUserIsSetNull` | app/store/use-auth-store.ts:6-7 | `clearUser()` is the same write as `setUser(null)` |
| `AuthStore.WritesIdempotent` | app/store/use-auth-store.ts:6-7 | repeating `setUser(u)` or `clearUser()` changes nothing |
| `AuthStore.LoadingOnlyBeforeFirstWrite` | app/store/use-auth-store.ts:4-7 | after a sequence of writes the loading flag is true exactly when it was true before and the sequence is empty: once false it never returns |
| `AuthStore.LastWriteWins` | app/store/use-auth-store.ts:6-7 | after a non-empty sequence of writes the state is that of the last write alone |
| `AuthStore.Store.constructor` | app/store/use-auth-store.ts:4-5 | the store starts with no user and the loading flag set |
| `AuthStore.Store.SetUser` | app/store/use-auth-store.ts:6 | the user becomes the argument (possibly null) and the loading flag false; the new state is that of `Apply` |
| `AuthStore.Store.ClearUser` | app/store/use-auth-store.ts:7 | the user becomes null and the loading flag false, whatever the prior state |
| `ProtectedLayout.Guard` | app/layouts/protected-layout.tsx:8-22 | spinner exactly while loading, whatever the user; redirect to `/login` with history replacement exactly when not loading and no user; nested routes exactly when not loading and a user is present |
| `ProtectedLayout.InitialShowsSpinner` | app/layouts/protected-layout.tsx:5-14 | the store's initial state gives the spinner |
| `ProtectedLayout.SignedInRendersChildren` | app/layouts/protected-layout.tsx:21-22 | after `setUser` with a user, from any state, the guard renders the nested routes |
| `ProtectedLayout.SignedOutRedirects` | app/layouts/protected-layout.tsx:16-19 | after `clearUser()`, from any state, the guard redirects to `/login` |
| `ProtectedLayout.GuardAfterWrites` | app/layouts/protected-layout.tsx:5-22 | after any non-empty sequence of writes from start, the spinner never shows again, and the guard renders children exactly when the last write set a user |
| `ProtectedLayout.SignInThenOut` | app/layouts/protected-layout.tsx:5-22 | on a live store, the guard shows a spinner at start, renders children after sign-in and redirects after sign-out |
| `Login.FailureReaction` | app/routes/auth/login.tsx:52-68 | a field error always carries the same message as the toast; `email` is targeted exactly for `auth/user-not-found`, `password` exactly for `auth/wrong-password`, and every other code gets only the generic toast |
| `Login.Settlement` | app/routes/auth/login.tsx:46-68 | exactly one toast per settlement; navigation to `/` and the success toast happen exactly on success, and then the effects are the success toast followed by the navigation; on failure the first effect is the code's error toast, and any field error is the one the code maps to |
| `Login.UserNotFoundTargetsEmail` | app/routes/auth/login.tsx:53-58 | an unknown account gives an error toast then the same message on `email` |
| `Login.WrongPasswordTargetsPassword` | app/routes/auth/login.tsx:59-64 | a wrong password gives exactly two effects: the error toast "Incorrect password. Please try again.", then the same message on `password` |
| `Login.OtherCodesToastOnly` | app/routes/auth/login.tsx:65-67 | any other code gives only the generic toast |
| `Login.LoginPage.constructor` | app/routes/auth/login.tsx:29-30 | both busy flags start false |
| `Login.LoginPage.Button` | app/routes/auth/login.tsx:127-133 | the submit button reads "Sign In" and is never disabled and never shows a busy icon, whatever the flags, also while a call is in flight |
| `Login.LoginPage.Begin` | app/routes/auth/login.tsx:41-47 | both flags become true before the sign-in call, which carries the submitted email and password; the button stays enabled |
| `Login.LoginPage.Settle` | app/routes/auth/login.tsx:47-72 | the settlement's effects are appended, which adds exactly one toast to the log, and both flags end false on every path |
| `Login.LoginPage.OnSubmit` | app/routes/auth/login.tsx:40-73 | a submission logs the call and then the settlement, and leaves both flags false |
| `Login.LoginPage.HandleSubmit` | app/routes/auth/login.tsx:83 | with issues from the older sign-in schema, only the issues are shown, with no call and no flag change; otherwise the handler runs |
| `ForgotPassword.Settlement` | app/routes/auth/forgot-password.tsx:43-63 | exactly one toast and never a navigation; success gives only the success toast; a field error occurs exactly for `auth/user-not-found`; every other code gives only the generic toast |
| `ForgotPassword.UserNotFoundTargetsEmail` | app/routes/auth/forgot-password.tsx:50-55 | `auth/user-not-found` gives exactly two effects: the error toast "This email is not registered.", then the same message on `email` |
| `ForgotPassword.ResetButton` | app/routes/auth/forgot-password.tsx:92-109 | the button is disabled exactly when `isButtonDisabled` is set; it shows a spinner and "Sending email..." exactly while loading, and "Send Reset Link" otherwise |
| `ForgotPassword.ForgotPasswordPage.constructor` | app/routes/auth/forgot-password.tsx:27-28 | both flags start false |
| `ForgotPassword.ForgotPasswordPage.Begin` | app/routes/auth/forgot-password.tsx:38-44 | both flags become true and the button disabled and "Sending email...", before the reset request for the submitted email |
| `ForgotPassword.ForgotPasswordPage.Settle` | app/routes/auth/forgot-password.tsx:44-63 | the settlement's effects are appended, which adds one toast; both flags end false and the button is enabled with "Send Reset Link" |
| `ForgotPassword.ForgotPasswordPage.OnSubmit` | app/routes/auth/forgot-password.tsx:37-64 | a submission logs the request and then the settlement, and leaves both flags false |
| `ForgotPassword.ForgotPasswordPage.HandleSubmit` | app/routes/auth/forgot-password.tsx:72 | with issues from the forgot-password schema only the issues are shown; otherwise the handler runs |
| `GoogleSignIn.FailureReaction` | app/components/google-button.tsx:26-44 | only a closed popup leaves no inline error; a blocked popup's inline error is its toast text; a conflicting account gives "Email already in use with another login method."; any other code gives the generic toast and "Failed to sign in. Please try again." |
| `GoogleSignIn.PopupClosedReaction` | app/components/google-button.tsx:27-29 | a closed popup shows "Sign in popup closed before completion." and sets no inline error |
| `GoogleSignIn.PopupBlockedReaction` | app/components/google-button.tsx:30-33 | a blocked popup shows "Popup blocked! Please allow popups for this site." as toast and as inline error |
| `GoogleSignIn.AccountExistsReaction` | app/components/google-button.tsx:34-39 | an account with different credentials shows the long toast and the inline error "Email already in use with another login method." |
| `GoogleSignIn.Settlement` | app/components/google-button.tsx:21-44 | exactly one toast; navigation to `/` exactly on success, after the success toast; on failure only the code's error toast |
| `GoogleSignIn.ErrorAfter` | app/components/google-button.tsx:21-44 | success and a closed popup leave the inline error as it was; every other code sets it to the table's message |
| `GoogleSignIn.Render` | app/components/google-button.tsx:52-69 | the button is disabled, pulses and reads "Connecting..." exactly while loading, else shows its text; the inline paragraph appears exactly for a non-empty error |
| `GoogleSignIn.GoogleButton.constructor` | app/components/google-button.tsx:13-14 | no inline error, not loading |
| `GoogleSignIn.GoogleButton.Begin` | app/components/google-button.tsx:18-22 | loading becomes true and the inline error null before the popup call; the button is disabled |
| `GoogleSignIn.GoogleButton.Settle` | app/components/google-button.tsx:22-47 | the settlement's effects are appended, which adds one toast; the inline error follows `ErrorAfter`; loading ends false and the button is enabled |
| `GoogleSignIn.GoogleButton.HandleGoogleSignIn` | app/components/google-button.tsx:17-48 | a click logs the call and then the settlement; the inline error is null after success or a closed popup and the table's message otherwise; loading ends false |

## Left out

- The provider calls of app/services/auth.ts are abstract `Outcome` inputs. That file wraps an SDK that is not part of this model.
  - `resetPassword` is an empty stub there, and `loginWithGoogle` is not exported. The model stays parametric in the outcome.
  - The returned user record is unused by the handlers and is not modelled.
  - Sign-up's account creation and profile update are not modelled.
- The email format (`z.email`) is the uninterpreted parameter `isEmail`, because its pattern belongs to the schema library.
- `MAX_FILE_SIZE` and `ACCEPTED_FILE_TYPES` are parameters, because the constants module is not part of this model.
- The session-change subscription that calls `setUser`/`clearUser` is outside these files. So is the link from a successful sign-in to the store.
- Async scheduling, React re-rendering, store subscription and the toast and router libraries are not modelled.
  - A submission is one atomic `Begin` then `Settle`.
  - Interleaved concurrent submissions are not modelled.
- `HandleSubmit` shows every schema issue. The form library keeps the first issue per field. The sign-in and forgot-password schemas report at most one issue per field, so the two agree.
- The form library's clearing of earlier field errors on resubmission is not modelled.
- The `console.error` in the Google handler's default branch and the `console.log` in the service wrappers are logging, and are not modelled.
- The sign-in, sign-up and resume-upload forms' submit handlers only log. Their rendering is field binding, and is not modelled.
- Router configuration and the purely presentational components are not modelled. So are class names and icons, beyond the busy icon.
- String lengths count characters, not UTF-16 code units. Inputs outside the Basic Multilingual Plane would count differently.
