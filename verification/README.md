# Sign-up form validation, in Dafny

This project models the sign-up screen of a small React Native app. The screen
has five text fields: `name`, `email`, `password`, `confirmpassword` and
`mobile`. A Yup schema, `SignupSchema`, validates them. Formik holds the
values, records which fields have lost focus ("touched"), shows an error under
a field only when that field is touched and has an error, and enables the
submit button only while the form is valid.

Modules:

- `Optional`: the `Option` type that carries a field's error message.
- `CharClass`: the character classes `[A-Z]`, `[a-z]`, `[0-9]` and
  `[#?!@$%^&*-]`, and the line terminators that `.` refuses. It holds the
  meaning of the two regular expressions of the schema. It also holds a
  single-pass scan, an equivalent formulation proved to agree with those
  meanings. It does not describe how a backtracking regular-expression
  engine evaluates the look-aheads.
- `StringSchema`: a Yup string rule chain as Formik runs it. A chain is an
  ordered list of tests plus a `required` message. Formik turns an empty
  string into `undefined` before validating. An undefined value passes every
  length, pattern and reference test, so an empty value reports only the
  `required` message.
- `Signup`: the five fields, the `Values` record, the messages verbatim
  (including "Confirn" and "minimun"), each field's chain, the errors object
  and `isValid`. Each field's error function states in closed form when the
  field is accepted and which message it reports.
- `FormController`: the form state (values and touched set), change and blur
  events, the error-display gating, and the submit button.
- `Scenarios`: concrete forms: a too-short name, a fully valid form, the two
  mobile messages, and a weak password with a matching confirmation.

The library's e-mail check is not visible in the repository. It is a
parameter `isEmail: string -> bool` everywhere it is needed.

Points of the schema worth stating explicitly:

- The schema spells the confirmation field `confirmpassword`.
- The password's `min(8)` has no custom message. The library's default text
  is used for it, and no property depends on that text.
- Which message the library reports when several non-required tests fail
  together depends on library internals. The model tries tests in
  declaration order but promises only the message of some failing test.
  Exact messages are proved only where one test fails, or where every
  failing test has the same message.

## Model

| member | source | states |
|---|---|---|
| CharClass.Scan | App.jsx:27 | A single left-to-right pass records, for each class (upper-case, lower-case, digit, special, line terminator), exactly whether some character of the string is in it. It also records whether some character is not a digit. |
| CharClass.MatchesStrongPassword | App.jsx:27 | The password pattern accepts a string iff it has at least 8 characters, no line terminator, and at least one upper-case letter, lower-case letter, digit and character of `#?!@$%^&*-`. |
| CharClass.MatchesDigitsOnly | App.jsx:36 | `^[0-9]+$` accepts a string iff it is non-empty and every character is a digit. |
| StringSchema.Passes | App.jsx:17-36 | What each Yup test means for a defined, non-empty value. `min(n)`: at least n characters. `max(n)`: at most n. `matches`: the pattern accepts the value. `email`: the library's shape check accepts it. `oneOf([ref])`: the value equals the referenced field's current value, which never holds when that field is empty. |
| StringSchema.Accepts | App.jsx:27-36 | The password pattern accepts exactly the strong passwords, and `^[0-9]+$` accepts exactly the non-empty all-digit strings. |
| StringSchema.FirstFailure | App.jsx:15-38 | The result is None iff every test of the chain passes. Otherwise it is the message of a test that fails. |
| StringSchema.Validate | App.jsx:15-38 | An empty value reports exactly the chain's `required` message. A non-empty value has no error iff every test passes, and otherwise reports the message of a failing test. |
| StringSchema.OnlyMessage | App.jsx:34-35 | If some test fails and every failing test carries message m, the chain reports m, whatever order it tries the tests in. Mobile's `min(11)` and `max(11)` share such a message. |
| Signup.With | App.jsx:71 | Replacing one field's value: that field reads back the new text and every other field keeps its value. |
| Signup.SignupSchema | App.jsx:15-38 | The schema object gives each field its chain, tests in declaration order (name: min 6, max 50; email: email; password: min 8, pattern; confirmation: min 8, oneOf password; mobile: min 11, max 11, digits). Every test and every `required` carries a non-empty message. The only test that reads another field is the confirmation's, and it compares against the password's current value. |
| Signup.FieldErrorFollowsSchema | App.jsx:15-38 | Each field's error is the schema's chain for that field applied to the field's value. |
| Signup.NameError | App.jsx:16-19 | Empty gives "Please enter your full name". The name is accepted iff 6 <= length <= 50. A non-empty name under 6 characters gives "Too Short!", and one over 50 gives "Too Long!". |
| Signup.EmailError | App.jsx:20-22 | Empty gives "Please enter your email address.". A non-empty value is accepted iff the e-mail check accepts it, and otherwise gives "Invalid email". |
| Signup.PasswordError | App.jsx:23-28 | Empty gives "Please enter your password.". The password is accepted iff it matches the strength pattern. A password of at least 8 characters that fails the pattern gives exactly the composite "minimun" message. |
| Signup.ConfirmError | App.jsx:29-32 | Empty gives "Confirm password is required.". The confirmation is accepted iff it has at least 8 characters and equals the current password. With 8 or more characters and a difference it gives "Your Passwords do not match.". A shorter equal value gives the "Confirn" message. |
| Signup.MobileError | App.jsx:33-37 | Empty gives "Please enter your mobile number.". The number is accepted iff it has exactly 11 characters, all digits. All digits with another length gives "Must be exactly 11 digits". Eleven characters with a non-digit gives "Must be only digits". Both faults together give one of the two. |
| Signup.Accepted | App.jsx:15-38 | The reference definition of each field's rules, stated directly over the values. Name: 6 to 50 characters. Email: non-empty and accepted by the shape check. Password: the strength pattern. Confirmation: at least 8 characters and equal to the password. Mobile: exactly 11 digits. |
| Signup.FieldError | App.jsx:15-38 | A field has no error iff the field's rules, stated directly over the values, accept it. Every reported message is non-empty. |
| Signup.Errors | App.jsx:53 | The errors object has a key exactly for each field that its rules reject, and that key holds the field's message. |
| Signup.IsValid | App.jsx:58 | The form is valid iff every one of the five fields is accepted. |
| Signup.EmptyIsRequired | App.jsx:15-38 | Each of the five fields, when empty, reports exactly its own `required` message, as written in the schema. |
| Signup.MinLengthRedundant | App.jsx:24-28 | Removing the password's `min(8)` test changes no accept/reject decision, because the pattern's `.{8,}` already demands 8 characters. |
| Signup.ConfirmFollowsPassword | App.jsx:29-32 | If the password is accepted and the confirmation equals it, the confirmation has no error. |
| Signup.PasswordDecidesMismatch | App.jsx:31 | With a confirmation of at least 8 characters, editing only the password clears the confirmation's error when the two become equal. Otherwise the confirmation reports the mismatch message. |
| Signup.EditIsLocal | App.jsx:15-38 | Editing one field leaves every other field's error unchanged. The one exception is that editing the password can change the confirmation's error. |
| FormController.Initial | App.jsx:42-48 | The form starts with all five values empty and no field touched. |
| FormController.Change | App.jsx:71 | A change event replaces only that field's value and leaves the touched set alone. |
| FormController.Blur | App.jsx:72 | A blur event adds the field to the touched set and leaves the values alone. |
| FormController.Step | App.jsx:71-72 | One event: a change event sets its field's value, keeps the other values and leaves the touched set alone. A blur event adds its field to the touched set and keeps all values. |
| FormController.Run | App.jsx:71-72 | Over any sequence of events, the touched set only grows, and a field that no event changes keeps its value. |
| FormController.BlurredIn | App.jsx:72 | A field is in the result iff some event of the sequence is a blur of that field. |
| FormController.Shown | App.jsx:74-76 | An error is displayed under a field iff the field is touched and its rules reject it. The displayed text is that field's error message. |
| FormController.SubmitEnabled | App.jsx:140-144 | The submit button is enabled iff no field has an error. |
| FormController.Press | App.jsx:140-142 | Pressing submit hands on values iff every field is accepted. The values handed on are exactly the form's current values. |
| FormController.ChangeIdempotent | App.jsx:71 | Setting a field to the same text twice leaves the same form and the same errors as setting it once. |
| FormController.BlurKeepsErrors | App.jsx:72 | Marking a field touched changes neither the values nor the errors object. |
| FormController.RunTouched | App.jsx:71-72 | After any sequence of change and blur events, the touched set is the initial one plus exactly the fields some event blurred. |
| FormController.NeverBlurredNeverShown | App.jsx:74-76 | A field that starts untouched and that no event blurs never displays an error, whatever text the events type into the form. |
| FormController.InitialState | App.jsx:42-48 | On the fresh form every field has an error, none is displayed, the button is disabled, and pressing it hands nothing on. |
| Scenarios.ShortName | App.jsx:16-19 | With the name "Al" and every other field acceptable, the name reports "Too Short!" and the form is invalid. |
| Scenarios.AcceptedForm | App.jsx:15-50 | The form "Alice Smith", "alice@example.com", "Abcdef1!", "Abcdef1!", "12345678901" has an empty errors object and is valid, given that the e-mail check accepts the address. Submitting it hands on exactly those values. |
| Scenarios.MobileMessages | App.jsx:33-37 | "123" gives "Must be exactly 11 digits" and "1234567890a" gives "Must be only digits". |
| Scenarios.WeakPassword | App.jsx:23-32 | "abcdefgh" as the password gives the composite pattern message. An equal confirmation has no error, and the form stays invalid. |

Validation is a function of the five values alone. Evaluating the same
values twice gives the same errors by construction, since every member is a
pure Dafny function.

## Left out

- Email shape: the library's e-mail regular expression is not part of the repository, so it is the parameter `isEmail`.
- EmailError: states only that a non-empty value failing `isEmail` reports "Invalid email"; the shape itself is unmodelled.
- PasswordError: for a non-empty password under 8 characters it promises only that some error is reported. Both `min(8)` and the pattern fail there, and which message the library shows depends on its internals.
- MobileError: for a value that is both of the wrong length and not all digits, it promises one of the two messages, not which one. Precedence depends on library internals.
- ConfirmError: for a confirmation that is both under 8 characters and different from the password, it promises only that an error is reported, for the same reason.
- StringSchema.FirstFailure: tries tests in declaration order, but its contract does not promise that order.
- Default message of the password's `min(8)`: the library's text is used but never asserted.
- Form library lifecycle: the model does not cover when validation runs, or the empty errors object held before the first validation. The library reports the button as enabled on the untouched fresh form; the model derives errors from the values at every step instead. Submitting also marks every field touched, which is not modelled.
- The submit handler shows the values in an alert (App.jsx:50). Here the handler is the value `Press` returns.
- Rendering, styles, the status bar and the keyboard type are pure presentation (App.jsx:61-147, 156-203).
- String length: JavaScript counts UTF-16 code units while a Dafny `char` is a Unicode scalar value. A character outside the Basic Multilingual Plane counts as two characters in the app and as one here.
