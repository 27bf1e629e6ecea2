/** The sign-up form's validation schema: five string fields, each with its
    own rule chain, one of which refers to another field's current value. */
module Signup {
  import opened Optional
  import opened CharClass
  import opened StringSchema

  /** The five fields of the form. */
  datatype Field = Name | Email | Password | ConfirmPassword | Mobile

  /** The form's values, one string per field. */
  datatype Values = Values(
    name: string,
    email: string,
    password: string,
    confirmpassword: string,
    mobile: string)

  /** The value of field `f`. */
  function Get(v: Values, f: Field): string {
    match f
    case Name => v.name
    case Email => v.email
    case Password => v.password
    case ConfirmPassword => v.confirmpassword
    case Mobile => v.mobile
  }

  /** `v` with field `f` replaced by `text`. */
  function With(v: Values, f: Field, text: string): (w: Values)
    ensures Get(w, f) == text
    ensures forall g :: g != f ==> Get(w, g) == Get(v, g)
  {
    match f
    case Name => v.(name := text)
    case Email => v.(email := text)
    case Password => v.(password := text)
    case ConfirmPassword => v.(confirmpassword := text)
    case Mobile => v.(mobile := text)
  }

  // The messages, verbatim, spelling included.
  const NameRequired := "Please enter your full name"
  const TooShort := "Too Short!"
  const TooLong := "Too Long!"
  const EmailRequired := "Please enter your email address."
  const InvalidEmail := "Invalid email"
  const PasswordRequired := "Please enter your password."
  /** `.min(8)` on the password names no message, so the library reports its
      default text; no property below depends on it. */
  const PasswordTooShort := "password must be at least 8 characters"
  const PasswordWeak := "Must contain minimun 8 characters, at least one uppercase letter, one lowercase letter, one number and one special character"
  const ConfirmTooShort := "Confirn Password must be 8 characters long."
  const ConfirmMismatch := "Your Passwords do not match."
  const ConfirmRequired := "Confirm password is required."
  const MobileLength := "Must be exactly 11 digits"
  const MobileDigits := "Must be only digits"
  const MobileRequired := "Please enter your mobile number."

  // The rule chain of each field, tests in declaration order.
  const NameSchema := Chain([MinLength(6, TooShort), MaxLength(50, TooLong)], NameRequired)

  function EmailSchema(isEmail: string -> bool): Chain {
    Chain([EmailAddress(isEmail, InvalidEmail)], EmailRequired)
  }

  const PasswordSchema :=
    Chain([MinLength(8, PasswordTooShort), Matches(PasswordPattern, PasswordWeak)], PasswordRequired)

  /** The confirmation is checked against the password's value at the time
      of validation, not a copy taken earlier. */
  function ConfirmSchema(password: string): Chain {
    Chain([MinLength(8, ConfirmTooShort), OneOfRef(password, ConfirmMismatch)], ConfirmRequired)
  }

  const MobileSchema := Chain(
    [MinLength(11, MobileLength), MaxLength(11, MobileLength), Matches(DigitsPattern, MobileDigits)],
    MobileRequired)

  /** The schema object: the chain of each field. Every rule reports a
      non-empty message, and the one rule that looks at another field is the
      confirmation's, which compares against the password's current value. */
  function SignupSchema(f: Field, v: Values, isEmail: string -> bool): (c: Chain)
    ensures c.required != []
    ensures forall i :: 0 <= i < |c.tests| ==> c.tests[i].message != []
    ensures forall i :: 0 <= i < |c.tests| && c.tests[i].OneOfRef? ==>
      f == ConfirmPassword && c.tests[i].other == v.password
  {
    match f
    case Name => NameSchema
    case Email => EmailSchema(isEmail)
    case Password => PasswordSchema
    case ConfirmPassword => ConfirmSchema(v.password)
    case Mobile => MobileSchema
  }

  /** The full name: required, between 6 and 50 characters. */
  function NameError(name: string): (r: Option<string>)
    ensures name == [] ==> r == Some(NameRequired)
    ensures r.None? <==> 6 <= |name| <= 50
    ensures 0 < |name| < 6 ==> r == Some(TooShort)
    ensures |name| > 50 ==> r == Some(TooLong)
  {
    assert Passes(NameSchema.tests[0], name) <==> |name| >= 6;
    assert Passes(NameSchema.tests[1], name) <==> |name| <= 50;
    Validate(NameSchema, name)
  }

  /** The e-mail address: required, and of the shape `isEmail` accepts. */
  function EmailError(email: string, isEmail: string -> bool): (r: Option<string>)
    ensures email == [] ==> r == Some(EmailRequired)
    ensures email != [] && isEmail(email) ==> r == None
    ensures email != [] && !isEmail(email) ==> r == Some(InvalidEmail)
  {
    Validate(EmailSchema(isEmail), email)
  }

  /** The password: required, at least 8 characters, and matching the
      strength pattern. */
  function PasswordError(password: string): (r: Option<string>)
    ensures password == [] ==> r == Some(PasswordRequired)
    ensures r.None? <==> StrongPassword(password)
    ensures |password| >= 8 && !StrongPassword(password) ==> r == Some(PasswordWeak)
  {
    var r := Validate(PasswordSchema, password);
    assert Passes(PasswordSchema.tests[0], password) <==> |password| >= 8;
    assert Passes(PasswordSchema.tests[1], password) <==> StrongPassword(password);
    if |password| >= 8 && !StrongPassword(password) then
      OnlyMessage(PasswordSchema, password, PasswordWeak);
      r
    else
      r
  }

  /** The confirmation: required, at least 8 characters, and equal to the
      current password. */
  function ConfirmError(confirm: string, password: string): (r: Option<string>)
    ensures confirm == [] ==> r == Some(ConfirmRequired)
    ensures r.None? <==> |confirm| >= 8 && confirm == password
    ensures |confirm| >= 8 && confirm != password ==> r == Some(ConfirmMismatch)
    ensures 0 < |confirm| < 8 && confirm == password ==> r == Some(ConfirmTooShort)
  {
    var chain := ConfirmSchema(password);
    var r := Validate(chain, confirm);
    assert Passes(chain.tests[0], confirm) <==> |confirm| >= 8;
    assert Passes(chain.tests[1], confirm) <==> confirm == password;
    if |confirm| >= 8 && confirm != password then
      OnlyMessage(chain, confirm, ConfirmMismatch);
      r
    else if 0 < |confirm| < 8 && confirm == password then
      OnlyMessage(chain, confirm, ConfirmTooShort);
      r
    else
      r
  }

  /** The mobile number: required, exactly 11 characters, digits only. When
      it is both of the wrong length and not all digits, one of the two
      messages is reported. */
  function MobileError(mobile: string): (r: Option<string>)
    ensures mobile == [] ==> r == Some(MobileRequired)
    ensures r.None? <==> |mobile| == 11 && Forall(mobile, IsDigit)
    ensures mobile != [] && |mobile| != 11 && Forall(mobile, IsDigit) ==> r == Some(MobileLength)
    ensures |mobile| == 11 && !Forall(mobile, IsDigit) ==> r == Some(MobileDigits)
    ensures mobile != [] && |mobile| != 11 && !Forall(mobile, IsDigit) ==>
      r == Some(MobileLength) || r == Some(MobileDigits)
  {
    var r := Validate(MobileSchema, mobile);
    assert Passes(MobileSchema.tests[0], mobile) <==> |mobile| >= 11;
    assert Passes(MobileSchema.tests[1], mobile) <==> |mobile| <= 11;
    assert Passes(MobileSchema.tests[2], mobile) <==> DigitsOnly(mobile);
    if mobile != [] && |mobile| != 11 && Forall(mobile, IsDigit) then
      OnlyMessage(MobileSchema, mobile, MobileLength);
      r
    else if |mobile| == 11 && !Forall(mobile, IsDigit) then
      OnlyMessage(MobileSchema, mobile, MobileDigits);
      r
    else
      r
  }

  /** What each field's rules demand, stated directly over the values. */
  predicate Accepted(v: Values, f: Field, isEmail: string -> bool) {
    match f
    case Name => 6 <= |v.name| <= 50
    case Email => v.email != [] && isEmail(v.email)
    case Password => StrongPassword(v.password)
    case ConfirmPassword => |v.confirmpassword| >= 8 && v.confirmpassword == v.password
    case Mobile => |v.mobile| == 11 && Forall(v.mobile, IsDigit)
  }

  /** The error of field `f` under the whole schema. */
  function FieldError(v: Values, f: Field, isEmail: string -> bool): (r: Option<string>)
    ensures r.None? <==> Accepted(v, f, isEmail)
    ensures r.Some? ==> |r.value| > 0
  {
    match f
    case Name => NameError(v.name)
    case Email => EmailError(v.email, isEmail)
    case Password => PasswordError(v.password)
    case ConfirmPassword => ConfirmError(v.confirmpassword, v.password)
    case Mobile => MobileError(v.mobile)
  }

  const AllFields: set<Field> := {Name, Email, Password, ConfirmPassword, Mobile}

  lemma EveryFieldListed()
    ensures forall f: Field :: f in AllFields
  {
    forall f: Field ensures f in AllFields {
      match f
      case Name =>
      case Email =>
      case Password =>
      case ConfirmPassword =>
      case Mobile =>
    }
  }

  /** The errors object: one entry per field that has an error. */
  function Errors(v: Values, isEmail: string -> bool): (m: map<Field, string>)
    ensures forall f :: f in m <==> !Accepted(v, f, isEmail)
    ensures forall f :: f in m ==> Some(m[f]) == FieldError(v, f, isEmail)
  {
    EveryFieldListed();
    map f | f in AllFields && FieldError(v, f, isEmail).Some? :: FieldError(v, f, isEmail).value
  }

  /** The form is valid when the errors object has no keys. */
  function IsValid(v: Values, isEmail: string -> bool): (b: bool)
    ensures b <==> forall f :: Accepted(v, f, isEmail)
  {
    |Errors(v, isEmail)| == 0
  }

  /** Each field's error is its chain of the schema object applied to its
      value. */
  lemma FieldErrorFollowsSchema(v: Values, f: Field, isEmail: string -> bool)
    ensures FieldError(v, f, isEmail) == Validate(SignupSchema(f, v, isEmail), Get(v, f))
  {
  }

  /** An empty field reports exactly its `required` message. */
  lemma EmptyIsRequired(v: Values, isEmail: string -> bool)
    ensures v.name == [] ==> FieldError(v, Name, isEmail) == Some("Please enter your full name")
    ensures v.email == [] ==> FieldError(v, Email, isEmail) == Some("Please enter your email address.")
    ensures v.password == [] ==> FieldError(v, Password, isEmail) == Some("Please enter your password.")
    ensures v.confirmpassword == [] ==>
      FieldError(v, ConfirmPassword, isEmail) == Some("Confirm password is required.")
    ensures v.mobile == [] ==> FieldError(v, Mobile, isEmail) == Some("Please enter your mobile number.")
  {
  }

  /** The password's `min(8)` never rejects a password the pattern accepts:
      the chain without it accepts exactly the same passwords. */
  lemma MinLengthRedundant(password: string)
    ensures PasswordError(password).None? <==>
      Validate(Chain([Matches(PasswordPattern, PasswordWeak)], PasswordRequired), password).None?
  {
  }

  /** An accepted password and an equal confirmation are both accepted. */
  lemma ConfirmFollowsPassword(v: Values, isEmail: string -> bool)
    requires Accepted(v, Password, isEmail)
    requires v.confirmpassword == v.password
    ensures FieldError(v, ConfirmPassword, isEmail) == None
  {
  }

  /** Editing only the password decides the mismatch error of a confirmation
      of at least 8 characters: it appears when they differ and clears when
      they agree. */
  lemma PasswordDecidesMismatch(v: Values, password: string, isEmail: string -> bool)
    requires |v.confirmpassword| >= 8
    ensures FieldError(With(v, Password, password), ConfirmPassword, isEmail) ==
      if v.confirmpassword == password then None else Some(ConfirmMismatch)
  {
  }

  /** Editing field `f` leaves every other field's error as it was, except
      that editing the password may change the confirmation's. */
  lemma EditIsLocal(v: Values, f: Field, text: string, g: Field, isEmail: string -> bool)
    requires g != f
    requires !(f == Password && g == ConfirmPassword)
    ensures FieldError(With(v, f, text), g, isEmail) == FieldError(v, g, isEmail)
  {
  }
}
