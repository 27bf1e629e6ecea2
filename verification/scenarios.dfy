/** Concrete forms and what the schema and the controller make of them. */
module Scenarios {
  import opened Optional
  import opened CharClass
  import opened Signup
  import opened FormController

  const Strong := "Abcdef1!"

  /** `Abcdef1!` has an upper-case letter, a lower-case letter, a digit and a
      special character in eight characters on one line. */
  lemma StrongIsStrong()
    ensures StrongPassword(Strong)
  {
    assert IsUpper(Strong[0]) && IsLower(Strong[1]) && IsDigit(Strong[6]) && IsSpecial(Strong[7]);
    forall i | 0 <= i < |Strong| ensures !IsLineTerminator(Strong[i]) {
    }
  }

  /** A two-letter name is too short, and the form cannot be submitted. */
  lemma ShortName(isEmail: string -> bool)
    requires isEmail("a@b.com")
    ensures var v := Values("Al", "a@b.com", Strong, Strong, "12345678901");
      && FieldError(v, Name, isEmail) == Some("Too Short!")
      && !IsValid(v, isEmail)
  {
  }

  const Alice := Values("Alice Smith", "alice@example.com", Strong, Strong, "12345678901")

  /** Each field of `Alice` satisfies its own rules. */
  lemma AliceFieldsAccepted(isEmail: string -> bool)
    requires isEmail(Alice.email)
    ensures forall f :: Accepted(Alice, f, isEmail)
  {
    StrongIsStrong();
    var m := Alice.mobile;
    assert Forall(m, IsDigit) by {
      forall i | 0 <= i < |m| ensures IsDigit(m[i]) {
      }
    }
    forall f ensures Accepted(Alice, f, isEmail) {
      match f
      case Name =>
      case Email =>
      case Password =>
      case ConfirmPassword =>
      case Mobile =>
    }
  }

  /** A form whose every field is acceptable is valid, and submitting it
      hands on exactly its values. */
  lemma AcceptedForm(isEmail: string -> bool, touched: set<Field>)
    requires isEmail("alice@example.com")
    ensures Errors(Alice, isEmail) == map[]
    ensures IsValid(Alice, isEmail)
    ensures Press(Form(Alice, touched), isEmail) == Some(Alice)
  {
    AliceFieldsAccepted(isEmail);
    assert Errors(Alice, isEmail).Keys == {};
  }

  /** A short all-digit number breaks only the length rule; an 11-character
      number with a letter breaks only the digits rule. */
  lemma MobileMessages()
    ensures MobileError("123") == Some("Must be exactly 11 digits")
    ensures MobileError("1234567890a") == Some("Must be only digits")
  {
    var short := "123";
    assert Forall(short, IsDigit) by {
      forall i | 0 <= i < |short| ensures IsDigit(short[i]) {
      }
    }
    var lettered := "1234567890a";
    assert !IsDigit(lettered[10]);
  }

  /** An all-lower-case password fails the strength pattern; an equal
      confirmation raises no error of its own, yet the form stays invalid. */
  lemma WeakPassword(v: Values, isEmail: string -> bool)
    requires v.password == "abcdefgh" && v.confirmpassword == "abcdefgh"
    ensures FieldError(v, Password, isEmail) ==
      Some("Must contain minimun 8 characters, at least one uppercase letter, one lowercase letter, one number and one special character")
    ensures FieldError(v, ConfirmPassword, isEmail) == None
    ensures !IsValid(v, isEmail)
  {
  }
}
