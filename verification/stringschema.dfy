/** A string field's rule chain, evaluated the way the form library runs it.

    Before validating, the form library replaces every empty string by
    "undefined". An undefined value passes every length, pattern and
    reference test and fails only `required`, so a chain is modelled as its
    non-required tests plus the `required` message, and the tests are only
    ever applied to non-empty strings. */
module StringSchema {
  import opened Optional
  import opened CharClass

  /** The two regular expressions the sign-up schema uses. */
  datatype Pattern = PasswordPattern | DigitsPattern

  /** One non-required test and the message it reports when it fails. */
  datatype Test =
    | MinLength(min: nat, message: string)
    | MaxLength(max: nat, message: string)
    | Matches(pattern: Pattern, message: string)
    | EmailAddress(isEmail: string -> bool, message: string)
    | OneOfRef(other: string, message: string)

  /** A string schema: its ordered tests and the message of `required`. */
  datatype Chain = Chain(tests: seq<Test>, required: string)

  /** Whether the pattern accepts `s`. */
  function Accepts(p: Pattern, s: string): (b: bool)
    ensures p == PasswordPattern ==> (b <==> StrongPassword(s))
    ensures p == DigitsPattern ==> (b <==> DigitsOnly(s))
  {
    match p
    case PasswordPattern => MatchesStrongPassword(s)
    case DigitsPattern => MatchesDigitsOnly(s)
  }

  /** Whether test `t` passes for the non-empty value `s`. An e-mail test
      carries the library's own shape check, which is not part of this model.
      A reference test carries the referenced field's value at the time of
      validation and passes only when the value equals it; when that field is
      empty (undefined) a non-empty value never equals it. */
  predicate Passes(t: Test, s: string) {
    match t
    case MinLength(n, _) => |s| >= n
    case MaxLength(n, _) => |s| <= n
    case Matches(p, _) => Accepts(p, s)
    case EmailAddress(isEmail, _) => isEmail(s)
    case OneOfRef(other, _) => s == other
  }

  /** The message of a failing test of `tests`, trying them in order. Which of
      several failing tests is reported is not promised. */
  function FirstFailure(tests: seq<Test>, s: string): (r: Option<string>)
    ensures r.None? <==> forall i :: 0 <= i < |tests| ==> Passes(tests[i], s)
    ensures r.Some? ==>
      exists i :: 0 <= i < |tests| && !Passes(tests[i], s) && tests[i].message == r.value
  {
    if tests == [] then None
    else if !Passes(tests[0], s) then Some(tests[0].message)
    else
      var r := FirstFailure(tests[1..], s);
      assert forall i :: 1 <= i < |tests| ==> tests[i] == tests[1..][i - 1];
      r
  }

  /** The error a chain reports for a value: the `required` message for an
      empty value, otherwise the message of a failing test, if any. */
  function Validate(chain: Chain, s: string): (r: Option<string>)
    ensures s == [] ==> r == Some(chain.required)
    ensures s != [] ==>
      (r.None? <==> forall i :: 0 <= i < |chain.tests| ==> Passes(chain.tests[i], s))
    ensures s != [] && r.Some? ==>
      exists i :: 0 <= i < |chain.tests| && !Passes(chain.tests[i], s)
        && chain.tests[i].message == r.value
  {
    if s == [] then Some(chain.required) else FirstFailure(chain.tests, s)
  }

  /** When every failing test of a non-empty value carries message `m`, and one
      test fails, the chain reports `m` whatever order it tries them in. */
  lemma OnlyMessage(chain: Chain, s: string, m: string)
    requires s != []
    requires exists i :: 0 <= i < |chain.tests| && !Passes(chain.tests[i], s)
    requires forall i :: 0 <= i < |chain.tests| && !Passes(chain.tests[i], s) ==>
      chain.tests[i].message == m
    ensures Validate(chain, s) == Some(m)
  {
  }
}
