/** Character classes and the two regular expressions of the sign-up schema.

    Each regular expression is given twice: once declaratively, as what the
    pattern means over a whole string, and once as a single left-to-right scan
    that a matcher performs. The scan is proved to agree with the meaning. */
module CharClass {

  /** `[A-Z]` */
  predicate IsUpper(c: char) { 'A' <= c <= 'Z' }

  /** `[a-z]` */
  predicate IsLower(c: char) { 'a' <= c <= 'z' }

  /** `[0-9]` */
  predicate IsDigit(c: char) { '0' <= c <= '9' }

  /** `[#?!@$%^&*-]`: inside a bracket class a `^` that is not first and a `-`
      that is last are literal, so the class is exactly these ten characters. */
  predicate IsSpecial(c: char) { c in "#?!@$%^&*-" }

  /** The characters that `.` refuses when the pattern has no `s` flag:
      line feed, carriage return, line separator and paragraph separator. */
  predicate IsLineTerminator(c: char) {
    c == '\n' || c == '\r' || c == '\U{2028}' || c == '\U{2029}'
  }

  /** Some character of `s` is in class `p`. */
  predicate Exists(s: string, p: char -> bool) {
    exists i :: 0 <= i < |s| && p(s[i])
  }

  /** Every character of `s` is in class `p`. */
  predicate Forall(s: string, p: char -> bool) {
    forall i :: 0 <= i < |s| ==> p(s[i])
  }

  /** What `^(?=.*?[A-Z])(?=.*?[a-z])(?=.*?[0-9])(?=.*?[#?!@$%^&*-]).{8,}$`
      accepts. Each look-ahead asks for one character of its class before the
      first line terminator; `.{8,}$` then demands at least eight characters and
      no line terminator at all up to the end of the input, which makes the
      look-aheads' own restriction redundant. */
  predicate StrongPassword(s: string) {
    && |s| >= 8
    && Exists(s, IsUpper)
    && Exists(s, IsLower)
    && Exists(s, IsDigit)
    && Exists(s, IsSpecial)
    && !Exists(s, IsLineTerminator)
  }

  /** What `^[0-9]+$` accepts: one or more digits and nothing else. */
  predicate DigitsOnly(s: string) {
    |s| >= 1 && Forall(s, IsDigit)
  }

  /** What one pass over a string has seen so far. */
  datatype Census = Census(
    upper: bool,
    lower: bool,
    digit: bool,
    special: bool,
    terminator: bool,
    nonDigit: bool)

  /** Reads `s` once, left to right, recording which classes occurred. A
      regular-expression engine evaluates the look-aheads by backtracking;
      this single pass is an equivalent formulation, proved to agree with the
      patterns' meaning. */
  function Scan(s: string): (c: Census)
    ensures c.upper <==> Exists(s, IsUpper)
    ensures c.lower <==> Exists(s, IsLower)
    ensures c.digit <==> Exists(s, IsDigit)
    ensures c.special <==> Exists(s, IsSpecial)
    ensures c.terminator <==> Exists(s, IsLineTerminator)
    ensures c.nonDigit <==> !Forall(s, IsDigit)
  {
    if s == [] then
      Census(false, false, false, false, false, false)
    else
      var init := s[..|s| - 1];
      var x := s[|s| - 1];
      var c := Scan(init);
      assert forall i :: 0 <= i < |init| ==> init[i] == s[i];
      Census(
        c.upper || IsUpper(x),
        c.lower || IsLower(x),
        c.digit || IsDigit(x),
        c.special || IsSpecial(x),
        c.terminator || IsLineTerminator(x),
        c.nonDigit || !IsDigit(x))
  }

  /** Decides the password pattern with one scan plus a length test; proved
      equivalent to `StrongPassword`, not a description of how a
      backtracking engine proceeds. */
  function MatchesStrongPassword(s: string): (b: bool)
    ensures b <==> StrongPassword(s)
  {
    var c := Scan(s);
    |s| >= 8 && c.upper && c.lower && c.digit && c.special && !c.terminator
  }

  /** Decides the mobile pattern with one scan; proved equivalent to
      `DigitsOnly`. */
  function MatchesDigitsOnly(s: string): (b: bool)
    ensures b <==> DigitsOnly(s)
  {
    |s| >= 1 && !Scan(s).nonDigit
  }
}
