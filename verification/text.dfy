/** String helpers standing in for the JavaScript built-ins the marketplace
    relies on: `String.prototype.includes`, `toLowerCase` and the decimal
    rendering of a number inside a template literal. */
module Text {

  /** `s.includes(t)`: some window of `s` spells `t`. The empty string is
      contained in every string, as in JavaScript. */
  predicate Contains(s: string, t: string) {
    exists i :: 0 <= i <= |s| && OccursAt(s, t, i)
  }

  /** `t` spells the window of `s` that starts at index `i`. */
  predicate OccursAt(s: string, t: string, i: nat) {
    i + |t| <= |s| && s[i..i + |t|] == t
  }

  /** Every string contains itself. */
  lemma ContainsSelf(s: string)
    ensures Contains(s, s)
  {
    assert OccursAt(s, s, 0);
  }

  /** Every string contains the empty string. */
  lemma ContainsEmpty(s: string)
    ensures Contains(s, "")
  {
    assert OccursAt(s, "", 0);
  }

  /** A string cannot contain a term one of whose characters it lacks. */
  lemma MissingCharNotContained(s: string, t: string, k: nat)
    requires k < |t| && t[k] !in s
    ensures !Contains(s, t)
  {
  }

  /** A string cannot contain a longer term. */
  lemma LongerNotContained(s: string, t: string)
    requires |s| < |t|
    ensures !Contains(s, t)
  {
  }

  /** `k` names a reason why `s` cannot contain `t`: a character `t[k]`
      absent from `s`, or, when negative, that `t` is the longer. */
  predicate Refutes(s: string, t: string, k: int) {
    if k < 0 then |s| < |t| else k < |t| && t[k] !in s
  }

  /** A string containing none of a list of terms, one reason per term. */
  lemma ContainsNone(s: string, terms: seq<string>, reasons: seq<int>)
    requires |reasons| == |terms|
    requires forall i :: 0 <= i < |terms| ==> Refutes(s, terms[i], reasons[i])
    ensures forall t :: t in terms ==> !Contains(s, t)
  {
    forall t | t in terms
      ensures !Contains(s, t)
    {
      var i :| 0 <= i < |terms| && terms[i] == t;
      if reasons[i] < 0 {
        LongerNotContained(s, t);
      } else {
        MissingCharNotContained(s, t, reasons[i]);
      }
    }
  }

  predicate IsUpper(c: char) {
    'A' <= c <= 'Z'
  }

  /** ASCII lower-casing of one character. */
  function LowerChar(c: char): (r: char)
    ensures !IsUpper(r)
  {
    if IsUpper(c) then (c as int + 32) as char else c
  }

  /** `s.toLowerCase()`, restricted to the ASCII letters. */
  function Lower(s: string): (r: string)
    ensures |r| == |s|
    ensures forall i :: 0 <= i < |r| ==> !IsUpper(r[i])
  {
    seq(|s|, i requires 0 <= i < |s| => LowerChar(s[i]))
  }

  /** Lower-casing twice is lower-casing once. */
  lemma LowerIdempotent(s: string)
    ensures Lower(Lower(s)) == Lower(s)
  {
    var l := Lower(s);
    assert forall i :: 0 <= i < |l| ==> LowerChar(l[i]) == l[i];
  }

  /** `s.toLowerCase().includes(t.toLowerCase())`. */
  predicate ContainsIgnoreCase(s: string, t: string) {
    Contains(Lower(s), Lower(t))
  }

  /** The case-insensitive search only sees the lower-cased text: two
      strings that agree up to case match the same terms. */
  lemma ContainsIgnoreCaseUpToCase(s: string, s': string, t: string, t': string)
    requires Lower(s) == Lower(s') && Lower(t) == Lower(t')
    ensures ContainsIgnoreCase(s, t) <==> ContainsIgnoreCase(s', t')
  {
  }

  /** The empty search term matches every string. */
  lemma EmptyTermMatches(s: string)
    ensures ContainsIgnoreCase(s, "")
  {
    assert Lower("") == "";
    ContainsEmpty(Lower(s));
  }

  predicate IsDigit(c: char) {
    '0' <= c <= '9'
  }

  function DigitChar(d: nat): (c: char)
    requires d < 10
    ensures IsDigit(c)
  {
    ('0' as int + d) as char
  }

  function DigitValue(c: char): nat {
    if IsDigit(c) then c as int - '0' as int else 0
  }

  /** The value of a string of decimal digits. */
  function ParseDecimal(s: string): nat {
    if |s| == 0 then 0 else 10 * ParseDecimal(s[..|s| - 1]) + DigitValue(s[|s| - 1])
  }

  /** The decimal rendering of a natural number inside a template literal:
      a non-empty run of digits that reads back as the same number. */
  function DecimalString(n: nat): (r: string)
    ensures |r| > 0
    ensures forall i :: 0 <= i < |r| ==> IsDigit(r[i])
    ensures ParseDecimal(r) == n
  {
    if n < 10 then [DigitChar(n)]
    else
      var prefix := DecimalString(n / 10);
      var r := prefix + [DigitChar(n % 10)];
      assert r[..|r| - 1] == prefix;
      r
  }

  /** Distinct numbers render as distinct strings. */
  lemma DecimalStringInjective(a: nat, b: nat)
    requires a != b
    ensures DecimalString(a) != DecimalString(b)
  {
  }
}
