/**
 * Character classes and small string utilities shared by the models, restricted to ASCII:
 * Python's `str.lower`, `\s`, `\d`, `\w` and JavaScript's `toLowerCase` are modelled on the
 * ASCII range only (every other character is left as it is and is neither a digit, a letter
 * nor whitespace).
 */
module Ascii {

  predicate IsDigit(c: char) { '0' <= c <= '9' }

  predicate IsUpper(c: char) { 'A' <= c <= 'Z' }

  predicate IsLowerLetter(c: char) { 'a' <= c <= 'z' }

  /** Python's `\w` on ASCII: letters, digits and underscore. */
  predicate IsWordChar(c: char) { IsDigit(c) || IsUpper(c) || IsLowerLetter(c) || c == '_' }

  /** Python's `\s` on ASCII: the characters for which `str.isspace` holds. */
  predicate IsSpace(c: char) {
    c == ' ' || c == '\t' || c == '\n' || c == '\r' || c == '\U{0B}' || c == '\U{0C}'
    || ('\U{1C}' <= c <= '\U{1F}')
  }

  function ToLower(c: char): (r: char)
    ensures !IsUpper(r)
    ensures IsUpper(c) ==> r as int == c as int + 32
    ensures !IsUpper(c) ==> r == c
  {
    if IsUpper(c) then (c as int + 32) as char else c
  }

  predicate NoUpper(s: string) { forall i :: 0 <= i < |s| ==> !IsUpper(s[i]) }

  /** `str.lower()` / `String.prototype.toLowerCase()` on ASCII. */
  function Lower(s: string): (r: string)
    ensures |r| == |s|
    ensures forall i :: 0 <= i < |s| ==> r[i] == ToLower(s[i])
    ensures NoUpper(r)
  {
    seq(|s|, i requires 0 <= i < |s| => ToLower(s[i]))
  }

  /** Lowering text that has no upper-case letter changes nothing. */
  lemma LowerOfLowered(s: string)
    requires NoUpper(s)
    ensures Lower(s) == s
  {
  }

  /** Lower-casing works character by character, so it distributes over concatenation. */
  lemma LowerAppend(a: string, b: string)
    ensures Lower(a + b) == Lower(a) + Lower(b)
  {
    assert forall i :: 0 <= i < |a| + |b| ==> (a + b)[i] == (if i < |a| then a[i] else b[i - |a|]);
  }

  predicate IsPrefix(p: string, s: string) { |p| <= |s| && s[..|p|] == p }

  /** Python's `term in text` on strings: substring containment (the empty term is in every text). */
  predicate Contains(text: string, term: string) {
    ContainsFrom(text, term, 0)
  }

  /** `term` occurs in `text` at index `i` or later. */
  predicate ContainsFrom(text: string, term: string, i: nat)
    decreases |text| - i
  {
    OccursAt(text, term, i) || (i < |text| && ContainsFrom(text, term, i + 1))
  }

  /** `term` occurs in `text` starting at index `i`. */
  predicate OccursAt(text: string, term: string, i: nat) {
    i + |term| <= |text| && text[i..i + |term|] == term
  }

  /** `term in text` holds exactly when `term` occurs at some index of `text`. */
  lemma ContainsIffOccurs(text: string, term: string)
    ensures Contains(text, term) <==> exists i: nat :: OccursAt(text, term, i)
  {
    ContainsFromIffOccurs(text, term, 0);
  }

  lemma {:induction false} ContainsFromIffOccurs(text: string, term: string, i: nat)
    ensures ContainsFrom(text, term, i) <==> exists j: nat :: i <= j && OccursAt(text, term, j)
    decreases |text| - i
  {
    if i < |text| {
      ContainsFromIffOccurs(text, term, i + 1);
    } else if exists j: nat :: i <= j && OccursAt(text, term, j) {
      var j: nat :| i <= j && OccursAt(text, term, j);
      assert j == i;
    }
  }

  /** Python's `any(term in text for term in terms)`. */
  predicate ContainsAny(text: string, terms: seq<string>) {
    exists k :: 0 <= k < |terms| && Contains(text, terms[k])
  }

  /** Number of consecutive decimal digits of `t` starting at index `i`. */
  function DigitRun(t: string, i: nat): (n: nat)
    requires i <= |t|
    ensures i + n <= |t|
    ensures forall k :: i <= k < i + n ==> IsDigit(t[k])
    ensures i + n == |t| || !IsDigit(t[i + n])
    decreases |t| - i
  {
    if i < |t| && IsDigit(t[i]) then 1 + DigitRun(t, i + 1) else 0
  }

  function DigitValue(c: char): (d: nat)
    requires IsDigit(c)
    ensures d < 10
  {
    c as int - '0' as int
  }

  function DigitChar(d: nat): (c: char)
    requires d < 10
    ensures IsDigit(c) && DigitValue(c) == d
  {
    ('0' as int + d) as char
  }

  /** Python's `int(t[i:j])` for a slice of decimal digits (the empty slice reads as 0). */
  function NumberIn(t: string, i: nat, j: nat): nat
    requires i <= j <= |t|
    requires forall k :: i <= k < j ==> IsDigit(t[k])
    decreases j - i
  {
    if j == i then 0 else 10 * NumberIn(t, i, j - 1) + DigitValue(t[j - 1])
  }

  /** Python's `int(s)` for a string of decimal digits. */
  function DigitsValue(s: string): nat
    requires forall k :: 0 <= k < |s| ==> IsDigit(s[k])
  {
    NumberIn(s, 0, |s|)
  }

  function Pow10(m: nat): (p: nat)
    ensures p >= 1
  {
    if m == 0 then 1 else 10 * Pow10(m - 1)
  }

  /** The value of `j - i` digits is below 10^(j - i). */
  lemma {:induction false} NumberInBound(t: string, i: nat, j: nat)
    requires i <= j <= |t|
    requires forall k :: i <= k < j ==> IsDigit(t[k])
    ensures NumberIn(t, i, j) < Pow10(j - i)
    decreases j - i
  {
    if j > i {
      NumberInBound(t, i, j - 1);
    }
  }

  /** The digits of a prefix read the same as in the whole text. */
  lemma {:induction false} NumberInPrefix(s: string, t: string, j: nat)
    requires j <= |s| && j <= |t| && s[..j] == t[..j]
    requires forall k :: 0 <= k < j ==> IsDigit(s[k])
    ensures NumberIn(s, 0, j) == NumberIn(t, 0, j)
  {
    if j > 0 {
      assert s[..j - 1] == t[..j - 1] && s[j - 1] == t[j - 1] by {
        assert s[..j][j - 1] == t[..j][j - 1];
        assert s[..j][..j - 1] == s[..j - 1];
        assert t[..j][..j - 1] == t[..j - 1];
      }
      NumberInPrefix(s, t, j - 1);
    }
  }

  /** Decimal text of a natural number: JavaScript's `String(n)` for a non-negative integer. */
  function NatToString(n: nat): (s: string)
    ensures |s| >= 1
    ensures forall k :: 0 <= k < |s| ==> IsDigit(s[k])
    decreases n
  {
    if n < 10 then [DigitChar(n)] else NatToString(n / 10) + [DigitChar(n % 10)]
  }

  /** Reading back the decimal text of `n` gives `n`. */
  lemma {:induction false} NatToStringRoundTrip(n: nat)
    ensures DigitsValue(NatToString(n)) == n
    decreases n
  {
    if n >= 10 {
      NatToStringRoundTrip(n / 10);
      var s := NatToString(n);
      var h := NatToString(n / 10);
      assert s[..|s| - 1] == h;
      NumberInPrefix(s, h, |h|);
    }
  }

  /** Decimal text of an integer: JavaScript's `String(n)` and Python's `str(n)`. */
  function IntToString(n: int): (s: string)
    ensures |s| >= 1
    ensures n >= 0 ==> s == NatToString(n)
    ensures n < 0 ==> s[0] == '-'
  {
    if n >= 0 then NatToString(n) else "-" + NatToString(-n)
  }

  /** Distinct integers have distinct decimal texts. */
  lemma IntToStringInjective(a: int, b: int)
    requires IntToString(a) == IntToString(b)
    ensures a == b
  {
    if a >= 0 && b >= 0 {
      NatToStringRoundTrip(a);
      NatToStringRoundTrip(b);
    } else if a < 0 && b < 0 {
      assert NatToString(-a) == IntToString(a)[1..];
      NatToStringRoundTrip(-a);
      NatToStringRoundTrip(-b);
    }
  }
}
