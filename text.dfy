/** Kotlin string helpers the view models rely on, and the decimal rendering of an `Int`. */
module Text {

  /**
   * Kotlin's `Char.isWhitespace()` on the JVM: `Character.isWhitespace` or
   * `Character.isSpaceChar` (the Unicode space, line and paragraph separators).
   */
  predicate IsWhitespace(c: char) {
    c == '\t' || c == '\n' || c == '\U{B}' || c == '\U{C}' || c == '\r' ||
    ('\U{1C}' <= c <= '\U{1F}') || c == ' ' || c == '\U{A0}' || c == '\U{1680}' ||
    ('\U{2000}' <= c <= '\U{200A}') || c == '\U{2028}' || c == '\U{2029}' ||
    c == '\U{202F}' || c == '\U{205F}' || c == '\U{3000}'
  }

  /** `CharSequence.isNotBlank()`: some character is not whitespace. */
  predicate IsNotBlank(s: string) {
    exists i :: 0 <= i < |s| && !IsWhitespace(s[i])
  }

  lemma EmptyIsBlank()
    ensures !IsNotBlank("")
  {
  }

  predicate IsDigit(c: char) {
    '0' <= c <= '9'
  }

  function DigitChar(d: nat): (c: char)
    requires d < 10
    ensures IsDigit(c)
  {
    "0123456789"[d]
  }

  function DigitValue(c: char): (d: nat)
    requires IsDigit(c)
    ensures d < 10
  {
    (c as int - '0' as int) as nat
  }

  /** The decimal rendering `"$n"` of a non-negative Kotlin `Int`. */
  function Decimal(n: nat): (s: string)
    ensures |s| > 0
    ensures forall i :: 0 <= i < |s| ==> IsDigit(s[i])
  {
    if n < 10 then [DigitChar(n)] else Decimal(n / 10) + [DigitChar(n % 10)]
  }

  /** Reads a string of decimal digits back as a number. */
  function ParseDecimal(s: string): nat
    requires forall i :: 0 <= i < |s| ==> IsDigit(s[i])
  {
    if s == [] then 0 else 10 * ParseDecimal(s[..|s| - 1]) + DigitValue(s[|s| - 1])
  }

  /** The rendering loses nothing: the number can be read back from it. */
  lemma {:induction false} DecimalRoundTrip(n: nat)
    ensures ParseDecimal(Decimal(n)) == n
  {
    var s := Decimal(n);
    if n < 10 {
      assert s[..|s| - 1] == [];
    } else {
      assert s[..|s| - 1] == Decimal(n / 10);
      DecimalRoundTrip(n / 10);
    }
  }

  /** Distinct numbers render differently. */
  lemma DecimalInjective(m: nat, n: nat)
    requires Decimal(m) == Decimal(n)
    ensures m == n
  {
    DecimalRoundTrip(m);
    DecimalRoundTrip(n);
  }

  /** A shorter digit run followed by a non-digit differs from a longer digit run. */
  lemma ShorterDigitsDiffer(p: string, d1: string, t1: string, d2: string, t2: string)
    requires forall i :: 0 <= i < |d2| ==> IsDigit(d2[i])
    requires |t1| > 0 && !IsDigit(t1[0])
    requires |d1| < |d2|
    ensures p + d1 + t1 != p + d2 + t2
  {
    assert (p + d1 + t1)[|p| + |d1|] == t1[0];
    assert (p + d2 + t2)[|p| + |d1|] == d2[|d1|];
  }

  /**
   * A prefix, a digit string and a tail that starts with a non-digit: the
   * digit string is determined by the whole.
   */
  lemma DigitsBeforeSeparator(p: string, d1: string, t1: string, d2: string, t2: string)
    requires forall i :: 0 <= i < |d1| ==> IsDigit(d1[i])
    requires forall i :: 0 <= i < |d2| ==> IsDigit(d2[i])
    requires |t1| > 0 && !IsDigit(t1[0]) && |t2| > 0 && !IsDigit(t2[0])
    requires p + d1 + t1 == p + d2 + t2
    ensures d1 == d2
  {
    if |d1| < |d2| {
      ShorterDigitsDiffer(p, d1, t1, d2, t2);
      assert false;
    } else if |d2| < |d1| {
      ShorterDigitsDiffer(p, d2, t2, d1, t1);
      assert false;
    }
    var w := p + d1 + t1;
    assert forall i :: 0 <= i < |d1| ==> d1[i] == w[|p| + i] == d2[i];
  }
}
