/**
 * The string operations the harness relies on: Python slicing `s[:n]`,
 * left-aligned padding `f"{s:w}"`, and the decimal rendering of a count.
 */
module Text {

  /** Python's `s[:n]` for n >= 0: the first n characters, or all of s when it is shorter. */
  function Take(s: string, n: nat): (t: string)
    ensures |t| <= n && t <= s
    ensures |s| <= n ==> t == s
    ensures n <= |s| ==> |t| == n
  {
    if |s| <= n then s else s[..n]
  }

  /** Python's `f"{s:w}"` for a string: left-aligned, padded with spaces to at least w. */
  function PadRight(s: string, w: nat): (t: string)
    ensures |t| == if |s| < w then w else |s|
    ensures s <= t
    ensures forall k :: |s| <= k < |t| ==> t[k] == ' '
  {
    if |s| < w then s + seq(w - |s|, _ => ' ') else s
  }

  predicate IsDigit(c: char) {
    '0' <= c <= '9'
  }

  predicate AllDigits(s: string) {
    forall k :: 0 <= k < |s| ==> IsDigit(s[k])
  }

  function DigitChar(d: nat): (c: char)
    requires d < 10
    ensures IsDigit(c)
  {
    ('0' as int + d) as char
  }

  function DigitValue(c: char): (d: nat)
    requires IsDigit(c)
    ensures d < 10
  {
    c as int - '0' as int
  }

  /** `str(n)` for a natural number: its decimal digits, without leading zeros. */
  function NatToString(n: nat): (s: string)
    ensures |s| >= 1 && AllDigits(s)
    ensures |s| > 1 ==> s[0] != '0'
    decreases n
  {
    if n < 10 then [DigitChar(n)] else NatToString(n / 10) + [DigitChar(n % 10)]
  }

  /** The number a string of decimal digits denotes. */
  function ParseNat(s: string): nat
    requires AllDigits(s)
    decreases |s|
  {
    if s == [] then 0 else 10 * ParseNat(s[..|s| - 1]) + DigitValue(s[|s| - 1])
  }

  /** Rendering a count and reading it back gives the count. */
  lemma {:induction false} ParseNatToString(n: nat)
    ensures ParseNat(NatToString(n)) == n
    decreases n
  {
    var s := NatToString(n);
    if n < 10 {
      assert s[..0] == [];
    } else {
      var p := NatToString(n / 10);
      assert s == p + [DigitChar(n % 10)];
      assert s[..|s| - 1] == p;
      ParseNatToString(n / 10);
    }
  }
}
