/**
 * Rendering of natural numbers as Go's strconv.Itoa and fmt's %d, %04d and %08x
 * verbs print them, and the parsers that read them back.
 */
module Digits {

  /** The digit character for d, lower-case as %x prints it. */
  function DigitChar(d: nat): (c: char)
    requires d < 16
    ensures DigitValue(c) == d
  {
    "0123456789abcdef"[d]
  }

  /** The value of a digit character; 0 for anything that is not a digit. */
  function DigitValue(c: char): nat
  {
    if '0' <= c <= '9' then c as int - '0' as int
    else if 'a' <= c <= 'f' then c as int - 'a' as int + 10
    else 0
  }

  predicate IsDigitOf(c: char, base: nat)
  {
    ('0' <= c <= '9' || 'a' <= c <= 'f') && DigitValue(c) < base
  }

  predicate AllDigitsOf(s: string, base: nat)
  {
    forall i :: 0 <= i < |s| ==> IsDigitOf(s[i], base)
  }

  /** n written in the given base without leading zeros: "0" for zero. */
  function Format(n: nat, base: nat): (s: string)
    requires 2 <= base <= 16
    ensures 1 <= |s|
    ensures AllDigitsOf(s, base)
    ensures |s| > 1 ==> s[0] != '0'
    decreases n
  {
    if n < base then [DigitChar(n)]
    else
      DivShrinks(n, base);
      var t := Format(n / base, base);
      DigitsSnoc(t, DigitChar(n % base), base);
      t + [DigitChar(n % base)]
  }

  lemma DivShrinks(n: nat, base: nat)
    requires 2 <= base <= n
    ensures 1 <= n / base < n
    ensures n % base < base
  {
  }

  lemma DigitsSnoc(t: string, c: char, base: nat)
    requires 1 <= |t| && AllDigitsOf(t, base) && IsDigitOf(c, base)
    ensures AllDigitsOf(t + [c], base)
    ensures (t + [c])[0] == t[0]
  {
  }

  /** Reads a string of digits most significant first. */
  function Parse(s: string, base: nat): nat
  {
    if s == [] then 0 else Parse(s[..|s| - 1], base) * base + DigitValue(s[|s| - 1])
  }

  function Pow(base: nat, e: nat): nat
  {
    if e == 0 then 1 else base * Pow(base, e - 1)
  }

  /** Go's zero padding to a minimum width, as in %04d and %08x. */
  function ZeroPad(s: string, width: nat): (r: string)
    ensures |r| == if |s| >= width then |s| else width
    ensures r[|r| - |s|..] == s
    ensures forall i :: 0 <= i < |r| - |s| ==> r[i] == '0'
  {
    if |s| >= width then s else seq(width - |s|, _ => '0') + s
  }

  /** Formatting then parsing gives back the number. */
  lemma {:induction false} ParseFormat(n: nat, base: nat)
    requires 2 <= base <= 16
    ensures Parse(Format(n, base), base) == n
  {
    if n >= base {
      var m, r := n / base, n % base;
      DivMod(n, base);
      var t := Format(m, base);
      var s := t + [DigitChar(r)];
      assert Format(n, base) == s;
      assert s[..|s| - 1] == t;
      ParseFormat(m, base);
      assert Parse(s, base) == Parse(t, base) * base + r;
    }
  }

  lemma DivMod(n: nat, base: nat)
    requires 2 <= base <= n
    ensures n == (n / base) * base + n % base
    ensures n / base < n
  {
  }

  /** Leading zeros do not change the value read. */
  lemma {:induction false} ParseLeadingZeros(z: string, s: string, base: nat)
    requires forall i :: 0 <= i < |z| ==> z[i] == '0'
    ensures Parse(z + s, base) == Parse(s, base)
  {
    if s == [] {
      assert z + s == z;
      ParseZeros(z, base);
    } else {
      var t := s[..|s| - 1];
      assert (z + s)[..|z + s| - 1] == z + t;
      ParseLeadingZeros(z, t, base);
    }
  }

  lemma {:induction false} ParseZeros(z: string, base: nat)
    requires forall i :: 0 <= i < |z| ==> z[i] == '0'
    ensures Parse(z, base) == 0
  {
    if z != [] {
      ParseZeros(z[..|z| - 1], base);
    }
  }

  /** Padding then parsing gives back the number, whatever the width. */
  lemma ParseZeroPad(n: nat, base: nat, width: nat)
    requires 2 <= base <= 16
    ensures Parse(ZeroPad(Format(n, base), width), base) == n
  {
    var s := Format(n, base);
    var r := ZeroPad(s, width);
    ParseFormat(n, base);
    if |s| < width {
      ParseLeadingZeros(r[..|r| - |s|], s, base);
      assert r[..|r| - |s|] + s == r;
    }
  }

  /** A number below base^w needs at most w digits. */
  lemma {:induction false} FormatWidth(n: nat, base: nat, w: nat)
    requires 2 <= base <= 16 && 1 <= w
    requires n < Pow(base, w)
    ensures |Format(n, base)| <= w
    decreases w
  {
    if n >= base {
      PowSmall(base, w);
      DivBelowPow(n, base, w);
      FormatLength(n, base);
      FormatWidth(n / base, base, w - 1);
    }
  }

  /** base^0 and base^1 are at most base. */
  lemma PowSmall(base: nat, w: nat)
    requires 1 <= base
    ensures w <= 1 ==> Pow(base, w) <= base
  {
  }

  /** Past one digit, the text is one digit longer than that of n / base. */
  lemma FormatLength(n: nat, base: nat)
    requires 2 <= base <= 16 && base <= n
    ensures |Format(n, base)| == |Format(n / base, base)| + 1
  {
  }

  lemma DivBelowPow(n: nat, base: nat, w: nat)
    requires 2 <= base && 1 <= w
    requires n < Pow(base, w)
    ensures n / base < Pow(base, w - 1)
  {
    var q, p := n / base, Pow(base, w - 1);
    assert q * base <= n;
    assert n < p * base;
    MulMonotone(p, q, base);
  }

  lemma MulMonotone(p: nat, q: nat, b: nat)
    requires q * b < p * b
    ensures q < p
  {
  }

  /** So a number below base^w padded to width w takes exactly w digits. */
  lemma PaddedWidth(n: nat, base: nat, w: nat)
    requires 2 <= base <= 16 && 1 <= w
    requires n < Pow(base, w)
    ensures |ZeroPad(Format(n, base), w)| == w
    ensures AllDigitsOf(ZeroPad(Format(n, base), w), base)
  {
    FormatWidth(n, base, w);
  }
}
