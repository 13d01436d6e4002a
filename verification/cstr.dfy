/**
 * The C string primitives the linters lean on (strcmp, strspn, strtoul on
 * digit strings), stated over `string` values.  A C string is modelled by the
 * characters before its terminating NUL; each `char` stands for one byte.
 */
module CStr {

  const Digits: string := "0123456789"

  /**
   * A string a C caller can pass: every character is a byte other than the
   * NUL terminator.  The linters' contracts are stated for all strings; only
   * those satisfying this predicate correspond to C inputs.
   */
  predicate IsCString(s: string) {
    forall i :: 0 <= i < |s| ==> 0 < s[i] as int < 256
  }

  predicate IsDigit(c: char) {
    '0' <= c <= '9'
  }

  predicate AllDigits(s: string) {
    forall i :: 0 <= i < |s| ==> IsDigit(s[i])
  }

  /** The set strspn is given for digits is exactly the ASCII digit range. */
  lemma DigitsAreDigitRange(c: char)
    ensures c in Digits <==> IsDigit(c)
  {
  }

  /** `c - '0'` in C. */
  function DigitValue(c: char): int {
    c as int - '0' as int
  }

  function DigitChar(d: int): (c: char)
    requires 0 <= d < 10
    ensures IsDigit(c) && DigitValue(c) == d
  {
    ('0' as int + d) as char
  }

  /**
   * strcmp: the sign of the first difference, where the shorter string of a
   * prefix pair sorts first (its NUL terminator is smaller than any byte).
   */
  function StrCmp(a: string, b: string): int
  {
    if a == [] && b == [] then 0
    else if a == [] then -1
    else if b == [] then 1
    else if a[0] < b[0] then -1
    else if a[0] > b[0] then 1
    else StrCmp(a[1..], b[1..])
  }

  /** strcmp reports equality exactly for equal strings. */
  lemma {:induction false} StrCmpZeroIffEqual(a: string, b: string)
    ensures StrCmp(a, b) == 0 <==> a == b
  {
    if a != [] && b != [] && a[0] == b[0] {
      StrCmpZeroIffEqual(a[1..], b[1..]);
      assert a == [a[0]] + a[1..] && b == [b[0]] + b[1..];
    }
  }

  lemma {:induction false} StrCmpAntisymmetric(a: string, b: string)
    ensures StrCmp(a, b) == -StrCmp(b, a)
  {
    if a != [] && b != [] && a[0] == b[0] {
      StrCmpAntisymmetric(a[1..], b[1..]);
    }
  }

  lemma {:induction false} StrCmpTransitive(a: string, b: string, c: string)
    requires StrCmp(a, b) < 0 && StrCmp(b, c) < 0
    ensures StrCmp(a, c) < 0
  {
    if a != [] && b != [] && c != [] && a[0] == b[0] == c[0] {
      StrCmpTransitive(a[1..], b[1..], c[1..]);
    }
  }

  /** strspn: the length of the longest prefix of `s` made of characters of `accept`. */
  function Strspn(s: string, accept: string): (n: nat)
    ensures n <= |s|
    ensures forall i :: 0 <= i < n ==> s[i] in accept
    ensures n < |s| ==> s[n] !in accept
  {
    if s == [] || s[0] !in accept then 0
    else 1 + Strspn(s[1..], accept)
  }

  /** strspn(s, "0123456789"): the length of the leading run of digits. */
  function DigitSpan(s: string): (n: nat)
    ensures n <= |s| && AllDigits(s[..n])
    ensures n < |s| ==> !IsDigit(s[n])
    ensures n == |s| <==> AllDigits(s)
  {
    var n := Strspn(s, Digits);
    assert forall i :: 0 <= i < n ==> s[..n][i] == s[i] && s[i] in Digits;
    if n < |s| then DigitsAreDigitRange(s[n]); n else n
  }

  function Pow10(n: nat): (p: nat)
    ensures p >= 1
  {
    if n == 0 then 1 else 10 * Pow10(n - 1)
  }

  /** strtoul(s, NULL, 10) for a string of decimal digits, without a width limit. */
  function DecimalValue(s: string): int
  {
    if s == [] then 0 else DecimalValue(s[..|s| - 1]) * 10 + DigitValue(s[|s| - 1])
  }

  /** The `width`-digit, zero-padded decimal rendering of `n` (its low digits). */
  function Encode(n: nat, width: nat): (s: string)
    ensures |s| == width && AllDigits(s)
  {
    if width == 0 then [] else Encode(n / 10, width - 1) + [DigitChar(n % 10)]
  }

  lemma {:induction false} DecimalValueBounds(s: string)
    requires AllDigits(s)
    ensures 0 <= DecimalValue(s) < Pow10(|s|)
  {
    if s != [] {
      DecimalValueBounds(s[..|s| - 1]);
    }
  }

  /** Reading back a rendering gives the number rendered. */
  lemma {:induction false} DecimalValueOfEncode(n: nat, width: nat)
    requires n < Pow10(width)
    ensures DecimalValue(Encode(n, width)) == n
  {
    if width > 0 {
      var s := Encode(n, width);
      DecimalValueOfEncode(n / 10, width - 1);
      assert s[..|s| - 1] == Encode(n / 10, width - 1);
    }
  }

  /** Rendering the value of a digit string gives that string back. */
  lemma {:induction false} EncodeOfDecimalValue(s: string)
    requires AllDigits(s)
    ensures 0 <= DecimalValue(s) < Pow10(|s|)
    ensures Encode(DecimalValue(s), |s|) == s
  {
    DecimalValueBounds(s);
    if s != [] {
      var init, last := s[..|s| - 1], s[|s| - 1];
      EncodeOfDecimalValue(init);
      var v := DecimalValue(s);
      assert v / 10 == DecimalValue(init) && v % 10 == DigitValue(last);
      assert DigitChar(DigitValue(last)) == last;
      assert s == init + [last];
    }
  }

  /** Writing `b` after `a` shifts the value of `a` left by `|b|` decimal places. */
  lemma {:induction false} DecimalValueAppend(a: string, b: string)
    ensures DecimalValue(a + b) == DecimalValue(a) * Pow10(|b|) + DecimalValue(b)
  {
    if b == [] {
      assert a + b == a;
    } else {
      var ab, init := a + b, b[..|b| - 1];
      assert ab[..|ab| - 1] == a + init;
      DecimalValueAppend(a, init);
      var x, p := DecimalValue(a), Pow10(|init|);
      assert (x * p + DecimalValue(init)) * 10 == x * (10 * p) + DecimalValue(init) * 10;
    }
  }

  /** The two-digit reading `(s[i] - '0') * 10 + (s[i+1] - '0')` is the value of that slice. */
  lemma TwoDigitValue(s: string, i: nat)
    requires i + 2 <= |s|
    ensures DecimalValue(s[i..i + 2]) == DigitValue(s[i]) * 10 + DigitValue(s[i + 1])
  {
    var t := s[i..i + 2];
    assert t[..1][..0] == [];
    assert DecimalValue(t[..1]) == DigitValue(s[i]);
    assert t[|t| - 1] == s[i + 1];
  }
}
