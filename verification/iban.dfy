/**
 * The `iban` linter (lint_iban.c): an International Bank Account Number per
 * ISO 13616-1, whose check digits follow ISO 7064 MOD 97-10.
 */
module Iban {
  import opened CStr
  import opened LintResult
  import opened Arith

  /**
   * Data of this length or shorter is too short to be an IBAN. The source
   * lets a build override it; the model fixes the default.
   */
  const IbanMinLength := 10

  /**
   * The iban_weights table: one more than the character's value in the
   * checksum (digits 0-9, letters A-Z as 10-35), and 0 for a character
   * that may not appear in an IBAN.
   */
  function IbanWeight(c: char): nat {
    if '0' <= c <= '9' then c as nat - '0' as nat + 1
    else if 'A' <= c <= 'Z' then c as nat - 'A' as nat + 11
    else 0
  }

  predicate IsIbanChar(c: char) {
    IbanWeight(c) != 0
  }

  predicate AllIbanChars(s: string) {
    forall i :: 0 <= i < |s| ==> IsIbanChar(s[i])
  }

  /**
   * The decimal digits a character stands for in the checksum number: one
   * digit for a digit, two for a letter (A = "10" ... Z = "35").
   */
  function CharDigits(c: char): string {
    var w := IbanWeight(c);
    if w == 0 then [] else if w <= 10 then [c] else [DigitChar((w - 1) / 10), DigitChar((w - 1) % 10)]
  }

  /** Every character replaced by its checksum digits. */
  function Expand(s: string): string {
    if s == [] then [] else Expand(s[..|s| - 1]) + CharDigits(s[|s| - 1])
  }

  /** The first four characters (country code and check digits) moved to the end. */
  function Rotate(data: string): string
    requires |data| >= 4
  {
    data[4..] + data[..4]
  }

  /**
   * The ISO 7064 MOD 97-10 remainder of an IBAN: the rotated data, written
   * out as one decimal number, modulo 97.
   */
  function Mod97(data: string): nat
    requires |data| >= 4
  {
    DecimalValue(Expand(Rotate(data))) % 97
  }

  /** A valid IBAN leaves remainder 1. */
  predicate ChecksumHolds(data: string)
    requires |data| >= 4
  {
    Mod97(data) == 1
  }

  /**
   * The characters the linter has accepted before it reaches position `pos`:
   * it checks positions 2 and 3, then 4 up to the end, then wraps to 0 and 1.
   */
  predicate ValidBefore(data: string, pos: nat)
    requires pos <= |data|
  {
    if pos >= 2 then
      forall i :: 2 <= i < pos ==> IsIbanChar(data[i])
    else
      && (forall i :: 2 <= i < |data| ==> IsIbanChar(data[i]))
      && (forall i :: 0 <= i < pos ==> IsIbanChar(data[i]))
  }

  /** What the alpha-2 country code linter may answer. */
  predicate Alpha2Outcome(r: LintResult) {
    r.Ok? || r.code == NotIso3166Alpha2
  }

  lemma CharDigitsValue(c: char)
    requires IsIbanChar(c)
    ensures |CharDigits(c)| == (if IbanWeight(c) <= 10 then 1 else 2)
    ensures DecimalValue(CharDigits(c)) == IbanWeight(c) - 1
  {
    var d := CharDigits(c);
    if IbanWeight(c) > 10 {
      TwoDigitValue(d, 0);
      assert d[0..2] == d;
    } else {
      assert d[..0] == [];
    }
  }

  /**
   * One step of the linter's accumulator for character `c`: shift the
   * remainder by one decimal place for a digit or two for a letter, add the
   * character's value, reduce modulo 97.
   */
  function Step(csum: int, c: char): int {
    var w := IbanWeight(c);
    if w <= 10 then (csum * 10 + (w - 1)) % 97 else (csum * 100 + (w - 1)) % 97
  }

  /**
   * A step from the remainder of the number `p` spells gives the remainder
   * of `p` followed by the character's digits.
   */
  lemma StepIsRemainderOfExtension(p: string, c: char)
    requires IsIbanChar(c)
    ensures Step(DecimalValue(p) % 97, c) == DecimalValue(p + CharDigits(c)) % 97
  {
    CharDigitsValue(c);
    DecimalValueAppend(p, CharDigits(c));
    var x, v := DecimalValue(p), IbanWeight(c) - 1;
    if IbanWeight(c) <= 10 {
      assert x * Pow10(1) == x * 10;
      ModShiftAdd(x, 10, v, 97);
    } else {
      assert Pow10(2) == 100;
      assert x * Pow10(2) == x * 100;
      ModShiftAdd(x, 100, v, 97);
    }
  }

  /** The remainder the linter accumulates over `s`, one character at a time. */
  function RunningChecksum(s: string): int {
    if s == [] then 0 else Step(RunningChecksum(s[..|s| - 1]), s[|s| - 1])
  }

  /**
   * The running remainder is the MOD 97-10 remainder of the whole number the
   * characters spell: reducing at each step never changes the result.
   */
  lemma {:induction false} RunningChecksumIsMod97(s: string)
    requires AllIbanChars(s)
    ensures RunningChecksum(s) == DecimalValue(Expand(s)) % 97
  {
    if s != [] {
      var init, c := s[..|s| - 1], s[|s| - 1];
      RunningChecksumIsMod97(init);
      StepIsRemainderOfExtension(Expand(init), c);
    }
  }

  /**
   * Where the linter's checksum scan stands after `k` characters: it starts
   * at position 4 and wraps to 0 at the end of the data.
   */
  function ScanPos(k: nat, len: nat): nat {
    if 4 + k < len then 4 + k else 4 + k - len
  }

  lemma ScanPosOfRotate(data: string, k: nat)
    requires 4 <= |data| && k < |data|
    ensures ScanPos(k, |data|) < |data| && Rotate(data)[k] == data[ScanPos(k, |data|)]
  {
  }

  /** Scanning one more character of `s` takes one more step of the accumulator. */
  lemma ChecksumExtends(s: string, k: nat)
    requires k < |s|
    ensures RunningChecksum(s[..k + 1]) == Step(RunningChecksum(s[..k]), s[k])
  {
    assert s[..k + 1][..k] == s[..k];
  }

  /** The linter's position update moves the scan on by one, and it is back at 4 after a full turn. */
  lemma ScanAdvances(k: nat, len: nat)
    requires 4 < len && k < len
    ensures var p := ScanPos(k, len) + 1;
      && (if p == len then 0 else p) == ScanPos(k + 1, len)
      && ((if p == len then 0 else p) == 4 <==> k + 1 == len)
  {
  }

  /**
   * Once positions 2 and 3 and the first `k` characters of the scan are
   * accepted, every position the linter visits before the next one is
   * accepted, and after a full turn every character is.
   */
  lemma ScannedValid(data: string, k: nat)
    requires 4 < |data| && k <= |data|
    requires IsIbanChar(data[2]) && IsIbanChar(data[3])
    requires forall j :: 0 <= j < k ==> IsIbanChar(Rotate(data)[j])
    ensures k < |data| ==> ValidBefore(data, ScanPos(k, |data|))
    ensures k == |data| ==> AllIbanChars(data)
  {
    var rot, len := Rotate(data), |data|;
    forall i | 4 <= i < len && i - 4 < k ensures IsIbanChar(data[i]) {
      assert rot[i - 4] == data[i];
    }
    forall i | 0 <= i < 4 && i + len - 4 < k ensures IsIbanChar(data[i]) {
      assert rot[i + len - 4] == data[i];
    }
  }

  /**
   * gs1_lint_iban: too short, then an unknown country code, then the first
   * invalid character in the linter's scan order, then a checksum that is
   * not 1; otherwise OK.
   */
  method LintIban(data: string, alpha2: string -> LintResult) returns (r: LintResult)
    requires |data| > IbanMinLength ==> Alpha2Outcome(alpha2(data[..2]))
    ensures r.Ok? <==>
      && |data| > IbanMinLength && alpha2(data[..2]).Ok?
      && AllIbanChars(data) && ChecksumHolds(data)
    ensures r.Err? ==> r.code in {IbanTooShort, IllegalIbanCountryCode, InvalidIbanCharacter, IncorrectIbanChecksum}
    ensures r.Err? && r.code == IbanTooShort <==> |data| <= IbanMinLength
    ensures r.Err? && r.code == IbanTooShort ==> r == Err(IbanTooShort, 0, |data|)
    ensures r.Err? && r.code == IllegalIbanCountryCode <==>
      |data| > IbanMinLength && alpha2(data[..2]).Err?
    ensures r.Err? && r.code == IllegalIbanCountryCode ==> r.pos == 0 && r.len == 2
    ensures r.Err? && r.code == InvalidIbanCharacter <==>
      |data| > IbanMinLength && alpha2(data[..2]).Ok? && !AllIbanChars(data)
    ensures r.Err? && r.code == InvalidIbanCharacter ==>
      && r.len == 1 && r.pos < |data|
      && !IsIbanChar(data[r.pos]) && ValidBefore(data, r.pos)
    ensures r.Err? && r.code == IncorrectIbanChecksum ==> r.pos == 2 && r.len == 2
    ensures SpanWithin(r, data)
  {
    var len := |data|;
    if len <= IbanMinLength {
      return Err(IbanTooShort, 0, len);
    }

    var cc := data[..2];
    var ret := alpha2(cc);
    if ret.Err? && ret.code == NotIso3166Alpha2 {
      return Err(IllegalIbanCountryCode, 0, 2);
    }

    for pos := 2 to 4
      invariant forall i :: 2 <= i < pos ==> IsIbanChar(data[i])
    {
      if IbanWeight(data[pos]) == 0 {
        return Err(InvalidIbanCharacter, pos, 1);
      }
    }

    ghost var rot := Rotate(data);
    ghost var k := 0;
    var csum := 0;
    var p := 4;
    var done := false;
    while !done
      invariant 0 <= k <= len && (done <==> k == len)
      invariant p == ScanPos(k, len)
      invariant forall j :: 0 <= j < k ==> IsIbanChar(rot[j])
      invariant csum == RunningChecksum(rot[..k])
      decreases len - k
    {
      ScanPosOfRotate(data, k);
      var weight := IbanWeight(data[p]);
      if weight == 0 {
        ScannedValid(data, k);
        return Err(InvalidIbanCharacter, p, 1);
      }

      assert IsIbanChar(rot[k]);
      ChecksumExtends(rot, k);
      ScanAdvances(k, len);
      ghost var prev := csum;
      if weight <= 10 {
        csum := csum * 10;
      } else {
        csum := csum * 100;
      }
      csum := csum + (weight - 1);
      csum := csum % 97;
      assert csum == Step(prev, rot[k]);

      p := p + 1;
      if p == len {
        p := 0;
      }
      k := k + 1;
      done := p == 4;
    }

    ScannedValid(data, k);
    assert rot[..k] == rot;
    RunningChecksumIsMod97(rot);

    if csum != 1 {
      return Err(IncorrectIbanChecksum, 2, 2);
    }
    return Ok;
  }

  lemma ExpandSnoc(s: string, c: char)
    ensures Expand(s + [c]) == Expand(s) + CharDigits(c)
  {
    var sc := s + [c];
    assert sc[..|sc| - 1] == s;
  }

  lemma {:induction false} ExpandAppend(a: string, b: string)
    ensures Expand(a + b) == Expand(a) + Expand(b)
  {
    if b == [] {
      assert a + b == a;
    } else {
      var init, last := b[..|b| - 1], b[|b| - 1];
      assert b == init + [last];
      ExpandAppend(a, init);
      ExpandAppendStep(a, init, last);
    }
  }

  lemma ExpandAppendStep(a: string, init: string, last: char)
    requires Expand(a + init) == Expand(a) + Expand(init)
    ensures Expand(a + (init + [last])) == Expand(a) + Expand(init + [last])
  {
    ConcatAssoc(a, init, [last]);
    ExpandSnoc(a + init, last);
    ExpandSnoc(init, last);
    ConcatAssoc(Expand(a), Expand(init), CharDigits(last));
  }

  lemma ConcatAssoc(x: string, y: string, z: string)
    ensures (x + y) + z == x + (y + z)
  {
  }

  /** Digits stand for themselves in the checksum number. */
  lemma {:induction false} ExpandOfDigits(s: string)
    requires AllDigits(s)
    ensures Expand(s) == s
  {
    if s != [] {
      var init, c := s[..|s| - 1], s[|s| - 1];
      ExpandOfDigits(init);
      assert s == init + [c];
    }
  }

  /**
   * The ISO 13616 check digits for a country code and a BBAN: 98 minus the
   * MOD 97-10 remainder of the BBAN followed by the country code and "00".
   */
  function CheckDigits(cc: string, bban: string): (d: nat)
    ensures 2 <= d <= 98
  {
    98 - DecimalValue(Expand(bban + cc + "00")) % 97
  }

  /** Digits written after `p` shift the number `p` spells and add their own value. */
  lemma ValueWithDigitSuffix(p: string, t: string)
    requires AllDigits(t)
    ensures DecimalValue(Expand(p + t)) == DecimalValue(Expand(p)) * Pow10(|t|) + DecimalValue(t)
  {
    ExpandAppend(p, t);
    ExpandOfDigits(t);
    DecimalValueAppend(Expand(p), t);
  }

  /** Adding 98 minus the remainder of `n` leaves remainder 1. */
  lemma CheckDigitRemainder(n: int, d: int)
    requires d == 98 - n % 97
    ensures (n + d) % 97 == 1
  {
    DivModUnique(n + d, 97, n / 97 + 1, 1);
  }

  /** Two digits after `p` shift its number by a hundred and add their value; "00" adds nothing. */
  lemma TwoDigitSuffixValue(p: string, d: nat)
    requires d < 100
    ensures DecimalValue(Expand(p + "00")) == DecimalValue(Expand(p)) * 100
    ensures DecimalValue(Expand(p + Encode(d, 2))) == DecimalValue(Expand(p)) * 100 + d
  {
    var v := DecimalValue(Expand(p));
    assert Pow10(2) == 100;
    assert v * Pow10(2) == v * 100;
    ValueWithDigitSuffix(p, "00");
    assert DecimalValue("00") == 0;
    ValueWithDigitSuffix(p, Encode(d, 2));
    DecimalValueOfEncode(d, 2);
  }

  /**
   * The number spelt by BBAN, country code and check digits is the number of
   * BBAN and country code shifted by two places plus the check digits, which
   * are 98 minus the remainder of that shifted number.
   */
  lemma CheckDigitsValue(cc: string, bban: string)
    ensures var n := DecimalValue(Expand(bban + cc)) * 100;
      && CheckDigits(cc, bban) == 98 - n % 97
      && DecimalValue(Expand(bban + cc + Encode(CheckDigits(cc, bban), 2))) == n + CheckDigits(cc, bban)
  {
    var p := bban + cc;
    var d := CheckDigits(cc, bban);
    assert d == 98 - DecimalValue(Expand(p + "00")) % 97;
    TwoDigitSuffixValue(p, d);
  }

  /** Check digits computed over the BBAN and country code bring them, followed by those digits, to remainder 1. */
  lemma CheckDigitsBringRemainderToOne(cc: string, bban: string)
    ensures DecimalValue(Expand(bban + cc + Encode(CheckDigits(cc, bban), 2))) % 97 == 1
  {
    CheckDigitsValue(cc, bban);
    var n, d := DecimalValue(Expand(bban + cc)) * 100, CheckDigits(cc, bban);
    CheckDigitRemainder(n, d);
    var x := DecimalValue(Expand(bban + cc + Encode(d, 2)));
    assert x == n + d;
  }

  /** Moving the first four characters of country code, check digits and BBAN to the end. */
  lemma RotateOfAssembled(cc: string, cd: string, bban: string)
    requires |cc| == 2 && |cd| == 2
    ensures Rotate(cc + cd + bban) == (bban + cc) + cd
  {
    var iban := cc + cd + bban;
    assert iban[..4] == cc + cd && iban[4..] == bban;
  }

  /** Digits between two runs of IBAN characters leave only IBAN characters. */
  lemma AssembledChars(cc: string, cd: string, bban: string)
    requires AllIbanChars(cc) && AllDigits(cd) && AllIbanChars(bban)
    ensures AllIbanChars(cc + cd + bban)
  {
    var iban := cc + cd + bban;
    forall i | 0 <= i < |iban| ensures IsIbanChar(iban[i]) {
      if |cc| <= i < |cc| + |cd| {
        assert iban[i] == cd[i - |cc|];
      }
    }
  }

  /**
   * An IBAN assembled the ISO 13616 way (country code, generated check
   * digits, BBAN) is made of IBAN characters and passes the linter's
   * checksum.
   */
  lemma GeneratedIbanPassesChecksum(cc: string, bban: string)
    requires |cc| == 2 && AllIbanChars(cc) && AllIbanChars(bban)
    ensures |cc + Encode(CheckDigits(cc, bban), 2) + bban| >= 4
    ensures AllIbanChars(cc + Encode(CheckDigits(cc, bban), 2) + bban)
    ensures ChecksumHolds(cc + Encode(CheckDigits(cc, bban), 2) + bban)
  {
    var cd := Encode(CheckDigits(cc, bban), 2);
    CheckDigitsBringRemainderToOne(cc, bban);
    RotateOfAssembled(cc, cd, bban);
    AssembledChars(cc, cd, bban);
  }
}
