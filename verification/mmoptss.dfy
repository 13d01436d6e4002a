/** The `mmoptss` linter (lint_mmoptss.c): minutes, optionally followed by seconds. */
module Mmoptss {
  import opened CStr
  import opened LintResult

  /** MM or MMSS: two or four digits, minutes at most 59 and, when present, seconds at most 59. */
  predicate IsMmOptSs(data: string) {
    && (|data| == 2 || |data| == 4) && AllDigits(data)
    && DecimalValue(data[..2]) <= 59
    && (|data| == 4 ==> DecimalValue(data[2..]) <= 59)
  }

  /** The minute and second read digit by digit, as the C code does, are the numbers the two halves spell. */
  lemma MmssParts(data: string)
    requires |data| == 2 || |data| == 4
    ensures DecimalValue(data[..2]) == DigitValue(data[0]) * 10 + DigitValue(data[1])
    ensures |data| == 4 ==> DecimalValue(data[2..]) == DigitValue(data[2]) * 10 + DigitValue(data[3])
  {
    TwoDigitValue(data, 0);
    assert data[0..2] == data[..2];
    if |data| == 4 {
      TwoDigitValue(data, 2);
      assert data[2..4] == data[2..];
    }
  }

  /**
   * gs1_lint_mmoptss: checks, in order, the length, the digits, the minute
   * and (for four characters only) the second, and reports the first that fails.
   */
  function LintMmoptss(data: string): (r: LintResult)
    ensures r.Ok? <==> IsMmOptSs(data)
    ensures r.Err? ==>
      r.code in {MmssInvalidLength, NonDigitCharacter, IllegalMinute, IllegalSecond}
    ensures r == Err(MmssInvalidLength, 0, |data|) <==> |data| != 2 && |data| != 4
    ensures r.Err? && r.code == NonDigitCharacter <==>
      (|data| == 2 || |data| == 4) && !AllDigits(data)
    ensures r.Err? && r.code == NonDigitCharacter ==>
      r.len == 1 && r.pos < |data| && !IsDigit(data[r.pos]) && AllDigits(data[..r.pos])
    ensures r == Err(IllegalMinute, 0, 2) <==>
      (|data| == 2 || |data| == 4) && AllDigits(data) && DecimalValue(data[..2]) > 59
    ensures r == Err(IllegalSecond, 2, 2) <==>
      |data| == 4 && AllDigits(data) && DecimalValue(data[..2]) <= 59 && DecimalValue(data[2..]) > 59
    ensures SpanWithin(r, data)
  {
    var len := |data|;
    if len != 2 && len != 4 then
      Err(MmssInvalidLength, 0, len)
    else
      var pos := DigitSpan(data);
      if pos != len then
        Err(NonDigitCharacter, pos, 1)
      else
        MmssParts(data);
        if DigitValue(data[0]) * 10 + DigitValue(data[1]) > 59 then
          Err(IllegalMinute, 0, 2)
        else if len == 4 && DigitValue(data[2]) * 10 + DigitValue(data[3]) > 59 then
          Err(IllegalSecond, 2, 2)
        else
          Ok
  }

  /** Minute `m` alone, written as two digits, is accepted iff m <= 59. */
  lemma AcceptsExactlyMinutes(m: nat)
    requires m < 100
    ensures LintMmoptss(Encode(m, 2)).Ok? <==> m <= 59
  {
    assert Encode(m, 2)[..2] == Encode(m, 2);
    DecimalValueOfEncode(m, 2);
  }

  /** Minute `m` and second `s`, each written as two digits, are accepted iff both are at most 59. */
  lemma AcceptsExactlyMinutesAndSeconds(m: nat, s: nat)
    requires m < 100 && s < 100
    ensures LintMmoptss(Encode(m, 2) + Encode(s, 2)).Ok? <==> m <= 59 && s <= 59
  {
    var d := Encode(m, 2) + Encode(s, 2);
    assert d[..2] == Encode(m, 2) && d[2..] == Encode(s, 2);
    DecimalValueOfEncode(m, 2);
    DecimalValueOfEncode(s, 2);
  }
}
