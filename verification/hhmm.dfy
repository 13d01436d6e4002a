/** The `hhmm` linter (lint_hhmm.c): a time of day as hours and minutes. */
module Hhmm {
  import opened CStr
  import opened LintResult

  /** Four digits whose hour part is at most 23 and whose minute part is at most 59. */
  predicate IsHhmm(data: string) {
    && |data| == 4 && AllDigits(data)
    && DecimalValue(data[..2]) <= 23 && DecimalValue(data[2..]) <= 59
  }

  /** The hour and minute read digit by digit, as the C code does, are the numbers the two halves spell. */
  lemma HhmmParts(data: string)
    requires |data| == 4
    ensures DecimalValue(data[..2]) == DigitValue(data[0]) * 10 + DigitValue(data[1])
    ensures DecimalValue(data[2..]) == DigitValue(data[2]) * 10 + DigitValue(data[3])
  {
    TwoDigitValue(data, 0);
    TwoDigitValue(data, 2);
    assert data[0..2] == data[..2] && data[2..4] == data[2..];
  }

  /**
   * gs1_lint_hhmm: checks, in order, the length, the digits, the hour and
   * the minute, and reports the first that fails.
   */
  function LintHhmm(data: string): (r: LintResult)
    ensures r.Ok? <==> IsHhmm(data)
    ensures r.Err? ==>
      r.code in {HourWithMinuteTooShort, HourWithMinuteTooLong, NonDigitCharacter, IllegalHour, IllegalMinute}
    ensures r == Err(HourWithMinuteTooShort, 0, |data|) <==> |data| < 4
    ensures r == Err(HourWithMinuteTooLong, 0, |data|) <==> |data| > 4
    ensures r.Err? && r.code == NonDigitCharacter <==> |data| == 4 && !AllDigits(data)
    ensures r.Err? && r.code == NonDigitCharacter ==>
      r.len == 1 && r.pos < |data| && !IsDigit(data[r.pos]) && AllDigits(data[..r.pos])
    ensures r == Err(IllegalHour, 0, 2) <==>
      |data| == 4 && AllDigits(data) && DecimalValue(data[..2]) > 23
    ensures r == Err(IllegalMinute, 2, 2) <==>
      |data| == 4 && AllDigits(data) && DecimalValue(data[..2]) <= 23 && DecimalValue(data[2..]) > 59
    ensures SpanWithin(r, data)
  {
    var len := |data|;
    if len != 4 then
      Err(if len < 4 then HourWithMinuteTooShort else HourWithMinuteTooLong, 0, len)
    else
      var pos := DigitSpan(data);
      if pos != len then
        Err(NonDigitCharacter, pos, 1)
      else
        HhmmParts(data);
        if DigitValue(data[0]) * 10 + DigitValue(data[1]) > 23 then
          Err(IllegalHour, 0, 2)
        else if DigitValue(data[2]) * 10 + DigitValue(data[3]) > 59 then
          Err(IllegalMinute, 2, 2)
        else
          Ok
  }

  /**
   * The accepted data are exactly the clock times: hour `h` and minute `m`,
   * each written as two digits, are accepted iff 0 <= h <= 23 and 0 <= m <= 59.
   */
  lemma AcceptsExactlyClockTimes(h: nat, m: nat)
    requires h < 100 && m < 100
    ensures LintHhmm(Encode(h, 2) + Encode(m, 2)).Ok? <==> h <= 23 && m <= 59
  {
    var s := Encode(h, 2) + Encode(m, 2);
    assert s[..2] == Encode(h, 2) && s[2..] == Encode(m, 2);
    DecimalValueOfEncode(h, 2);
    DecimalValueOfEncode(m, 2);
  }

  /** Every accepted string is the two-digit rendering of a clock time. */
  lemma AcceptedIsClockTime(data: string)
    requires LintHhmm(data).Ok?
    ensures 0 <= DecimalValue(data[..2]) <= 23 && 0 <= DecimalValue(data[2..]) <= 59
      && data == Encode(DecimalValue(data[..2]), 2) + Encode(DecimalValue(data[2..]), 2)
  {
    EncodeOfDecimalValue(data[..2]);
    EncodeOfDecimalValue(data[2..]);
    assert data == data[..2] + data[2..];
  }
}
