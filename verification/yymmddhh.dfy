/**
 * The `yymmddhh` linter (lint_yymmddhh.c): a date as YYMMDD followed by an
 * hour.  The date part is judged by the `yymmdd` linter, which is not part
 * of this model and is taken as a parameter.
 */
module Yymmddhh {
  import opened CStr
  import opened LintResult

  /**
   * What the `yymmdd` linter may answer for six characters: OK or one of the
   * date errors, with a span inside those six characters.
   */
  predicate DateOutcome(r: LintResult, date: string) {
    && (r.Err? ==> r.code in {DateTooShort, DateTooLong, NonDigitCharacter, IllegalMonth, IllegalDay})
    && SpanWithin(r, date)
  }

  /** The hour read digit by digit, as the C code does, is the number its two characters spell. */
  lemma HourPart(data: string)
    requires |data| == 8
    ensures DecimalValue(data[6..]) == DigitValue(data[6]) * 10 + DigitValue(data[7])
  {
    TwoDigitValue(data, 6);
    assert data[6..8] == data[6..];
  }

  /**
   * gs1_lint_yymmddhh: checks, in order, the length, the digits, the date
   * (by the `yymmdd` linter, whose error is passed on unchanged) and the
   * hour, and reports the first that fails.
   */
  function LintYymmddhh(data: string, yymmdd: string -> LintResult): (r: LintResult)
    requires |data| == 8 && AllDigits(data) ==> DateOutcome(yymmdd(data[..6]), data[..6])
    ensures r.Ok? <==>
      && |data| == 8 && AllDigits(data) && yymmdd(data[..6]).Ok?
      && DecimalValue(data[6..]) <= 23
    ensures r == Err(DateWithHourTooShort, 0, |data|) <==> |data| < 8
    ensures r == Err(DateWithHourTooLong, 0, |data|) <==> |data| > 8
    ensures |data| == 8 && !AllDigits(data) ==>
      && r.Err? && r.code == NonDigitCharacter && r.len == 1 && r.pos < |data|
      && !IsDigit(data[r.pos]) && AllDigits(data[..r.pos])
    ensures |data| == 8 && AllDigits(data) && yymmdd(data[..6]).Err? ==> r == yymmdd(data[..6])
    ensures r == Err(IllegalHour, 6, 2) <==>
      |data| == 8 && AllDigits(data) && yymmdd(data[..6]).Ok? && DecimalValue(data[6..]) > 23
    ensures r.Err? ==>
      r.code in {DateWithHourTooShort, DateWithHourTooLong, NonDigitCharacter,
                 DateTooShort, DateTooLong, IllegalMonth, IllegalDay, IllegalHour}
    ensures SpanWithin(r, data)
  {
    var len := |data|;
    if len != 8 then
      Err(if len < 8 then DateWithHourTooShort else DateWithHourTooLong, 0, len)
    else
      var pos := DigitSpan(data);
      if pos != len then
        Err(NonDigitCharacter, pos, 1)
      else
        var ret := yymmdd(data[..6]);
        if ret != Ok then
          ret
        else
          HourPart(data);
          if DigitValue(data[6]) * 10 + DigitValue(data[7]) > 23 then
            Err(IllegalHour, 6, 2)
          else
            Ok
  }

  /**
   * For a six-digit date and hour `h` written as two digits, the verdict is
   * the date's error when the date is rejected, and otherwise OK iff h <= 23.
   */
  lemma DateThenHour(date: string, h: nat, yymmdd: string -> LintResult)
    requires |date| == 6 && AllDigits(date) && h < 100
    requires DateOutcome(yymmdd(date), date)
    ensures |date + Encode(h, 2)| == 8 && AllDigits(date + Encode(h, 2))
    ensures yymmdd(date).Err? ==> LintYymmddhh(date + Encode(h, 2), yymmdd) == yymmdd(date)
    ensures yymmdd(date).Ok? ==> (LintYymmddhh(date + Encode(h, 2), yymmdd).Ok? <==> h <= 23)
  {
    var d := date + Encode(h, 2);
    assert d[..6] == date && d[6..] == Encode(h, 2);
    DecimalValueOfEncode(h, 2);
  }
}
