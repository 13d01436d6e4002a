/**
 * The `latlong` linter (lint_latlong.c): a WGS84 coordinate written as a
 * 10-digit latitude followed by a 10-digit longitude.
 */
module Latlong {
  import opened CStr
  import opened LintResult

  const MaxLatitude := 1800000000
  const MaxLongitude := 3600000000

  /** Twenty digits whose first ten read at most 1800000000 and whose last ten read at most 3600000000. */
  predicate IsLatLong(data: string) {
    && |data| == 20 && AllDigits(data)
    && DecimalValue(data[..10]) <= MaxLatitude && DecimalValue(data[10..]) <= MaxLongitude
  }

  /**
   * gs1_lint_latlong: checks, in order, the length, the digits, the latitude
   * and the longitude, and reports the first that fails.  Each part is read
   * as the number its ten digits spell (strtoul of the part).
   */
  function LintLatlong(data: string): (r: LintResult)
    ensures r.Ok? <==> IsLatLong(data)
    ensures r.Err? ==>
      r.code in {LatlongInvalidLength, NonDigitCharacter, InvalidLatitude, InvalidLongitude}
    ensures r == Err(LatlongInvalidLength, 0, |data|) <==> |data| != 20
    ensures r.Err? && r.code == NonDigitCharacter <==> |data| == 20 && !AllDigits(data)
    ensures r.Err? && r.code == NonDigitCharacter ==>
      r.len == 1 && r.pos < |data| && !IsDigit(data[r.pos]) && AllDigits(data[..r.pos])
    ensures r == Err(InvalidLatitude, 0, 10) <==>
      |data| == 20 && AllDigits(data) && DecimalValue(data[..10]) > MaxLatitude
    ensures r == Err(InvalidLongitude, 10, 10) <==>
      && |data| == 20 && AllDigits(data)
      && DecimalValue(data[..10]) <= MaxLatitude && DecimalValue(data[10..]) > MaxLongitude
    ensures SpanWithin(r, data)
  {
    var len := |data|;
    if len != 20 then
      Err(LatlongInvalidLength, 0, len)
    else
      var pos := DigitSpan(data);
      if pos != len then
        Err(NonDigitCharacter, pos, 1)
      else if DecimalValue(data[..10]) > MaxLatitude then
        Err(InvalidLatitude, 0, 10)
      else if DecimalValue(data[10..]) > MaxLongitude then
        Err(InvalidLongitude, 10, 10)
      else
        Ok
  }

  /**
   * Latitude `lat` and longitude `lon`, each written as ten digits, are
   * accepted iff lat <= 1800000000 and lon <= 3600000000: both bounds are inclusive.
   */
  lemma AcceptsExactlyCoordinatesInRange(lat: nat, lon: nat)
    requires lat < Pow10(10) && lon < Pow10(10)
    ensures LintLatlong(Encode(lat, 10) + Encode(lon, 10)).Ok? <==> lat <= MaxLatitude && lon <= MaxLongitude
  {
    var d := Encode(lat, 10) + Encode(lon, 10);
    assert d[..10] == Encode(lat, 10) && d[10..] == Encode(lon, 10);
    DecimalValueOfEncode(lat, 10);
    DecimalValueOfEncode(lon, 10);
  }

  /** A latitude out of range is reported even when the longitude is also out of range. */
  lemma LatitudeCheckedFirst(lat: nat, lon: nat)
    requires MaxLatitude < lat < Pow10(10) && lon < Pow10(10)
    ensures LintLatlong(Encode(lat, 10) + Encode(lon, 10)) == Err(InvalidLatitude, 0, 10)
  {
    var d := Encode(lat, 10) + Encode(lon, 10);
    assert d[..10] == Encode(lat, 10);
    assert AllDigits(d);
    DecimalValueOfEncode(lat, 10);
  }
}
