/**
 * What every linter returns: GS1_LINTER_OK, or one error code together with
 * the error span (err_pos, err_len) that marks the offending characters.
 */
module LintResult {

  /** The return codes (gs1_lint_err_t) the modelled linters can produce. */
  datatype ErrorCode =
    | NotIso3166
    | NotIso3166Alpha2
    | IbanTooShort
    | IllegalIbanCountryCode
    | InvalidIbanCharacter
    | IncorrectIbanChecksum
    | NonDigitCharacter
    | DateTooShort
    | DateTooLong
    | IllegalMonth
    | IllegalDay
    | DateWithHourTooShort
    | DateWithHourTooLong
    | IllegalHour
    | IllegalMinute
    | IllegalSecond
    | MmssInvalidLength
    | HourWithMinuteTooShort
    | HourWithMinuteTooLong
    | LatlongInvalidLength
    | InvalidLatitude
    | InvalidLongitude
    | ImporterIdxMustBeOneCharacter
    | InvalidImportIdxCharacter

  /** The err_pos and err_len out-parameters are folded into the result: an error always carries its span. */
  datatype LintResult = Ok | Err(code: ErrorCode, pos: nat, len: nat)

  /**
   * The span of an error lies inside the linted data, and starts on one of
   * its characters unless it is the empty span at position 0.
   */
  predicate SpanWithin(r: LintResult, data: string) {
    r.Err? ==> r.pos + r.len <= |data| && (r.pos < |data| || r.pos == 0)
  }
}
