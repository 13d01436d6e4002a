/** The `importeridx` linter (lint_importeridx.c): a single Importer Index character. */
module ImporterIdx {
  import opened CStr
  import opened LintResult

  const UpperCase: string := "ABCDEFGHIJKLMNOPQRSTUVWXYZ"
  const LowerCase: string := "abcdefghijklmnopqrstuvwxyz"

  /** The characters an Importer Index may be, in the order of the C string constant. */
  const ImporterIdxChars: string := "-" + Digits + UpperCase + "_" + LowerCase

  lemma UpperCaseIsRange(c: char)
    ensures c in UpperCase <==> 'A' <= c <= 'Z'
  {
  }

  lemma LowerCaseIsRange(c: char)
    ensures c in LowerCase <==> 'a' <= c <= 'z'
  {
  }

  /**
   * The alphabet is 64 distinct characters: '-', the digits, the upper-case
   * letters, '_' and the lower-case letters.
   */
  lemma AlphabetIsRanges(c: char)
    ensures |ImporterIdxChars| == 64
    ensures c in ImporterIdxChars <==>
      c == '-' || '0' <= c <= '9' || 'A' <= c <= 'Z' || c == '_' || 'a' <= c <= 'z'
  {
    DigitsAreDigitRange(c);
    UpperCaseIsRange(c);
    LowerCaseIsRange(c);
  }

  /**
   * gs1_lint_importeridx: the data must be exactly one character, and that
   * character must be in the alphabet; the length is checked first.
   */
  function LintImporterIdx(data: string): (r: LintResult)
    ensures r.Ok? <==> |data| == 1 && data[0] in ImporterIdxChars
    ensures r.Err? ==> r.code in {ImporterIdxMustBeOneCharacter, InvalidImportIdxCharacter}
    ensures r == Err(ImporterIdxMustBeOneCharacter, 0, |data|) <==> |data| != 1
    ensures r == Err(InvalidImportIdxCharacter, 0, 1) <==> |data| == 1 && data[0] !in ImporterIdxChars
    ensures SpanWithin(r, data)
  {
    var len := |data|;
    if len != 1 then
      Err(ImporterIdxMustBeOneCharacter, 0, len)
    else if Strspn(data, ImporterIdxChars) != len then
      Err(InvalidImportIdxCharacter, 0, 1)
    else
      Ok
  }

  /** A single character is accepted iff it is '-', a digit, a letter or '_'. */
  lemma AcceptsExactlyAlphabet(c: char)
    ensures LintImporterIdx([c]).Ok? <==>
      c == '-' || '0' <= c <= '9' || 'A' <= c <= 'Z' || c == '_' || 'a' <= c <= 'z'
  {
    AlphabetIsRanges(c);
  }
}
