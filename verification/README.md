# GS1 Syntax Dictionary linters in Dafny

The GS1 Syntax Dictionary ships a family of small "linters". Each one
checks one component of a GS1 Application Identifier value. It returns
GS1_LINTER_OK, or an error code together with an error span (`err_pos`,
`err_len`) that marks the offending characters. This project models these
linters and the lookup helpers they share:

- `iso3166`: an ISO 3166-1 num-3 country code. Membership is decided by a
  binary search over a built-in, strictly ascending table of 249 codes. A
  custom lookup may be substituted at build time.
- `iso3166list`: a concatenation of num-3 codes, walked three characters
  at a time.
- `iban`: an IBAN per ISO 13616-1. The check digits follow ISO/IEC 7064
  MOD 97-10.
- `yymmddhh`, `mmoptss`, `hhmm` and `latlong`: fixed-format date, time and
  coordinate values.
- `importeridx`: a single Importer Index character.
- `GS1_LINTER_BINARY_SEARCH` and `GS1_LINTER_BITFIELD_LOOKUP`: the shared
  lookup macros.

Every linter returns a `LintResult`, either `Ok` or `Err(code, pos, len)`.
The two out-parameters are folded into the error value, so an error always
carries its span. A C string is the sequence of characters before its NUL
terminator, and each `char` stands for one byte. `CStr.IsCString` names
that domain: every character is a byte from 1 to 255. The linters'
contracts hold for every string, but they describe the C behaviour only on
strings that satisfy `IsCString`.

Modules, one per source file plus shared helpers:

- `CStr`: strcmp, strspn, digit values, and strtoul on digit strings.
- `Arith`: Euclidean division facts.
- `LintResult`: the result type and error codes.
- `SearchUtils`: the two lookup macros.
- `Iso3166`, `Iso3166List`, `Iban`, `Yymmddhh`, `Mmoptss`, `Hhmm`,
  `Latlong` and `ImporterIdx`: one linter each.

The linters built from loops are methods with loop invariants:

- the binary search;
- the `iso3166list` group walk;
- the two `iban` scans.

The straight-line linters are functions.

Each linter is paired with an independent statement of what it accepts:

- a reference predicate (`IsHhmm`, `IsLatLong`, ...);
- a membership test (`LinearSearch`);
- or, for the IBAN, the big-number remainder `Mod97`, which the running
  accumulator is proved to compute.

Each linter's contract states OK iff that predicate holds. It also gives
each error code with its exact span and the order in which the checks are
applied. The span of every error lies within the data, which is the
invariant the library's fuzzer asserts.

Two things are stated but not built in:

- The `yymmdd` and ISO 3166 alpha-2 linters are passed in as functions.
  Each is constrained only to the return codes the caller asserts it can
  produce.
- The custom ISO 3166 lookup is a membership predicate carried in the
  `Lookup` value.

## Model

| member | source | states |
|---|---|---|
| SearchUtils.BinarySearch | src/gs1syntaxdictionary-utils.h:44-59 | `valid` is never lowered. It is raised only for a needle that is an entry. On a strictly ascending haystack it is raised exactly when the needle is an entry. The loop keeps `s <= e <= N` and every match inside `[s, e)`, and terminates on `e - s`. |
| SearchUtils.BitfieldLookup | src/gs1syntaxdictionary-utils.h:36-41 | Requires word `needle / w` to exist. `valid` is raised exactly when bit `needle` of the table is set, counting MSB first through the words. It is never lowered. |
| SearchUtils.WordBitAt | src/gs1syntaxdictionary-utils.h:39 | Bit `i` of a `w`-bit word, counted from the most significant bit, is the C mask test `x & (1 << (w-1) >> i)`. |
| SearchUtils.BitfieldBitAt | src/gs1syntaxdictionary-utils.h:38-39 | Bit `n` of the table's bit string is bit `n % w` of word `n / w`. |
| SearchUtils.LinearSearchIsMembership | src/lint_iso3166.c:52-53 | The linear search the documentation describes finds the needle exactly when it is an entry of the table. |
| CStr.StrCmpZeroIffEqual | src/gs1syntaxdictionary-utils.h:49-56 | strcmp reports 0, the binary search's "found" case, exactly for equal strings. |
| CStr.DigitSpan | src/lint_hhmm.c:76-80 | strspn over the digits stops at the first non-digit. It is the whole length exactly when every character is a digit. |
| Iso3166.TableWellFormed | src/lint_iso3166.c:97-116 | The built-in table has 249 entries. All are three-digit strings, and they are strictly ascending under strcmp, so there are no duplicates. |
| Iso3166.BuiltInLookup | src/lint_iso3166.c:123-138 | The built-in binary search raises `valid` exactly when the code is a table entry. This is also exactly when the documented linear search finds it. |
| Iso3166.LintIso3166 | src/lint_iso3166.c:76-163 | OK exactly when the configured lookup accepts the data (the built-in table, or the custom hook). Otherwise NOT_ISO3166 spanning the whole data, `(0, strlen(data))`. |
| Iso3166.BuiltInMembersAreThreeDigits | src/lint_iso3166.c:171-181 | With the built-in table, any accepted data is exactly three digits. Empty data, wrong lengths such as "_894" or "0000", and non-digits such as "AAA" are rejected by non-membership alone. |
| Iso3166List.LintIso3166List | src/lint_iso3166list.c:53-99 | OK exactly when the data is non-empty, its length is a multiple of 3, and every group is accepted. The first rejected group gives NOT_ISO3166 at its offset with length 3, and all earlier groups were accepted. Otherwise the leftover tail, or the empty data, is the span `(p, q - p)`. Every span lies within the data. |
| Iso3166List.ConcatOfMembersIsAccepted | src/lint_iso3166list.c:70-97 | Any non-empty run of accepted codes, written one after another, is accepted as a list. |
| Iban.CharDigitsValue | src/lint_iban.c:74-85 | An IBAN character stands for `weight - 1`: one decimal digit for 0-9, two for A-Z (A = 10 ... Z = 35). |
| Iban.StepIsRemainderOfExtension | src/lint_iban.c:142-144 | One accumulator step (`*10` or `*100`, `+ weight - 1`, `% 97`) from the remainder of a number gives the remainder of that number followed by the character's digits. |
| Iban.RunningChecksumIsMod97 | src/lint_iban.c:127-152 | The running `csum` over the characters equals the MOD 97-10 remainder of the whole number those characters spell. |
| Iban.ScanPosOfRotate | src/lint_iban.c:146-152 | The `k`-th position the do-while loop visits (from 4, wrapping to 0) is the `k`-th character of the data rotated to start at index 4. |
| Iban.ScannedValid | src/lint_iban.c:116-152 | After positions 2-3 and `k` scanned characters pass, every position visited before the next one is valid. After a full turn of `len` steps every character is valid. |
| Iban.LintIban | src/lint_iban.c:64-167 | The checks run in this order: length `<= 10` gives IBAN_TOO_SHORT `(0, len)`; a rejected country code gives ILLEGAL_IBAN_COUNTRY_CODE `(0, 2)`; the first invalid character in scan order (2, 3, then 4.. wrapping to 0, 1) gives INVALID_IBAN_CHARACTER at its position, length 1; a remainder other than 1 gives INCORRECT_IBAN_CHECKSUM `(2, 2)`. OK exactly when all pass and the rotated number is 1 mod 97. |
| Iban.CheckDigitsBringRemainderToOne | src/lint_iban.c:142-158 | Check digits `98 - (n * 100) mod 97`, computed over BBAN followed by country code (`n`), bring that number followed by the digits to remainder 1. |
| Iban.GeneratedIbanPassesChecksum | src/lint_iban.c:127-165 | An IBAN assembled the ISO 13616 way (country code, generated check digits, BBAN) consists of valid characters and leaves remainder 1, which is the condition the linter accepts. |
| Yymmddhh.LintYymmddhh | src/lint_yymmddhh.c:54-116 | Length other than 8 gives DATE_WITH_HOUR_TOO_SHORT or TOO_LONG `(0, len)`. The first non-digit gives NON_DIGIT_CHARACTER at its index. A date error from `yymmdd` is returned unchanged. An hour above 23 gives ILLEGAL_HOUR `(6, 2)`. OK exactly when all pass. Every span lies within the data. |
| Yymmddhh.DateThenHour | src/lint_yymmddhh.c:91-114 | For six date digits and hour `h`: a rejected date's error is the verdict; otherwise OK exactly when `h <= 23`. |
| Mmoptss.LintMmoptss | src/lint_mmoptss.c:53-104 | Length other than 2 or 4 gives MMSS_INVALID_LENGTH `(0, len)`. Then the first non-digit. Minutes above 59 give ILLEGAL_MINUTE `(0, 2)`. Seconds, only when present, above 59 give ILLEGAL_SECOND `(2, 2)`. OK exactly when all pass. |
| Mmoptss.AcceptsExactlyMinutes | src/lint_mmoptss.c:86-102 | A lone two-digit minute `m` is accepted exactly when `m <= 59`. |
| Mmoptss.AcceptsExactlyMinutesAndSeconds | src/lint_mmoptss.c:86-102 | Two-digit `m` and `s` are accepted exactly when both are at most 59. |
| Hhmm.LintHhmm | src/lint_hhmm.c:53-104 | Length other than 4 gives HOUR_WITH_MINUTE_TOO_SHORT or TOO_LONG `(0, len)`. Then the first non-digit. Hours above 23 give ILLEGAL_HOUR `(0, 2)`; minutes above 59, with a valid hour, give ILLEGAL_MINUTE `(2, 2)`. OK exactly when all pass. |
| Hhmm.AcceptsExactlyClockTimes | src/lint_hhmm.c:86-102 | Two-digit `h` and `m` are accepted exactly when `h <= 23` and `m <= 59`. |
| Hhmm.AcceptedIsClockTime | src/lint_hhmm.c:66-102 | Every accepted string is the two-digit rendering of a clock time. |
| Latlong.LintLatlong | src/lint_latlong.c:51-107 | Length other than 20 gives LATLONG_INVALID_LENGTH `(0, len)`. Then the first non-digit. A latitude above 1800000000 gives INVALID_LATITUDE `(0, 10)`; then a longitude above 3600000000 gives INVALID_LONGITUDE `(10, 10)`. OK exactly when all pass. |
| Latlong.AcceptsExactlyCoordinatesInRange | src/lint_latlong.c:86-105 | Ten-digit `lat` and `lon` are accepted exactly when `lat <= 1800000000` and `lon <= 3600000000`: both bounds are inclusive. |
| Latlong.LatitudeCheckedFirst | src/lint_latlong.c:86-91 | An out-of-range latitude is the error reported even when the longitude is also out of range. |
| ImporterIdx.AlphabetIsRanges | src/lint_importeridx.c:65-66 | The alphabet has 64 characters: '-', 0-9, A-Z, '_' and a-z, and nothing else. |
| ImporterIdx.LintImporterIdx | src/lint_importeridx.c:56-95 | Length other than 1 gives IMPORTER_IDX_MUST_BE_ONE_CHARACTER `(0, len)` first. Then a character outside the alphabet gives INVALID_IMPORT_IDX_CHARACTER `(0, 1)`. OK exactly for one alphabet character. |
| ImporterIdx.AcceptsExactlyAlphabet | src/lint_importeridx.c:76-93 | A single character is accepted exactly when it is '-', a digit, a letter or '_'. |

## Left out

- Width and overflow of `strtoul` in `latlong`: each part is read as the natural number its ten digits spell. A 32-bit `unsigned long` saturates at 4294967295. That is still above both bounds, so the verdicts agree.
- Integer widths elsewhere: the IBAN `csum` (below 97 before each step, so at most 9635) and the `size_t` positions never come near their limits. They are modelled as unbounded integers.
- The `assert(data)` null checks and NULL out-parameters: the data is always present and both span fields are always produced.
- C mechanics: the `strncpy`/`memcpy` copies into NUL-terminated locals become slices, and address arithmetic on `p` and `q` becomes indices.
- The `GS1_LINTER_UNLIKELY` hints and `GS1_LINTER_RETURN_*` macros carry no meaning beyond returning the code and span.
- The bodies of `gs1_lint_yymmdd` and `gs1_lint_iso3166alpha2` are not part of this model. They are parameters constrained to the return codes their callers assert. For the date linter, the span is also required to lie within the six characters.
- The contents of a user-supplied `GS1_LINTER_CUSTOM_ISO3166_LOOKUP` header: it is modelled as an arbitrary membership predicate (`Lookup.Custom`).
- The documentation of `gs1_lint_iso3166` says "linear search". The code does a binary search, and the model follows the code. The two are proved to agree (`BuiltInLookup`, `LinearSearchIsMembership`).
- The bitfield macro is used by none of the modelled linters. It is modelled over a sequence of `w`-bit words given as naturals below any width. The bit string is read from each word's low `w` bits.
- The fuzzer's "input unchanged" assertion holds trivially: the data is an immutable value.
- The IBAN test vectors in the source's unit tests are not restated as lemmas. The general check-digit lemma covers correctly generated IBANs.
- The doc comment of `gs1_lint_latlong` does not list NON_DIGIT_CHARACTER, but the code returns it, and the model follows the code.
- Bytes outside ASCII are characters like any other. The tables (`iban_weights`, the Importer Index alphabet) give them no meaning, exactly as in the source.
- `IBAN_MIN_LENGTH` is a build-time option (src/lint_iban.c:38-40). The model fixes it at its default 10 (`Iban.IbanMinLength`). A build with a value below 4 would make the C read past the terminator, so such builds are not modelled.
- Strings outside `IsCString` have no C counterpart. A character 0 would end the C string early: for "12" followed by two NULs, C sees only "12" and reports HOUR_WITH_MINUTE_TOO_SHORT, whereas the model sees four characters. Characters above 255 are not bytes. Results on such strings are outside the model.
