/**
 * The `iso3166` linter (lint_iso3166.c): the data must be an ISO 3166-1
 * "num-3" country code.  Membership is decided by a binary search over a
 * built-in, strictly ascending table, or by a custom lookup substituted at
 * build time.
 */
module Iso3166 {
  import opened CStr
  import opened LintResult
  import opened SearchUtils

  /*
   * The built-in table of num-3 codes, one constant per source row, in the
   * order of the source.  Rows longer than eight entries are written as two
   * halves so that each literal is small enough to check on its own.
   */
  const Row00a: seq<string> := ["004", "008", "010", "012", "016", "020", "024"]
  const Row00b: seq<string> := ["028", "031", "032", "036", "040", "044", "048"]
  const Row00: seq<string> := Row00a + Row00b
  const Row01a: seq<string> := ["050", "051", "052", "056", "060", "064", "068", "070"]
  const Row01b: seq<string> := ["072", "074", "076", "084", "086", "090", "092", "096"]
  const Row01: seq<string> := Row01a + Row01b
  const Row02a: seq<string> := ["100", "104", "108", "112", "116", "120"]
  const Row02b: seq<string> := ["124", "132", "136", "140", "144", "148"]
  const Row02: seq<string> := Row02a + Row02b
  const Row03a: seq<string> := ["152", "156", "158", "162", "166", "170", "174", "175"]
  const Row03b: seq<string> := ["178", "180", "184", "188", "191", "192", "196"]
  const Row03: seq<string> := Row03a + Row03b
  const Row04a: seq<string> := ["203", "204", "208", "212", "214", "218", "222", "226", "231"]
  const Row04b: seq<string> := ["232", "233", "234", "238", "239", "242", "246", "248"]
  const Row04: seq<string> := Row04a + Row04b
  const Row05a: seq<string> := ["250", "254", "258", "260", "262", "266", "268"]
  const Row05b: seq<string> := ["270", "275", "276", "288", "292", "296"]
  const Row05: seq<string> := Row05a + Row05b
  const Row06a: seq<string> := ["300", "304", "308", "312", "316", "320", "324"]
  const Row06b: seq<string> := ["328", "332", "334", "336", "340", "344", "348"]
  const Row06: seq<string> := Row06a + Row06b
  const Row07a: seq<string> := ["352", "356", "360", "364", "368", "372"]
  const Row07b: seq<string> := ["376", "380", "384", "388", "392", "398"]
  const Row07: seq<string> := Row07a + Row07b
  const Row08a: seq<string> := ["400", "404", "408", "410", "414", "417", "418", "422"]
  const Row08b: seq<string> := ["426", "428", "430", "434", "438", "440", "442", "446"]
  const Row08: seq<string> := Row08a + Row08b
  const Row09a: seq<string> := ["450", "454", "458", "462", "466", "470", "474"]
  const Row09b: seq<string> := ["478", "480", "484", "492", "496", "498", "499"]
  const Row09: seq<string> := Row09a + Row09b
  const Row10a: seq<string> := ["500", "504", "508", "512", "516", "520", "524"]
  const Row10b: seq<string> := ["528", "531", "533", "534", "535", "540", "548"]
  const Row10: seq<string> := Row10a + Row10b
  const Row11a: seq<string> := ["554", "558", "562", "566", "570", "574", "578", "580"]
  const Row11b: seq<string> := ["581", "583", "584", "585", "586", "591", "598"]
  const Row11: seq<string> := Row11a + Row11b
  const Row12a: seq<string> := ["600", "604", "608", "612", "616", "620", "624"]
  const Row12b: seq<string> := ["626", "630", "634", "638", "642", "643", "646"]
  const Row12: seq<string> := Row12a + Row12b
  const Row13a: seq<string> := ["652", "654", "659", "660", "662", "663", "666", "670"]
  const Row13b: seq<string> := ["674", "678", "682", "686", "688", "690", "694"]
  const Row13: seq<string> := Row13a + Row13b
  const Row14a: seq<string> := ["702", "703", "704", "705", "706", "710", "716"]
  const Row14b: seq<string> := ["724", "728", "729", "732", "740", "744", "748"]
  const Row14: seq<string> := Row14a + Row14b
  const Row15a: seq<string> := ["752", "756", "760", "762", "764", "768", "772", "776"]
  const Row15b: seq<string> := ["780", "784", "788", "792", "795", "796", "798"]
  const Row15: seq<string> := Row15a + Row15b
  const Row16a: seq<string> := ["800", "804", "807", "818", "826"]
  const Row16b: seq<string> := ["831", "832", "833", "834", "840"]
  const Row16: seq<string> := Row16a + Row16b
  const Row17a: seq<string> := ["850", "854", "858", "860", "862"]
  const Row17b: seq<string> := ["876", "882", "887", "894"]
  const Row17: seq<string> := Row17a + Row17b

  const Table: seq<string> :=
    (Row00 + Row01 + Row02 + Row03 + Row04 + Row05)
    + (Row06 + Row07 + Row08 + Row09 + Row10 + Row11)
    + (Row12 + Row13 + Row14 + Row15 + Row16 + Row17)

  /**
   * strcmp order on two three-character strings, spelled out character by
   * character so that a literal block can be checked without unfolding
   * StrCmp; Below3IsStrCmpOrder connects the two.
   */
  predicate Below3(a: string, b: string) {
    |a| == 3 && |b| == 3 &&
    (a[0] < b[0] || (a[0] == b[0] && (a[1] < b[1] || (a[1] == b[1] && a[2] < b[2]))))
  }

  /** A three-digit code, spelled out character by character. */
  predicate IsNum3(s: string) {
    |s| == 3 && IsDigit(s[0]) && IsDigit(s[1]) && IsDigit(s[2])
  }

  /** Every entry is a three-digit code. */
  predicate ThreeDigitCodes(t: seq<string>) {
    forall i :: 0 <= i < |t| ==> IsNum3(t[i])
  }

  lemma IsNum3IsThreeDigits(s: string)
    requires IsNum3(s)
    ensures |s| == 3 && AllDigits(s)
  {
  }

  /** Each entry is a three-digit code strictly above its predecessor. */
  predicate WellFormedBlock(t: seq<string>) {
    forall i :: 0 <= i < |t| ==> IsNum3(t[i]) && (i > 0 ==> Below3(t[i - 1], t[i]))
  }

  lemma Below3IsStrCmpOrder(a: string, b: string)
    requires Below3(a, b)
    ensures StrCmp(a, b) < 0
  {
    if a[0] == b[0] {
      assert StrCmp(a, b) == StrCmp(a[1..], b[1..]);
      if a[1] == b[1] {
        assert a[1..][1..] == a[2..] && b[1..][1..] == b[2..];
        assert StrCmp(a[1..], b[1..]) == StrCmp(a[2..], b[2..]);
        assert a[2..][0] == a[2] && b[2..][0] == b[2];
      }
    }
  }

  lemma WellFormedBlockConcat(a: seq<string>, b: seq<string>)
    requires WellFormedBlock(a) && WellFormedBlock(b)
    requires a != [] && b != [] && Below3(a[|a| - 1], b[0])
    ensures WellFormedBlock(a + b)
    ensures |a + b| == |a| + |b| && (a + b)[0] == a[0] && (a + b)[|a + b| - 1] == b[|b| - 1]
  {
  }

  /** A well-formed block is strictly ascending under strcmp and holds only three-digit codes. */
  lemma WellFormedBlockIsSortedCodes(t: seq<string>)
    requires WellFormedBlock(t)
    ensures StrictlySorted(t) && ThreeDigitCodes(t)
  {
    forall i | 0 < i < |t| ensures StrCmp(t[i - 1], t[i]) < 0 {
      Below3IsStrCmpOrder(t[i - 1], t[i]);
    }
    AdjacentAscendingIsStrictlySorted(t);
  }

  lemma Row00aWellFormed()
    ensures |Row00a| == 7 && WellFormedBlock(Row00a)
    ensures Row00a[0] == "004" && Row00a[6] == "024"
  {
  }

  lemma Row00bWellFormed()
    ensures |Row00b| == 7 && WellFormedBlock(Row00b)
    ensures Row00b[0] == "028" && Row00b[6] == "048"
  {
  }

  lemma Row00WellFormed()
    ensures |Row00| == 14 && WellFormedBlock(Row00)
    ensures Row00[0] == "004" && Row00[13] == "048"
  {
    Row00aWellFormed();
    Row00bWellFormed();
    WellFormedBlockConcat(Row00a, Row00b);
  }

  lemma Row01aWellFormed()
    ensures |Row01a| == 8 && WellFormedBlock(Row01a)
    ensures Row01a[0] == "050" && Row01a[7] == "070"
  {
  }

  lemma Row01bWellFormed()
    ensures |Row01b| == 8 && WellFormedBlock(Row01b)
    ensures Row01b[0] == "072" && Row01b[7] == "096"
  {
  }

  lemma Row01WellFormed()
    ensures |Row01| == 16 && WellFormedBlock(Row01)
    ensures Row01[0] == "050" && Row01[15] == "096"
  {
    Row01aWellFormed();
    Row01bWellFormed();
    WellFormedBlockConcat(Row01a, Row01b);
  }

  lemma Row02aWellFormed()
    ensures |Row02a| == 6 && WellFormedBlock(Row02a)
    ensures Row02a[0] == "100" && Row02a[5] == "120"
  {
  }

  lemma Row02bWellFormed()
    ensures |Row02b| == 6 && WellFormedBlock(Row02b)
    ensures Row02b[0] == "124" && Row02b[5] == "148"
  {
  }

  lemma Row02WellFormed()
    ensures |Row02| == 12 && WellFormedBlock(Row02)
    ensures Row02[0] == "100" && Row02[11] == "148"
  {
    Row02aWellFormed();
    Row02bWellFormed();
    WellFormedBlockConcat(Row02a, Row02b);
  }

  lemma Row03aWellFormed()
    ensures |Row03a| == 8 && WellFormedBlock(Row03a)
    ensures Row03a[0] == "152" && Row03a[7] == "175"
  {
  }

  lemma Row03bWellFormed()
    ensures |Row03b| == 7 && WellFormedBlock(Row03b)
    ensures Row03b[0] == "178" && Row03b[6] == "196"
  {
  }

  lemma Row03WellFormed()
    ensures |Row03| == 15 && WellFormedBlock(Row03)
    ensures Row03[0] == "152" && Row03[14] == "196"
  {
    Row03aWellFormed();
    Row03bWellFormed();
    WellFormedBlockConcat(Row03a, Row03b);
  }

  lemma Row04aWellFormed()
    ensures |Row04a| == 9 && WellFormedBlock(Row04a)
    ensures Row04a[0] == "203" && Row04a[8] == "231"
  {
  }

  lemma Row04bWellFormed()
    ensures |Row04b| == 8 && WellFormedBlock(Row04b)
    ensures Row04b[0] == "232" && Row04b[7] == "248"
  {
  }

  lemma Row04WellFormed()
    ensures |Row04| == 17 && WellFormedBlock(Row04)
    ensures Row04[0] == "203" && Row04[16] == "248"
  {
    Row04aWellFormed();
    Row04bWellFormed();
    WellFormedBlockConcat(Row04a, Row04b);
  }

  lemma Row05aWellFormed()
    ensures |Row05a| == 7 && WellFormedBlock(Row05a)
    ensures Row05a[0] == "250" && Row05a[6] == "268"
  {
  }

  lemma Row05bWellFormed()
    ensures |Row05b| == 6 && WellFormedBlock(Row05b)
    ensures Row05b[0] == "270" && Row05b[5] == "296"
  {
  }

  lemma Row05WellFormed()
    ensures |Row05| == 13 && WellFormedBlock(Row05)
    ensures Row05[0] == "250" && Row05[12] == "296"
  {
    Row05aWellFormed();
    Row05bWellFormed();
    WellFormedBlockConcat(Row05a, Row05b);
  }

  lemma Row06aWellFormed()
    ensures |Row06a| == 7 && WellFormedBlock(Row06a)
    ensures Row06a[0] == "300" && Row06a[6] == "324"
  {
  }

  lemma Row06bWellFormed()
    ensures |Row06b| == 7 && WellFormedBlock(Row06b)
    ensures Row06b[0] == "328" && Row06b[6] == "348"
  {
  }

  lemma Row06WellFormed()
    ensures |Row06| == 14 && WellFormedBlock(Row06)
    ensures Row06[0] == "300" && Row06[13] == "348"
  {
    Row06aWellFormed();
    Row06bWellFormed();
    WellFormedBlockConcat(Row06a, Row06b);
  }

  lemma Row07aWellFormed()
    ensures |Row07a| == 6 && WellFormedBlock(Row07a)
    ensures Row07a[0] == "352" && Row07a[5] == "372"
  {
  }

  lemma Row07bWellFormed()
    ensures |Row07b| == 6 && WellFormedBlock(Row07b)
    ensures Row07b[0] == "376" && Row07b[5] == "398"
  {
  }

  lemma Row07WellFormed()
    ensures |Row07| == 12 && WellFormedBlock(Row07)
    ensures Row07[0] == "352" && Row07[11] == "398"
  {
    Row07aWellFormed();
    Row07bWellFormed();
    WellFormedBlockConcat(Row07a, Row07b);
  }

  lemma Row08aWellFormed()
    ensures |Row08a| == 8 && WellFormedBlock(Row08a)
    ensures Row08a[0] == "400" && Row08a[7] == "422"
  {
  }

  lemma Row08bWellFormed()
    ensures |Row08b| == 8 && WellFormedBlock(Row08b)
    ensures Row08b[0] == "426" && Row08b[7] == "446"
  {
  }

  lemma Row08WellFormed()
    ensures |Row08| == 16 && WellFormedBlock(Row08)
    ensures Row08[0] == "400" && Row08[15] == "446"
  {
    Row08aWellFormed();
    Row08bWellFormed();
    WellFormedBlockConcat(Row08a, Row08b);
  }

  lemma Row09aWellFormed()
    ensures |Row09a| == 7 && WellFormedBlock(Row09a)
    ensures Row09a[0] == "450" && Row09a[6] == "474"
  {
  }

  lemma Row09bWellFormed()
    ensures |Row09b| == 7 && WellFormedBlock(Row09b)
    ensures Row09b[0] == "478" && Row09b[6] == "499"
  {
  }

  lemma Row09WellFormed()
    ensures |Row09| == 14 && WellFormedBlock(Row09)
    ensures Row09[0] == "450" && Row09[13] == "499"
  {
    Row09aWellFormed();
    Row09bWellFormed();
    WellFormedBlockConcat(Row09a, Row09b);
  }

  lemma Row10aWellFormed()
    ensures |Row10a| == 7 && WellFormedBlock(Row10a)
    ensures Row10a[0] == "500" && Row10a[6] == "524"
  {
  }

  lemma Row10bWellFormed()
    ensures |Row10b| == 7 && WellFormedBlock(Row10b)
    ensures Row10b[0] == "528" && Row10b[6] == "548"
  {
  }

  lemma Row10WellFormed()
    ensures |Row10| == 14 && WellFormedBlock(Row10)
    ensures Row10[0] == "500" && Row10[13] == "548"
  {
    Row10aWellFormed();
    Row10bWellFormed();
    WellFormedBlockConcat(Row10a, Row10b);
  }

  lemma Row11aWellFormed()
    ensures |Row11a| == 8 && WellFormedBlock(Row11a)
    ensures Row11a[0] == "554" && Row11a[7] == "580"
  {
  }

  lemma Row11bWellFormed()
    ensures |Row11b| == 7 && WellFormedBlock(Row11b)
    ensures Row11b[0] == "581" && Row11b[6] == "598"
  {
  }

  lemma Row11WellFormed()
    ensures |Row11| == 15 && WellFormedBlock(Row11)
    ensures Row11[0] == "554" && Row11[14] == "598"
  {
    Row11aWellFormed();
    Row11bWellFormed();
    WellFormedBlockConcat(Row11a, Row11b);
  }

  lemma Row12aWellFormed()
    ensures |Row12a| == 7 && WellFormedBlock(Row12a)
    ensures Row12a[0] == "600" && Row12a[6] == "624"
  {
  }

  lemma Row12bWellFormed()
    ensures |Row12b| == 7 && WellFormedBlock(Row12b)
    ensures Row12b[0] == "626" && Row12b[6] == "646"
  {
  }

  lemma Row12WellFormed()
    ensures |Row12| == 14 && WellFormedBlock(Row12)
    ensures Row12[0] == "600" && Row12[13] == "646"
  {
    Row12aWellFormed();
    Row12bWellFormed();
    WellFormedBlockConcat(Row12a, Row12b);
  }

  lemma Row13aWellFormed()
    ensures |Row13a| == 8 && WellFormedBlock(Row13a)
    ensures Row13a[0] == "652" && Row13a[7] == "670"
  {
  }

  lemma Row13bWellFormed()
    ensures |Row13b| == 7 && WellFormedBlock(Row13b)
    ensures Row13b[0] == "674" && Row13b[6] == "694"
  {
  }

  lemma Row13WellFormed()
    ensures |Row13| == 15 && WellFormedBlock(Row13)
    ensures Row13[0] == "652" && Row13[14] == "694"
  {
    Row13aWellFormed();
    Row13bWellFormed();
    WellFormedBlockConcat(Row13a, Row13b);
  }

  lemma Row14aWellFormed()
    ensures |Row14a| == 7 && WellFormedBlock(Row14a)
    ensures Row14a[0] == "702" && Row14a[6] == "716"
  {
  }

  lemma Row14bWellFormed()
    ensures |Row14b| == 7 && WellFormedBlock(Row14b)
    ensures Row14b[0] == "724" && Row14b[6] == "748"
  {
  }

  lemma Row14WellFormed()
    ensures |Row14| == 14 && WellFormedBlock(Row14)
    ensures Row14[0] == "702" && Row14[13] == "748"
  {
    Row14aWellFormed();
    Row14bWellFormed();
    WellFormedBlockConcat(Row14a, Row14b);
  }

  lemma Row15aWellFormed()
    ensures |Row15a| == 8 && WellFormedBlock(Row15a)
    ensures Row15a[0] == "752" && Row15a[7] == "776"
  {
  }

  lemma Row15bWellFormed()
    ensures |Row15b| == 7 && WellFormedBlock(Row15b)
    ensures Row15b[0] == "780" && Row15b[6] == "798"
  {
  }

  lemma Row15WellFormed()
    ensures |Row15| == 15 && WellFormedBlock(Row15)
    ensures Row15[0] == "752" && Row15[14] == "798"
  {
    Row15aWellFormed();
    Row15bWellFormed();
    WellFormedBlockConcat(Row15a, Row15b);
  }

  lemma Row16aWellFormed()
    ensures |Row16a| == 5 && WellFormedBlock(Row16a)
    ensures Row16a[0] == "800" && Row16a[4] == "826"
  {
  }

  lemma Row16bWellFormed()
    ensures |Row16b| == 5 && WellFormedBlock(Row16b)
    ensures Row16b[0] == "831" && Row16b[4] == "840"
  {
  }

  lemma Row16WellFormed()
    ensures |Row16| == 10 && WellFormedBlock(Row16)
    ensures Row16[0] == "800" && Row16[9] == "840"
  {
    Row16aWellFormed();
    Row16bWellFormed();
    WellFormedBlockConcat(Row16a, Row16b);
  }

  lemma Row17aWellFormed()
    ensures |Row17a| == 5 && WellFormedBlock(Row17a)
    ensures Row17a[0] == "850" && Row17a[4] == "862"
  {
  }

  lemma Row17bWellFormed()
    ensures |Row17b| == 4 && WellFormedBlock(Row17b)
    ensures Row17b[0] == "876" && Row17b[3] == "894"
  {
  }

  lemma Row17WellFormed()
    ensures |Row17| == 9 && WellFormedBlock(Row17)
    ensures Row17[0] == "850" && Row17[8] == "894"
  {
    Row17aWellFormed();
    Row17bWellFormed();
    WellFormedBlockConcat(Row17a, Row17b);
  }
  /** Rows 00 to 05 form one ascending block of three-digit codes. */
  lemma Third0WellFormed()
    ensures |Row00 + Row01 + Row02 + Row03 + Row04 + Row05| == 87 && WellFormedBlock(Row00 + Row01 + Row02 + Row03 + Row04 + Row05)
    ensures (Row00 + Row01 + Row02 + Row03 + Row04 + Row05)[0] == "004"
    ensures (Row00 + Row01 + Row02 + Row03 + Row04 + Row05)[86] == "296"
  {
    Row00WellFormed();
    Row01WellFormed();
    Row02WellFormed();
    Row03WellFormed();
    Row04WellFormed();
    Row05WellFormed();
    WellFormedBlockConcat(Row00, Row01);
    WellFormedBlockConcat(Row00 + Row01, Row02);
    WellFormedBlockConcat(Row00 + Row01 + Row02, Row03);
    WellFormedBlockConcat(Row00 + Row01 + Row02 + Row03, Row04);
    WellFormedBlockConcat(Row00 + Row01 + Row02 + Row03 + Row04, Row05);
  }

  /** Rows 06 to 11 form one ascending block of three-digit codes. */
  lemma Third1WellFormed()
    ensures |Row06 + Row07 + Row08 + Row09 + Row10 + Row11| == 85 && WellFormedBlock(Row06 + Row07 + Row08 + Row09 + Row10 + Row11)
    ensures (Row06 + Row07 + Row08 + Row09 + Row10 + Row11)[0] == "300"
    ensures (Row06 + Row07 + Row08 + Row09 + Row10 + Row11)[84] == "598"
  {
    Row06WellFormed();
    Row07WellFormed();
    Row08WellFormed();
    Row09WellFormed();
    Row10WellFormed();
    Row11WellFormed();
    WellFormedBlockConcat(Row06, Row07);
    WellFormedBlockConcat(Row06 + Row07, Row08);
    WellFormedBlockConcat(Row06 + Row07 + Row08, Row09);
    WellFormedBlockConcat(Row06 + Row07 + Row08 + Row09, Row10);
    WellFormedBlockConcat(Row06 + Row07 + Row08 + Row09 + Row10, Row11);
  }

  /** Rows 12 to 17 form one ascending block of three-digit codes. */
  lemma Third2WellFormed()
    ensures |Row12 + Row13 + Row14 + Row15 + Row16 + Row17| == 77 && WellFormedBlock(Row12 + Row13 + Row14 + Row15 + Row16 + Row17)
    ensures (Row12 + Row13 + Row14 + Row15 + Row16 + Row17)[0] == "600"
    ensures (Row12 + Row13 + Row14 + Row15 + Row16 + Row17)[76] == "894"
  {
    Row12WellFormed();
    Row13WellFormed();
    Row14WellFormed();
    Row15WellFormed();
    Row16WellFormed();
    Row17WellFormed();
    WellFormedBlockConcat(Row12, Row13);
    WellFormedBlockConcat(Row12 + Row13, Row14);
    WellFormedBlockConcat(Row12 + Row13 + Row14, Row15);
    WellFormedBlockConcat(Row12 + Row13 + Row14 + Row15, Row16);
    WellFormedBlockConcat(Row12 + Row13 + Row14 + Row15 + Row16, Row17);
  }

  /** The built-in table has 249 entries, all three-digit strings, strictly ascending under strcmp. */
  lemma TableWellFormed()
    ensures |Table| == 249
    ensures StrictlySorted(Table)
    ensures ThreeDigitCodes(Table)
  {
    Third0WellFormed();
    Third1WellFormed();
    Third2WellFormed();
    var t0 := Row00 + Row01 + Row02 + Row03 + Row04 + Row05;
    var t1 := Row06 + Row07 + Row08 + Row09 + Row10 + Row11;
    var t2 := Row12 + Row13 + Row14 + Row15 + Row16 + Row17;
    WellFormedBlockConcat(t0, t1);
    WellFormedBlockConcat(t0 + t1, t2);
    WellFormedBlockIsSortedCodes(Table);
  }

  /** The build-time lookup choice: the built-in table, or a user-supplied membership test. */
  datatype Lookup = BuiltIn | Custom(isMember: string -> bool)

  /** What the configured lookup answers for `cc`. */
  predicate IsMember(lookup: Lookup, cc: string) {
    match lookup
    case BuiltIn => LinearSearch(cc, Table)
    case Custom(isMember) => isMember(cc)
  }

  /**
   * GS1_LINTER_ISO3166_LOOKUP without a custom header: the binary search over
   * the built-in table, which decides exactly what the linear search of the
   * documentation would.
   */
  method BuiltInLookup(cc: string) returns (valid: bool)
    ensures valid <==> cc in Table
    ensures valid == LinearSearch(cc, Table)
  {
    TableWellFormed();
    LinearSearchIsMembership(cc, Table);
    valid := false;
    valid := BinarySearch(cc, Table, valid);
  }

  /**
   * gs1_lint_iso3166: OK exactly when the configured lookup accepts the
   * whole data; otherwise NOT_ISO3166 spanning the whole data.
   */
  method LintIso3166(data: string, lookup: Lookup) returns (r: LintResult)
    ensures r.Ok? <==> IsMember(lookup, data)
    ensures r.Err? ==> r == Err(NotIso3166, 0, |data|)
    ensures SpanWithin(r, data)
  {
    var valid := false;
    match lookup {
      case BuiltIn =>
        valid := BuiltInLookup(data);
      case Custom(isMember) =>
        valid := isMember(data);
    }
    if valid {
      return Ok;
    }
    return Err(NotIso3166, 0, |data|);
  }

  /**
   * With the built-in table only three-digit strings are members: input of
   * any other length, or with a non-digit, is rejected by non-membership alone.
   */
  lemma BuiltInMembersAreThreeDigits(data: string)
    requires IsMember(BuiltIn, data)
    ensures |data| == 3 && AllDigits(data)
  {
    TableWellFormed();
    LinearSearchIsMembership(data, Table);
    var i :| 0 <= i < |Table| && Table[i] == data;
    IsNum3IsThreeDigits(Table[i]);
  }
}
