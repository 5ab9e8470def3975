/** The LSN cases of the WAL-name test suite: parsing, formatting and the
    conversions between an LSN and a segment file name with an offset. */
module LsnExamples {
  import opened Wrappers
  import opened XlogErrors
  import opened Hex
  import opened SegmentNames
  import opened Lsn
  import opened NameExamples

  // Reading and printing hex numerals one digit at a time.

  /** A digit appended to a numeral: sixteen times the value, plus the digit. */
  lemma HexStep(s: string, c: char, t: string, v: nat, d: nat)
    requires IsHex(s) && HexValue(s) == v && IsHexDigit(c) && DigitValue(c) == d && t == s + [c]
    ensures IsHex(t) && HexValue(t) == v * 16 + d
  {
    assert t[..|s|] == s;
  }

  /** The last digit printed for n = 16q + d is d, after the digits printed for q. */
  lemma FixedStep(n: nat, w: nat, q: nat, d: nat, c: char, prefix: string, t: string)
    requires d < 16 && n == q * 16 + d && DigitChar(d) == c && FixedHex(q, w) == prefix && t == prefix + [c]
    ensures FixedHex(n, w + 1) == t
  {
    DivModUnique(n, 16, q, d);
  }

  /** n = 16q + d with q > 0 needs one digit more than q. */
  lemma NumDigitsStep(n: nat, q: nat, d: nat, k: nat)
    requires d < 16 && n == q * 16 + d && q >= 1 && NumDigits(q) == k
    ensures NumDigits(n) == k + 1
  {
    DivModUnique(n, 16, q, d);
  }

  // The numerals the cases use.

  lemma Hex2()
    ensures IsLsnField("2") && HexValue("2") == 2
  {
    HexStep("", '2', "2", 0, 2);
  }

  lemma Hex8300168()
    ensures IsLsnField("8300168") && HexValue("8300168") == 0x8300168
  {
    HexStep("", '8', "8", 0, 8);
    HexStep("8", '3', "83", 0x8, 3);
    HexStep("83", '0', "830", 0x83, 0);
    HexStep("830", '0', "8300", 0x830, 0);
    HexStep("8300", '1', "83001", 0x8300, 1);
    HexStep("83001", '6', "830016", 0x83001, 6);
    HexStep("830016", '8', "8300168", 0x830016, 8);
  }

  lemma HexAllOnes()
    ensures IsLsnField("FFFFFFFF") && HexValue("FFFFFFFF") == 0xFFFFFFFF
  {
    HexStep("", 'F', "F", 0, 15);
    HexStep("F", 'F', "FF", 0xF, 15);
    HexStep("FF", 'F', "FFF", 0xFF, 15);
    HexStep("FFF", 'F', "FFFF", 0xFFF, 15);
    HexStep("FFFF", 'F', "FFFFF", 0xFFFF, 15);
    HexStep("FFFFF", 'F', "FFFFFF", 0xFFFFF, 15);
    HexStep("FFFFFF", 'F', "FFFFFFF", 0xFFFFFF, 15);
    HexStep("FFFFFFF", 'F', "FFFFFFFF", 0xFFFFFFF, 15);
  }

  lemma HexZero()
    ensures IsLsnField("0") && HexValue("0") == 0
  {
    HexStep("", '0', "0", 0, 0);
  }

  lemma HexA()
    ensures IsLsnField("A") && HexValue("A") == 0xA
  {
    HexStep("", 'A', "A", 0, 10);
  }

  lemma Hex12345678()
    ensures IsLsnField("12345678") && HexValue("12345678") == 0x12345678
  {
    HexStep("", '1', "1", 0, 1);
    HexStep("1", '2', "12", 0x1, 2);
    HexStep("12", '3', "123", 0x12, 3);
    HexStep("123", '4', "1234", 0x123, 4);
    HexStep("1234", '5', "12345", 0x1234, 5);
    HexStep("12345", '6', "123456", 0x12345, 6);
    HexStep("123456", '7', "1234567", 0x123456, 7);
    HexStep("1234567", '8', "12345678", 0x1234567, 8);
  }

  // parse_lsn.

  lemma ParseLsnCase1()
    ensures ParseLsn("2/8300168") == Ok(2 * Span32 + 0x8300168)
  {
    Hex2();
    Hex8300168();
    assert "2/8300168" == "2" + ['/'] + "8300168";
    ParseJoinedFields("2", "8300168");
  }

  lemma ParseLsnCase2()
    ensures ParseLsn("FFFFFFFF/FFFFFFFF") == Ok(0xFFFFFFFF * Span32 + 0xFFFFFFFF)
  {
    HexAllOnes();
    assert "FFFFFFFF/FFFFFFFF" == "FFFFFFFF" + ['/'] + "FFFFFFFF";
    ParseJoinedFields("FFFFFFFF", "FFFFFFFF");
  }

  lemma ParseLsnCase3()
    ensures ParseLsn("0/0") == Ok(0)
  {
    HexZero();
    assert "0/0" == "0" + ['/'] + "0";
    ParseJoinedFields("0", "0");
  }

  /** Text without a slash is no LSN. */
  lemma ParseLsnCase4()
    ensures ParseLsn("DEADBEEF") == Err(ValueError)
  {
    HexFieldHasNoSlash("DEADBEEF");
    ParseLsnRejects("DEADBEEF");
  }

  // format_lsn.

  lemma FormatLsnCase()
    ensures FormatLsn(0x123456789ABCDEF) == "1234567/89ABCDEF"
  {
    HighDigits();
    LowDigits();
    FormatLsnOf(0x123456789ABCDEF, 0x1234567, 0x89ABCDEF, "1234567", "1234567/", "1234567/89ABCDEF");
  }

  /** An LSN printed from its printed high half followed by the printed low half. */
  lemma FormatLsnOf(lsn: nat, hi: nat, lo: nat, a: string, p: string, t: string)
    requires lsn == hi * Span32 + lo && lo < Span32
    requires FormatHex(hi, 0) == a && p == a + ['/'] && p + FormatHex(lo, 8) == t
    ensures FormatLsn(lsn) == t
  {
    DivModUnique(lsn, Span32, hi, lo);
  }

  /** The digit-by-digit step of FixedStep, behind a fixed prefix. */
  lemma FixedStepAfter(p: string, n: nat, w: nat, q: nat, d: nat, c: char, prefix: string, t: string)
    requires d < 16 && n == q * 16 + d && DigitChar(d) == c && p + FixedHex(q, w) == prefix && t == prefix + [c]
    ensures p + FixedHex(n, w + 1) == t
  {
    DivModUnique(n, 16, q, d);
    assert FixedHex(n, w + 1) == FixedHex(q, w) + [c];
    assert p + (FixedHex(q, w) + [c]) == (p + FixedHex(q, w)) + [c];
  }

  /** "%X" of 0x1234567. */
  lemma HighDigits()
    ensures FormatHex(0x1234567, 0) == "1234567"
  {
    NumDigitsStep(0x12, 0x1, 2, 1);
    NumDigitsStep(0x123, 0x12, 3, 2);
    NumDigitsStep(0x1234, 0x123, 4, 3);
    NumDigitsStep(0x12345, 0x1234, 5, 4);
    NumDigitsStep(0x123456, 0x12345, 6, 5);
    NumDigitsStep(0x1234567, 0x123456, 7, 6);
    FixedStep(0x1, 0, 0, 1, '1', "", "1");
    FixedStep(0x12, 1, 0x1, 2, '2', "1", "12");
    FixedStep(0x123, 2, 0x12, 3, '3', "12", "123");
    FixedStep(0x1234, 3, 0x123, 4, '4', "123", "1234");
    FixedStep(0x12345, 4, 0x1234, 5, '5', "1234", "12345");
    FixedStep(0x123456, 5, 0x12345, 6, '6', "12345", "123456");
    FixedStep(0x1234567, 6, 0x123456, 7, '7', "123456", "1234567");
  }

  /** "%08X" of 0x89ABCDEF, behind the high half and the slash. */
  lemma LowDigits()
    ensures "1234567/" + FormatHex(0x89ABCDEF, 8) == "1234567/89ABCDEF"
  {
    FormatHex32(0x89ABCDEF);
    assert "1234567/" + FixedHex(0, 0) == "1234567/";
    FixedStepAfter("1234567/", 0x8, 0, 0, 8, '8', "1234567/", "1234567/8");
    FixedStepAfter("1234567/", 0x89, 1, 0x8, 9, '9', "1234567/8", "1234567/89");
    FixedStepAfter("1234567/", 0x89A, 2, 0x89, 10, 'A', "1234567/89", "1234567/89A");
    FixedStepAfter("1234567/", 0x89AB, 3, 0x89A, 11, 'B', "1234567/89A", "1234567/89AB");
    FixedStepAfter("1234567/", 0x89ABC, 4, 0x89AB, 12, 'C', "1234567/89AB", "1234567/89ABC");
    FixedStepAfter("1234567/", 0x89ABCD, 5, 0x89ABC, 13, 'D', "1234567/89ABC", "1234567/89ABCD");
    FixedStepAfter("1234567/", 0x89ABCDE, 6, 0x89ABCD, 14, 'E', "1234567/89ABCD", "1234567/89ABCDE");
    FixedStepAfter("1234567/", 0x89ABCDEF, 7, 0x89ABCDE, 15, 'F', "1234567/89ABCDE", "1234567/89ABCDEF");
  }

  // location_to_xlogfile_name_offset and location_from_xlogfile_name_offset.

  /** A/12345678 lies 0x345678 bytes into segment 0x12 of log 0xA. */
  lemma LocationArithmetic()
    ensures 0xA12345678 / Span32 == 0xA && 0xA12345678 % Span32 == 0x12345678
    ensures 0xA12345678 % Span32 / XLogSegSize == 0x12 && 0xA12345678 % XLogSegSize == 0x345678
    ensures SegmentStart(0xA, 0x12) + 0x345678 == 0xA12345678
  {
    DivModUnique(0xA12345678, Span32, 0xA, 0x12345678);
    DivModUnique(0x12345678, XLogSegSize, 0x12, 0x345678);
    DivModUnique(0xA12345678, XLogSegSize, 0xA12, 0x345678);
  }

  lemma SegmentA12()
    ensures EncodeSegmentName(3, 0xA, 0x12) == "000000030000000A00000012"
    ensures DecodeSegmentName("000000030000000A00000012") == Ok(Segment(3, 0xA, 0x12))
  {
    DigitsA12();
    SmallSegmentName(3, 0xA, 0x12, "000000030000000A00000012");
  }

  lemma DigitsA12()
    ensures "000000030000000A00000012" == SmallField(3) + SmallField(0xA) + SmallField(0x12)
  {
  }

  lemma LocationToCase()
    ensures LocationToXlogfileNameOffset("A/12345678", 3) == Ok(XlogFileLocation("000000030000000A00000012", 0x345678))
  {
    HexA();
    Hex12345678();
    assert "A/12345678" == "A" + ['/'] + "12345678";
    ParseJoinedFields("A", "12345678");
    LocationArithmetic();
    LocationToParsed("A/12345678", 3, 0xA12345678, 0xA, 0x12, 0x345678);
    SegmentA12();
  }

  lemma LocationFromCase()
    ensures LocationFromXlogfileNameOffset("000000030000000A00000012", 0x345678) == Ok("A/12345678")
  {
    SegmentA12();
    LocationArithmetic();
    LocationFromSegment("000000030000000A00000012", 0x345678, 0xA12345678);
    LocationDigits();
  }

  /** "%X/%08X" of A/12345678. */
  lemma LocationDigits()
    ensures FormatLsn(0xA12345678) == "A/12345678"
  {
    FixedStep(0xA, 0, 0, 10, 'A', "", "A");
    Digits12345678();
    FormatLsnOf(0xA12345678, 0xA, 0x12345678, "A", "A/", "A/12345678");
  }

  /** "%08X" of 0x12345678, behind "A/". */
  lemma Digits12345678()
    ensures "A/" + FormatHex(0x12345678, 8) == "A/12345678"
  {
    FormatHex32(0x12345678);
    assert "A/" + FixedHex(0, 0) == "A/";
    FixedStepAfter("A/", 0x1, 0, 0, 1, '1', "A/", "A/1");
    FixedStepAfter("A/", 0x12, 1, 0x1, 2, '2', "A/1", "A/12");
    FixedStepAfter("A/", 0x123, 2, 0x12, 3, '3', "A/12", "A/123");
    FixedStepAfter("A/", 0x1234, 3, 0x123, 4, '4', "A/123", "A/1234");
    FixedStepAfter("A/", 0x12345, 4, 0x1234, 5, '5', "A/1234", "A/12345");
    FixedStepAfter("A/", 0x123456, 5, 0x12345, 6, '6', "A/12345", "A/123456");
    FixedStepAfter("A/", 0x1234567, 6, 0x123456, 7, '7', "A/123456", "A/1234567");
    FixedStepAfter("A/", 0x12345678, 7, 0x1234567, 8, '8', "A/1234567", "A/12345678");
  }
}
