/** The name cases of the WAL-name test suite (encoding, decoding, the shard
    directory and the classifiers), each obtained from the general lemmas. */
module NameExamples {
  import opened Wrappers
  import opened XlogErrors
  import opened Hex
  import opened Text
  import opened SegmentNames

  // Evaluating "%08X" on small values.

  /** Five zeros and the three hex digits of a value below 16^3. */
  function SmallField(n: nat): string
    requires n < 0x1000
  {
    "00000" + [DigitChar(n / 256), DigitChar(n / 16 % 16), DigitChar(n % 16)]
  }

  /** Below 16^3, "%08X" is five zeros and three digits. */
  lemma ThreeDigitField(n: nat)
    requires n < 0x1000
    ensures FormatHex(n, 8) == SmallField(n)
  {
    FormatHex32(n);
    var q := n / 16;
    SixteenthOfSixteenth(n);
    assert FixedHex(n, 8) == FixedHex(q, 7) + [DigitChar(n % 16)];
    assert FixedHex(q, 7) == FixedHex(n / 256, 6) + [DigitChar(q % 16)];
    assert FixedHex(n / 256, 6) == FixedHex(0, 5) + [DigitChar(n / 256)];
  }

  /** Two divisions by 16 are one by 256. */
  lemma SixteenthOfSixteenth(n: nat)
    requires n < 0x1000
    ensures n / 16 / 16 == n / 256 < 16 && n / 256 / 16 == 0 && n / 256 % 16 == n / 256
  {
    DivModUnique(n, 256, n / 16 / 16, n / 16 % 16 * 16 + n % 16) by {
      DivModRecombine(n, 16, n / 16, n % 16);
      DivModRecombine(n / 16, 16, n / 16 / 16, n / 16 % 16);
    }
  }

  /** Encodes three small fields and reads them back. */
  lemma SmallSegmentName(tli: nat, log: nat, seg: nat, name: string)
    requires tli < 0x1000 && log < 0x1000 && seg < 0x1000
    requires name == SmallField(tli) + SmallField(log) + SmallField(seg)
    ensures EncodeSegmentName(tli, log, seg) == name
    ensures IsWalName(name)
    ensures DecodeSegmentName(name) == Ok(Segment(tli, log, seg))
  {
    ThreeDigitField(tli);
    ThreeDigitField(log);
    ThreeDigitField(seg);
    Pow16Eight();
    DecodeEncodeSegmentName(tli, log, seg);
  }

  /** A name built from three small fields is a segment name. */
  lemma SmallWalName(tli: nat, log: nat, seg: nat, name: string)
    requires tli < 0x1000 && log < 0x1000 && seg < 0x1000
    requires name == SmallField(tli) + SmallField(log) + SmallField(seg)
    ensures IsWalName(name)
  {
    SmallSegmentName(tli, log, seg, name);
  }

  /** The eight-digit field "%08X" prints for a small value is upper-case hex. */
  lemma SmallOffset(n: nat, field: string)
    requires n < 0x1000 && field == SmallField(n)
    ensures |field| == 8 && IsUpperHex(field)
  {
    SmallFieldIsHex(n);
  }

  /** Encodes a small timeline as a history name and reads it back. */
  lemma SmallHistoryName(tli: nat, name: string)
    requires tli < 0x1000 && name == SmallField(tli) + ".history"
    ensures EncodeHistoryFileName(tli) == name
    ensures IsHistoryName(name)
    ensures DecodeSegmentName(name) == Ok(TimelineOnly(tli))
  {
    ThreeDigitField(tli);
    Pow16Eight();
    DecodeEncodeHistoryFileName(tli);
  }

  /** A small value printed as an eight-digit field is upper-case hex. */
  lemma SmallFieldIsHex(n: nat)
    requires n < 0x1000
    ensures IsUpperHex(SmallField(n))
  {
    ThreeDigitField(n);
  }

  /** A bare segment name is its own basename. */
  lemma WalNameFacts(w: string)
    requires IsWalName(w)
    ensures Basename(w) == w
  {
    NoSlashInHex(w);
    BasenameOfName(w);
  }

  /** A backup label after segment w is a backup name and its own basename. */
  lemma BackupLayout(w: string, offset: string, name: string)
    requires IsWalName(w) && |offset| == 8 && IsUpperHex(offset) && name == w + "." + offset + ".backup"
    ensures Basename(name) == name && IsBackupName(name) && name[..24] == w
  {
    NoSlashInHex(w);
    NoSlashInHex(offset);
    assert name[..24] == w && name[25..33] == offset && name[33..] == ".backup";
    BasenameOfName(name);
  }

  /** A partial segment after segment w is a partial name and its own basename. */
  lemma PartialLayout(w: string, name: string)
    requires IsWalName(w) && name == w + ".partial"
    ensures Basename(name) == name && IsPartialName(name) && name[..24] == w
  {
    NoSlashInHex(w);
    assert name[..24] == w && name[24..] == ".partial";
    BasenameOfName(name);
  }

  /** A history name is its own basename. */
  lemma HistoryNameFacts(name: string)
    requires IsHistoryName(name)
    ensures Basename(name) == name
  {
    NoSlashInHex(name[..8]);
    assert name == name[..8] + ".history";
    BasenameOfName(name);
  }

  // encode_segment_name and decode_segment_name: each case encodes and decodes.

  lemma SegmentNameCase1()
    ensures EncodeSegmentName(0, 0, 0) == "000000000000000000000000"
    ensures DecodeSegmentName("000000000000000000000000") == Ok(Segment(0, 0, 0))
  {
    SmallSegmentName(0, 0, 0, "000000000000000000000000");
  }

  lemma SegmentNameCase2()
    ensures EncodeSegmentName(1, 1, 1) == "000000010000000100000001"
    ensures DecodeSegmentName("000000010000000100000001") == Ok(Segment(1, 1, 1))
  {
    SmallSegmentName(1, 1, 1, "000000010000000100000001");
  }

  lemma SegmentNameCase3()
    ensures EncodeSegmentName(10, 10, 10) == "0000000A0000000A0000000A"
    ensures DecodeSegmentName("0000000A0000000A0000000A") == Ok(Segment(10, 10, 10))
  {
    SmallSegmentName(10, 10, 10, "0000000A0000000A0000000A");
  }

  lemma SegmentNameCase4()
    ensures EncodeSegmentName(17, 17, 17) == "000000110000001100000011"
    ensures DecodeSegmentName("000000110000001100000011") == Ok(Segment(17, 17, 17))
  {
    SmallSegmentName(17, 17, 17, "000000110000001100000011");
  }

  lemma SegmentNameCase5()
    ensures EncodeSegmentName(0, 2, 1) == "000000000000000200000001"
    ensures DecodeSegmentName("000000000000000200000001") == Ok(Segment(0, 2, 1))
  {
    SmallSegmentName(0, 2, 1, "000000000000000200000001");
  }

  lemma SegmentNameCase6()
    ensures EncodeSegmentName(1, 0, 2) == "000000010000000000000002"
    ensures DecodeSegmentName("000000010000000000000002") == Ok(Segment(1, 0, 2))
  {
    SmallSegmentName(1, 0, 2, "000000010000000000000002");
  }

  lemma SegmentNameCase7()
    ensures EncodeSegmentName(2, 1, 0) == "000000020000000100000000"
    ensures DecodeSegmentName("000000020000000100000000") == Ok(Segment(2, 1, 0))
  {
    SmallSegmentName(2, 1, 0, "000000020000000100000000");
  }

  lemma DecodeBackupNameCase()
    ensures DecodeSegmentName("00000001000000000000000A" + "." + "00000020" + ".backup") == Ok(Segment(1, 0, 10))
  {
    BackupDigits();
    SmallBackupName(1, 0, 10, 0x20, "00000001000000000000000A" + "." + "00000020" + ".backup");
  }

  lemma BackupDigits()
    ensures "00000001000000000000000A" + "." + "00000020" + ".backup" ==
            SmallField(1) + SmallField(0) + SmallField(10) + "." + SmallField(0x20) + ".backup"
  {
  }

  /** Decodes a backup label built from small fields. */
  lemma SmallBackupName(tli: nat, log: nat, seg: nat, offset: nat, name: string)
    requires tli < 0x1000 && log < 0x1000 && seg < 0x1000 && offset < 0x1000
    requires name == SmallField(tli) + SmallField(log) + SmallField(seg) + "." + SmallField(offset) + ".backup"
    ensures DecodeSegmentName(name) == Ok(Segment(tli, log, seg))
  {
    var w := SmallField(tli) + SmallField(log) + SmallField(seg);
    SmallSegmentName(tli, log, seg, w);
    SmallOffset(offset, SmallField(offset));
    BackupDecodesAsSegment(w, SmallField(offset), name);
  }

  /** A backup label decodes as the segment it names. */
  lemma BackupDecodesAsSegment(w: string, offset: string, name: string)
    requires IsWalName(w) && |offset| == 8 && IsUpperHex(offset) && name == w + "." + offset + ".backup"
    ensures DecodeSegmentName(name) == DecodeSegmentName(w)
  {
    BackupLayout(w, offset, name);
    DecodeIgnoresSuffix(name);
    WalNameFacts(w);
  }

  lemma DecodeHistoryNameCase()
    ensures DecodeSegmentName("00000001.history") == Ok(TimelineOnly(1))
  {
    SmallHistoryName(1, "00000001.history");
  }

  /** Too short. */
  lemma ShortNameCase()
    ensures DecodeSegmentName("00000000000000000000000") == Err(BadXlogSegmentName("00000000000000000000000"))
    ensures HashDir("00000000000000000000000") == Err(BadXlogSegmentName("00000000000000000000000"))
    ensures !IsAnyXlogFile("00000000000000000000000")
  {
    BasenameOfName("00000000000000000000000");
  }

  /** Too long. */
  lemma LongNameCase()
    ensures DecodeSegmentName("0000000000000000000000000") == Err(BadXlogSegmentName("0000000000000000000000000"))
    ensures HashDir("0000000000000000000000000") == Err(BadXlogSegmentName("0000000000000000000000000"))
    ensures !IsAnyXlogFile("0000000000000000000000000")
  {
    BasenameOfName("0000000000000000000000000");
  }

  /** A character that is no hex digit. */
  lemma NonHexNameCase()
    ensures DecodeSegmentName("000000000000X00000000000") == Err(BadXlogSegmentName("000000000000X00000000000"))
    ensures HashDir("000000000000X00000000000") == Err(BadXlogSegmentName("000000000000X00000000000"))
    ensures !IsAnyXlogFile("000000000000X00000000000")
  {
    BasenameOfName("000000000000X00000000000");
    NonHexRejected("000000000000X00000000000", 12);
  }

  /** A name at least 24 characters long with a non-hex character among its first 24 is no WAL file name. */
  lemma NonHexRejected(path: string, i: nat)
    requires 24 <= |Basename(path)| && i < 24 && !IsUpperHexDigit(Basename(path)[i])
    ensures !IsAnyXlogFile(path)
    ensures DecodeSegmentName(path) == Err(BadXlogSegmentName(Basename(path)))
    ensures HashDir(path) == Err(BadXlogSegmentName(Basename(path)))
  {
    NonHexName(Basename(path), i);
  }

  lemma NonHexName(b: string, i: nat)
    requires 24 <= |b| && i < 24 && !IsUpperHexDigit(b[i])
    ensures !IsAnyXlogName(b)
  {
    assert b[..24][i] == b[i];
  }

  // encode_history_file_name.

  lemma HistoryNameCase1()
    ensures EncodeHistoryFileName(1) == "00000001.history"
  {
    SmallHistoryName(1, "00000001.history");
  }

  lemma HistoryNameCase2()
    ensures EncodeHistoryFileName(10) == "0000000A.history"
  {
    SmallHistoryName(10, "0000000A.history");
  }

  lemma HistoryNameCase3()
    ensures EncodeHistoryFileName(33) == "00000021.history"
  {
    SmallHistoryName(33, "00000021.history");
  }

  lemma HistoryNameCase4()
    ensures EncodeHistoryFileName(328) == "00000148.history"
  {
    SmallHistoryName(328, "00000148.history");
  }
}
