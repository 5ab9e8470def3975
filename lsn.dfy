/** Log sequence numbers: the "hi/lo" text form of a 64-bit WAL address, and the
    conversions between an LSN and a (segment file name, byte offset) pair. */
module Lsn {
  import opened Wrappers
  import opened XlogErrors
  import opened Hex
  import opened Text
  import opened SegmentNames

  /** 2^64: every LSN is below it. */
  const Span64: nat := Span32 * Span32

  /** One side of the slash: one to eight hex digits of either case. */
  predicate IsLsnField(s: string)
  {
    1 <= |s| <= 8 && IsHex(s)
  }

  /** text is "hi/lo" with its slash at index i. */
  predicate LsnSplitAt(text: string, i: int)
  {
    0 <= i < |text| && text[i] == '/' && IsLsnField(text[..i]) && IsLsnField(text[i + 1..])
  }

  /** parse_lsn: "hi/lo" means (hi << 32) + lo, a 64-bit value; any other text is a
      ValueError. ParseLsnAt and ParseLsnRejects state which text is which. */
  function ParseLsn(text: string): (r: Result<nat, XlogError>)
    ensures r.Ok? ==> r.value < Span64
    ensures r.Err? ==> r.error == ValueError
  {
    var parts := Split(text, '/');
    SplitAtSlash(text);
    if |parts| != 2 || !IsLsnField(parts[0]) || !IsLsnField(parts[1]) then Err(ValueError)
    else
      var hi, lo := HexValue(parts[0]), HexValue(parts[1]);
      Pow16Monotone(|parts[0]|, 8);
      Pow16Monotone(|parts[1]|, 8);
      Pow16Eight();
      assert hi * Span32 + lo < Span64 by {
        assert hi + 1 <= Span32;
        assert (hi + 1) * Span32 <= Span32 * Span32;
      }
      Ok(hi * Span32 + lo)
  }

  /** Splitting at '/' yields the two sides exactly when there is one slash with an LSN field on each side. */
  lemma SplitAtSlash(text: string)
    ensures var parts := Split(text, '/');
            (|parts| == 2 && IsLsnField(parts[0]) && IsLsnField(parts[1])) <==> exists i :: LsnSplitAt(text, i)
    ensures forall i :: LsnSplitAt(text, i) ==> Split(text, '/') == [text[..i], text[i + 1..]]
  {
    var parts := Split(text, '/');
    if |parts| == 2 && IsLsnField(parts[0]) && IsLsnField(parts[1]) {
      assert Join(parts, '/') == parts[0] + ['/'] + parts[1];
      var i := |parts[0]|;
      assert text[..i] == parts[0] && text[i + 1..] == parts[1];
      assert LsnSplitAt(text, i);
    }
    forall i | LsnSplitAt(text, i) ensures Split(text, '/') == [text[..i], text[i + 1..]] {
      var a, b := text[..i], text[i + 1..];
      HexFieldHasNoSlash(a);
      HexFieldHasNoSlash(b);
      assert text == a + ['/'] + b;
      SplitAfterPiece(a, '/', b);
      SplitNoSeparator(b, '/');
    }
  }

  /** Text with a slash between two LSN fields parses to (hi << 32) + lo. */
  lemma ParseLsnAt(text: string, i: int)
    requires LsnSplitAt(text, i)
    ensures ParseLsn(text) == Ok(HexValue(text[..i]) * Span32 + HexValue(text[i + 1..]))
  {
    SplitAtSlash(text);
  }

  /** Text that is not two LSN fields around a single slash is a ValueError. */
  lemma ParseLsnRejects(text: string)
    requires forall i :: !LsnSplitAt(text, i)
    ensures ParseLsn(text) == Err(ValueError)
  {
    SplitAtSlash(text);
  }

  lemma HexFieldHasNoSlash(s: string)
    requires IsHex(s)
    ensures '/' !in s
  {
  }

  /** format_lsn: "%X/%08X" of the high and low 32 bits. */
  function FormatLsn(lsn: nat): string
  {
    FormatHex(lsn / Span32, 0) + "/" + FormatHex(lsn % Span32, 8)
  }

  /** The high half of a 64-bit LSN fits in 32 bits. */
  lemma HighHalf(lsn: nat)
    requires lsn < Span64
    ensures lsn / Span32 < Span32
  {
    DivBelow(lsn, Span32, Span32);
  }

  /** Two LSN fields joined by a slash parse to (hi << 32) + lo. */
  lemma ParseJoinedFields(hi: string, lo: string)
    requires IsLsnField(hi) && IsLsnField(lo)
    ensures ParseLsn(hi + ['/'] + lo) == Ok(HexValue(hi) * Span32 + HexValue(lo))
  {
    var text := hi + ['/'] + lo;
    assert text[..|hi|] == hi && text[|hi| + 1..] == lo;
    ParseLsnAt(text, |hi|);
  }

  /** Text whose two fields hold the high and low halves of an LSN parses to that LSN. */
  lemma ParseHalves(hi: string, lo: string, lsn: nat)
    requires IsLsnField(hi) && IsLsnField(lo)
    requires HexValue(hi) == lsn / Span32 && HexValue(lo) == lsn % Span32
    ensures ParseLsn(hi + ['/'] + lo) == Ok(lsn)
  {
    ParseJoinedFields(hi, lo);
    DivModRecombine(lsn, Span32, HexValue(hi), HexValue(lo));
  }

  /** A 32-bit value printed with "%0<w>X" for w <= 8 is a valid LSN field holding that value. */
  lemma FormattedField(n: nat, w: nat)
    requires n < Span32 && w <= 8
    ensures IsLsnField(FormatHex(n, w)) && HexValue(FormatHex(n, w)) == n
  {
    Pow16Eight();
    NumDigitsAtMost(n, 8);
    FormatHexValue(n, w);
    var s := FormatHex(n, w);
    assert IsHex(s) by {
      forall i | 0 <= i < |s| ensures IsHexDigit(s[i]) {
        assert IsUpperHexDigit(s[i]);
      }
    }
  }

  /** Every 64-bit LSN survives formatting and parsing. */
  lemma ParseFormatLsn(lsn: nat)
    requires lsn < Span64
    ensures ParseLsn(FormatLsn(lsn)) == Ok(lsn)
  {
    var hi, lo := lsn / Span32, lsn % Span32;
    HighHalf(lsn);
    FormattedField(hi, 0);
    FormattedField(lo, 8);
    var a, b := FormatHex(hi, 0), FormatHex(lo, 8);
    ParseHalves(a, b, lsn);
    assert FormatLsn(lsn) == a + ['/'] + b;
  }

  /** A byte address inside the WAL: a segment file name and an offset into it. */
  datatype XlogFileLocation = XlogFileLocation(fileName: string, fileOffset: nat)

  /** The first LSN of segment `seg` of log `log`. */
  function SegmentStart(log: nat, seg: nat): nat
  {
    log * Span32 + seg * XLogSegSize
  }

  /** location_to_xlogfile_name_offset: the segment holding an LSN on a timeline,
      and the LSN's offset into it. */
  function LocationToXlogfileNameOffset(location: string, timeline: nat): (r: Result<XlogFileLocation, XlogError>)
    ensures r.Ok? <==> ParseLsn(location).Ok?
    ensures r.Err? ==> r.error == ValueError
    ensures r.Ok? ==> r.value.fileOffset < XLogSegSize
  {
    var lsn :- ParseLsn(location);
    Ok(XlogFileLocation(EncodeSegmentName(timeline, lsn / Span32, lsn % Span32 / XLogSegSize), lsn % XLogSegSize))
  }

  /** The LSN at an offset into a named segment, as a number; a history name has no
      log to compute with. */
  function SegmentLocation(fileName: string, fileOffset: nat): (r: Result<nat, XlogError>)
    ensures r.Ok? <==> var b := Basename(fileName); IsWalName(b) || IsBackupName(b) || IsPartialName(b)
  {
    var d :- DecodeSegmentName(fileName);
    if d.TimelineOnly? then Err(TypeError)
    else Ok(SegmentStart(d.log, d.seg) + fileOffset)
  }

  /** location_from_xlogfile_name_offset: the LSN text at an offset into a segment;
      the timeline is dropped. */
  function LocationFromXlogfileNameOffset(fileName: string, fileOffset: nat): (r: Result<string, XlogError>)
    ensures r.Ok? <==> var b := Basename(fileName); IsWalName(b) || IsBackupName(b) || IsPartialName(b)
  {
    var lsn :- SegmentLocation(fileName, fileOffset);
    Ok(FormatLsn(lsn))
  }

  /** The segment named for an LSN is on the given timeline, and its start plus the
      offset is the LSN again. */
  lemma LocationAddressesLsn(location: string, timeline: nat)
    requires ParseLsn(location).Ok? && timeline < Span32
    ensures var lsn := ParseLsn(location).value;
            var loc := LocationToXlogfileNameOffset(location, timeline).value;
            var d := DecodeSegmentName(loc.fileName);
            d.Ok? && d.value.Segment? && d.value.tli == timeline &&
            d.value.seg < Span32 / XLogSegSize &&
            SegmentStart(d.value.log, d.value.seg) + loc.fileOffset == lsn
  {
    var lsn := ParseLsn(location).value;
    HighHalf(lsn);
    TwoLevelDivMod(lsn, 256, XLogSegSize);
    assert 256 * XLogSegSize == Span32;
    DecodeEncodeSegmentName(timeline, lsn / Span32, lsn % Span32 / XLogSegSize);
  }

  /** The LSN text for an offset into a segment is that of the segment's start plus the offset. */
  lemma LocationFromSegment(fileName: string, fileOffset: nat, lsn: nat)
    requires DecodeSegmentName(fileName).Ok? && DecodeSegmentName(fileName).value.Segment?
    requires var d := DecodeSegmentName(fileName).value; SegmentStart(d.log, d.seg) + fileOffset == lsn
    ensures LocationFromXlogfileNameOffset(fileName, fileOffset) == Ok(FormatLsn(lsn))
  {
    assert SegmentLocation(fileName, fileOffset) == Ok(lsn);
  }

  /** Converting an LSN to a segment and offset and back gives the LSN's canonical text. */
  lemma LocationRoundTrip(location: string, timeline: nat)
    requires ParseLsn(location).Ok? && timeline < Span32
    ensures var loc := LocationToXlogfileNameOffset(location, timeline).value;
            LocationFromXlogfileNameOffset(loc.fileName, loc.fileOffset) == Ok(FormatLsn(ParseLsn(location).value))
  {
    var lsn := ParseLsn(location).value;
    var loc := LocationToXlogfileNameOffset(location, timeline).value;
    LocationAddressesLsn(location, timeline);
    LocationFromSegment(loc.fileName, loc.fileOffset, lsn);
  }

  /** The address arithmetic undoes SegmentStart for a segment and offset in range. */
  lemma SegmentStartSplit(log: nat, seg: nat, offset: nat)
    requires log < Span32 && seg < Span32 / XLogSegSize && offset < XLogSegSize
    ensures var lsn := SegmentStart(log, seg) + offset;
            lsn < Span64 && lsn / Span32 == log && lsn % Span32 / XLogSegSize == seg && lsn % XLogSegSize == offset
  {
    var within := seg * XLogSegSize + offset;
    var lsn := SegmentStart(log, seg) + offset;
    MixedRadixBelow(seg, XLogSegSize, offset, 256);
    MixedRadixBelow(log, Span32, within, Span32);
    DivModUnique(lsn, Span32, log, within);
    DivModUnique(within, XLogSegSize, seg, offset);
    TwoLevelDivMod(lsn, 256, XLogSegSize);
  }

  /** Text that parses to an LSN locates to the segment its log and segment number
      name and to its offset into that segment. */
  lemma LocationToParsed(text: string, timeline: nat, lsn: nat, log: nat, seg: nat, offset: nat)
    requires ParseLsn(text) == Ok(lsn)
    requires lsn / Span32 == log && lsn % Span32 / XLogSegSize == seg && lsn % XLogSegSize == offset
    ensures LocationToXlogfileNameOffset(text, timeline)
            == Ok(XlogFileLocation(EncodeSegmentName(timeline, log, seg), offset))
  {
  }

  /** The text of a segment's start plus an offset inside it locates back to that
      segment, on any timeline, and to that offset. */
  lemma LocateSegmentStart(timeline: nat, log: nat, seg: nat, offset: nat)
    requires log < Span32 && seg < Span32 / XLogSegSize && offset < XLogSegSize
    ensures LocationToXlogfileNameOffset(FormatLsn(SegmentStart(log, seg) + offset), timeline)
            == Ok(XlogFileLocation(EncodeSegmentName(timeline, log, seg), offset))
  {
    SegmentStartSplit(log, seg, offset);
    LocateLsn(timeline, SegmentStart(log, seg) + offset, log, seg, offset);
  }

  /** The canonical text of a 64-bit LSN locates to the segment its log and segment
      number name and to its offset into that segment. */
  lemma LocateLsn(timeline: nat, lsn: nat, log: nat, seg: nat, offset: nat)
    requires lsn < Span64
    requires lsn / Span32 == log && lsn % Span32 / XLogSegSize == seg && lsn % XLogSegSize == offset
    ensures LocationToXlogfileNameOffset(FormatLsn(lsn), timeline)
            == Ok(XlogFileLocation(EncodeSegmentName(timeline, log, seg), offset))
  {
    ParseFormatLsn(lsn);
    LocationToParsed(FormatLsn(lsn), timeline, lsn, log, seg, offset);
  }
}
