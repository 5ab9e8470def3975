/** The generate_segment_names cases of the WAL-name test suite, each obtained
    from the general lemmas about the walk. */
module SequenceExamples {
  import opened Wrappers
  import opened XlogErrors
  import opened Hex
  import opened SegmentNames
  import opened SegmentSequence
  import opened NameExamples

  // From names to the walk.

  /** A range between two segment names of one timeline is the names of the positions
      the bounded walk visits. */
  lemma RangeWalk(begin: string, end: string, version: Option<int>, tli: nat, p: Position, e: Position)
    requires DecodeSegmentName(begin) == Ok(Segment(tli, p.log, p.seg))
    requires DecodeSegmentName(end) == Ok(Segment(tli, e.log, e.seg)) && end != ""
    ensures SegmentRange(begin, end, version) == Ok(Names(tli, RangePositions(p, e, version)))
  {
  }

  /** The first n names without an end are the names of the first n positions of the walk. */
  lemma FirstWalk(begin: string, version: Option<int>, tli: nat, p: Position, n: nat)
    requires DecodeSegmentName(begin) == Ok(Segment(tli, p.log, p.seg)) && n > 0
    ensures FirstSegments(begin, None, version, n) == Ok(Names(tli, FirstPositions(p, None, version, n)))
  {
  }

  lemma NamesOfTwo(tli: nat, p: Position, q: Position, a: string, b: string)
    requires EncodeSegmentName(tli, p.log, p.seg) == a && EncodeSegmentName(tli, q.log, q.seg) == b
    ensures Names(tli, [p, q]) == [a, b]
  {
    assert [p, q][1..] == [q];
  }

  lemma NamesOfThree(tli: nat, p: Position, q: Position, r: Position, a: string, b: string, c: string)
    requires EncodeSegmentName(tli, p.log, p.seg) == a && EncodeSegmentName(tli, q.log, q.seg) == b
    requires EncodeSegmentName(tli, r.log, r.seg) == c
    ensures Names(tli, [p, q, r]) == [a, b, c]
  {
    assert [p, q, r][1..] == [q, r];
    NamesOfTwo(tli, q, r, b, c);
  }

  lemma NamesOfFour(tli: nat, p: Position, q: Position, r: Position, s: Position, a: string, b: string, c: string, d: string)
    requires EncodeSegmentName(tli, p.log, p.seg) == a && EncodeSegmentName(tli, q.log, q.seg) == b
    requires EncodeSegmentName(tli, r.log, r.seg) == c && EncodeSegmentName(tli, s.log, s.seg) == d
    ensures Names(tli, [p, q, r, s]) == [a, b, c, d]
  {
    assert [p, q, r, s][1..] == [q, r, s];
    NamesOfThree(tli, q, r, s, b, c, d);
  }

  lemma NamesOfFive(tli: nat, p: Position, q: Position, r: Position, s: Position, t: Position,
                    a: string, b: string, c: string, d: string, e: string)
    requires EncodeSegmentName(tli, p.log, p.seg) == a && EncodeSegmentName(tli, q.log, q.seg) == b
    requires EncodeSegmentName(tli, r.log, r.seg) == c && EncodeSegmentName(tli, s.log, s.seg) == d
    requires EncodeSegmentName(tli, t.log, t.seg) == e
    ensures Names(tli, [p, q, r, s, t]) == [a, b, c, d, e]
  {
    assert [p, q, r, s, t][1..] == [q, r, s, t];
    NamesOfFour(tli, q, r, s, t, b, c, d, e);
  }

  lemma NamesOfSix(tli: nat, p: Position, q: Position, r: Position, s: Position, t: Position, u: Position,
                   a: string, b: string, c: string, d: string, e: string, f: string)
    requires EncodeSegmentName(tli, p.log, p.seg) == a && EncodeSegmentName(tli, q.log, q.seg) == b
    requires EncodeSegmentName(tli, r.log, r.seg) == c && EncodeSegmentName(tli, s.log, s.seg) == d
    requires EncodeSegmentName(tli, t.log, t.seg) == e && EncodeSegmentName(tli, u.log, u.seg) == f
    ensures Names(tli, [p, q, r, s, t, u]) == [a, b, c, d, e, f]
  {
    assert [p, q, r, s, t, u][1..] == [q, r, s, t, u];
    NamesOfFive(tli, q, r, s, t, u, b, c, d, e, f);
  }

  /** The size of a range from its ordinals. */
  lemma RangeCount(begin: string, end: string, version: Option<int>, tli: nat, p: Position, e: Position)
    requires DecodeSegmentName(begin) == Ok(Segment(tli, p.log, p.seg))
    requires DecodeSegmentName(end) == Ok(Segment(tli, e.log, e.seg)) && end != ""
    requires InLog(p, version) && InLog(e, version) && Ordinal(p, version) <= Ordinal(e, version)
    ensures SegmentRange(begin, end, version).Ok?
    ensures |SegmentRange(begin, end, version).value| == Ordinal(e, version) - Ordinal(p, version) + 1
  {
    RangeWalk(begin, end, version, tli, p, e);
    RangeOrdinals(p, e, version);
  }

  // The names the cases use, each encoded and decoded once.

  lemma Segment_1_1_FD()
    ensures EncodeSegmentName(1, 1, 0xFD) == "0000000100000001000000FD"
    ensures DecodeSegmentName("0000000100000001000000FD") == Ok(Segment(1, 1, 0xFD))
  {
    Digits_1_1_FD();
    SmallSegmentName(1, 1, 0xFD, "0000000100000001000000FD");
  }

  lemma Digits_1_1_FD()
    ensures "0000000100000001000000FD" == SmallField(1) + SmallField(1) + SmallField(0xFD)
  {
  }

  lemma Segment_1_1_FE()
    ensures EncodeSegmentName(1, 1, 0xFE) == "0000000100000001000000FE"
  {
    Digits_1_1_FE();
    SmallSegmentName(1, 1, 0xFE, "0000000100000001000000FE");
  }

  lemma Digits_1_1_FE()
    ensures "0000000100000001000000FE" == SmallField(1) + SmallField(1) + SmallField(0xFE)
  {
  }

  lemma Segment_1_1_FF()
    ensures EncodeSegmentName(1, 1, 0xFF) == "0000000100000001000000FF"
    ensures DecodeSegmentName("0000000100000001000000FF") == Ok(Segment(1, 1, 0xFF))
  {
    Digits_1_1_FF();
    SmallSegmentName(1, 1, 0xFF, "0000000100000001000000FF");
  }

  lemma Digits_1_1_FF()
    ensures "0000000100000001000000FF" == SmallField(1) + SmallField(1) + SmallField(0xFF)
  {
  }

  lemma Segment_1_2_0()
    ensures EncodeSegmentName(1, 2, 0) == "000000010000000200000000"
  {
    Digits_1_2_0();
    SmallSegmentName(1, 2, 0, "000000010000000200000000");
  }

  lemma Digits_1_2_0()
    ensures "000000010000000200000000" == SmallField(1) + SmallField(2) + SmallField(0)
  {
  }

  lemma Segment_1_2_1()
    ensures EncodeSegmentName(1, 2, 1) == "000000010000000200000001"
  {
    Digits_1_2_1();
    SmallSegmentName(1, 2, 1, "000000010000000200000001");
  }

  lemma Digits_1_2_1()
    ensures "000000010000000200000001" == SmallField(1) + SmallField(2) + SmallField(1)
  {
  }

  lemma Segment_1_2_2()
    ensures EncodeSegmentName(1, 2, 2) == "000000010000000200000002"
    ensures DecodeSegmentName("000000010000000200000002") == Ok(Segment(1, 2, 2))
  {
    Digits_1_2_2();
    SmallSegmentName(1, 2, 2, "000000010000000200000002");
  }

  lemma Digits_1_2_2()
    ensures "000000010000000200000002" == SmallField(1) + SmallField(2) + SmallField(2)
  {
  }

  lemma Segment_3_4_FD()
    ensures EncodeSegmentName(3, 4, 0xFD) == "0000000300000004000000FD"
    ensures DecodeSegmentName("0000000300000004000000FD") == Ok(Segment(3, 4, 0xFD))
  {
    Digits_3_4_FD();
    SmallSegmentName(3, 4, 0xFD, "0000000300000004000000FD");
  }

  lemma Digits_3_4_FD()
    ensures "0000000300000004000000FD" == SmallField(3) + SmallField(4) + SmallField(0xFD)
  {
  }

  lemma Segment_3_4_FE()
    ensures EncodeSegmentName(3, 4, 0xFE) == "0000000300000004000000FE"
  {
    Digits_3_4_FE();
    SmallSegmentName(3, 4, 0xFE, "0000000300000004000000FE");
  }

  lemma Digits_3_4_FE()
    ensures "0000000300000004000000FE" == SmallField(3) + SmallField(4) + SmallField(0xFE)
  {
  }

  lemma Segment_3_4_FF()
    ensures EncodeSegmentName(3, 4, 0xFF) == "0000000300000004000000FF"
  {
    Digits_3_4_FF();
    SmallSegmentName(3, 4, 0xFF, "0000000300000004000000FF");
  }

  lemma Digits_3_4_FF()
    ensures "0000000300000004000000FF" == SmallField(3) + SmallField(4) + SmallField(0xFF)
  {
  }

  lemma Segment_3_5_0()
    ensures EncodeSegmentName(3, 5, 0) == "000000030000000500000000"
  {
    Digits_3_5_0();
    SmallSegmentName(3, 5, 0, "000000030000000500000000");
  }

  lemma Digits_3_5_0()
    ensures "000000030000000500000000" == SmallField(3) + SmallField(5) + SmallField(0)
  {
  }

  lemma Segment_3_5_1()
    ensures EncodeSegmentName(3, 5, 1) == "000000030000000500000001"
  {
    Digits_3_5_1();
    SmallSegmentName(3, 5, 1, "000000030000000500000001");
  }

  lemma Digits_3_5_1()
    ensures "000000030000000500000001" == SmallField(3) + SmallField(5) + SmallField(1)
  {
  }

  lemma Segment_3_5_2()
    ensures EncodeSegmentName(3, 5, 2) == "000000030000000500000002"
  {
    Digits_3_5_2();
    SmallSegmentName(3, 5, 2, "000000030000000500000002");
  }

  lemma Digits_3_5_2()
    ensures "000000030000000500000002" == SmallField(3) + SmallField(5) + SmallField(2)
  {
  }

  lemma Segment_3_5_3()
    ensures EncodeSegmentName(3, 5, 3) == "000000030000000500000003"
  {
    Digits_3_5_3();
    SmallSegmentName(3, 5, 3, "000000030000000500000003");
  }

  lemma Digits_3_5_3()
    ensures "000000030000000500000003" == SmallField(3) + SmallField(5) + SmallField(3)
  {
  }

  lemma Segment_4_5_67()
    ensures DecodeSegmentName("000000040000000500000067") == Ok(Segment(4, 5, 0x67))
  {
    Digits_4_5_67();
    SmallSegmentName(4, 5, 0x67, "000000040000000500000067");
  }

  lemma Digits_4_5_67()
    ensures "000000040000000500000067" == SmallField(4) + SmallField(5) + SmallField(0x67)
  {
  }

  lemma Segment_4_7_67()
    ensures DecodeSegmentName("000000040000000700000067") == Ok(Segment(4, 7, 0x67))
  {
    Digits_4_7_67();
    SmallSegmentName(4, 7, 0x67, "000000040000000700000067");
  }

  lemma Digits_4_7_67()
    ensures "000000040000000700000067" == SmallField(4) + SmallField(7) + SmallField(0x67)
  {
  }

  // Bounded ranges before 9.3 skip segment FF.

  lemma LegacyRangeCase()
    ensures SegmentRange("0000000100000001000000FD", "000000010000000200000002", Some(90200)) ==
            Ok(["0000000100000001000000FD", "0000000100000001000000FE", "000000010000000200000000", "000000010000000200000001", "000000010000000200000002"])
  {
    Segment_1_1_FD();
    Segment_1_2_2();
    RangeWalk("0000000100000001000000FD", "000000010000000200000002", Some(90200), 1, Position(1, 0xFD), Position(2, 2));
    LegacyRangePositions();
    LegacyRangeNames();
  }

  lemma LegacyRangePositions()
    ensures RangePositions(Position(1, 0xFD), Position(2, 2), Some(90200)) == [Position(1, 0xFD), Position(1, 0xFE), Position(2, 0), Position(2, 1), Position(2, 2)]
  {
  }

  lemma LegacyRangeNames()
    ensures Names(1, [Position(1, 0xFD), Position(1, 0xFE), Position(2, 0), Position(2, 1), Position(2, 2)]) == ["0000000100000001000000FD", "0000000100000001000000FE", "000000010000000200000000", "000000010000000200000001", "000000010000000200000002"]
  {
    Segment_1_1_FD();
    Segment_1_1_FE();
    Segment_1_2_0();
    Segment_1_2_1();
    Segment_1_2_2();
    NamesOfFive(1, Position(1, 0xFD), Position(1, 0xFE), Position(2, 0), Position(2, 1), Position(2, 2),
               "0000000100000001000000FD", "0000000100000001000000FE", "000000010000000200000000", "000000010000000200000001", "000000010000000200000002");
  }

  lemma LegacyShortRangeCase()
    ensures SegmentRange("0000000100000001000000FD", "0000000100000001000000FF", Some(90200)) ==
            Ok(["0000000100000001000000FD", "0000000100000001000000FE"])
  {
    Segment_1_1_FD();
    Segment_1_1_FF();
    RangeWalk("0000000100000001000000FD", "0000000100000001000000FF", Some(90200), 1, Position(1, 0xFD), Position(1, 0xFF));
    LegacyShortRangePositions();
    LegacyShortRangeNames();
  }

  lemma LegacyShortRangePositions()
    ensures RangePositions(Position(1, 0xFD), Position(1, 0xFF), Some(90200)) == [Position(1, 0xFD), Position(1, 0xFE)]
  {
  }

  lemma LegacyShortRangeNames()
    ensures Names(1, [Position(1, 0xFD), Position(1, 0xFE)]) == ["0000000100000001000000FD", "0000000100000001000000FE"]
  {
    Segment_1_1_FD();
    Segment_1_1_FE();
    NamesOfTwo(1, Position(1, 0xFD), Position(1, 0xFE), "0000000100000001000000FD", "0000000100000001000000FE");
  }

  // Bounded ranges from 9.3 on use segment FF.

  lemma ModernRangeCase()
    ensures SegmentRange("0000000100000001000000FD", "000000010000000200000002", Some(90300)) ==
            Ok(["0000000100000001000000FD", "0000000100000001000000FE", "0000000100000001000000FF", "000000010000000200000000", "000000010000000200000001", "000000010000000200000002"])
  {
    Segment_1_1_FD();
    Segment_1_2_2();
    RangeWalk("0000000100000001000000FD", "000000010000000200000002", Some(90300), 1, Position(1, 0xFD), Position(2, 2));
    ModernRangePositions();
    ModernRangeNames();
  }

  lemma ModernRangePositions()
    ensures RangePositions(Position(1, 0xFD), Position(2, 2), Some(90300)) == [Position(1, 0xFD), Position(1, 0xFE), Position(1, 0xFF), Position(2, 0), Position(2, 1), Position(2, 2)]
  {
  }

  lemma ModernRangeNames()
    ensures Names(1, [Position(1, 0xFD), Position(1, 0xFE), Position(1, 0xFF), Position(2, 0), Position(2, 1), Position(2, 2)]) == ["0000000100000001000000FD", "0000000100000001000000FE", "0000000100000001000000FF", "000000010000000200000000", "000000010000000200000001", "000000010000000200000002"]
  {
    Segment_1_1_FD();
    Segment_1_1_FE();
    Segment_1_1_FF();
    Segment_1_2_0();
    Segment_1_2_1();
    Segment_1_2_2();
    NamesOfSix(1, Position(1, 0xFD), Position(1, 0xFE), Position(1, 0xFF), Position(2, 0), Position(2, 1), Position(2, 2),
               "0000000100000001000000FD", "0000000100000001000000FE", "0000000100000001000000FF", "000000010000000200000000", "000000010000000200000001", "000000010000000200000002");
  }

  lemma ShortRangeCase()
    ensures SegmentRange("0000000100000001000000FD", "0000000100000001000000FF", Some(90300)) ==
            Ok(["0000000100000001000000FD", "0000000100000001000000FE", "0000000100000001000000FF"])
  {
    Segment_1_1_FD();
    Segment_1_1_FF();
    RangeWalk("0000000100000001000000FD", "0000000100000001000000FF", Some(90300), 1, Position(1, 0xFD), Position(1, 0xFF));
    ShortRangePositions();
    ShortRangeNames();
  }

  lemma ShortRangePositions()
    ensures RangePositions(Position(1, 0xFD), Position(1, 0xFF), Some(90300)) == [Position(1, 0xFD), Position(1, 0xFE), Position(1, 0xFF)]
  {
  }

  lemma ShortRangeNames()
    ensures Names(1, [Position(1, 0xFD), Position(1, 0xFE), Position(1, 0xFF)]) == ["0000000100000001000000FD", "0000000100000001000000FE", "0000000100000001000000FF"]
  {
    Segment_1_1_FD();
    Segment_1_1_FE();
    Segment_1_1_FF();
    NamesOfThree(1, Position(1, 0xFD), Position(1, 0xFE), Position(1, 0xFF),
               "0000000100000001000000FD", "0000000100000001000000FE", "0000000100000001000000FF");
  }

  // Unbounded walks across a log boundary.

  lemma UnboundedCase()
    ensures FirstSegments("0000000300000004000000FD", None, None, 6) ==
            Ok(["0000000300000004000000FD", "0000000300000004000000FE", "0000000300000004000000FF", "000000030000000500000000", "000000030000000500000001", "000000030000000500000002"])
  {
    Segment_3_4_FD();
    FirstWalk("0000000300000004000000FD", None, 3, Position(4, 0xFD), 6);
    UnboundedPositions();
    UnboundedNames();
  }

  lemma UnboundedPositions()
    ensures FirstPositions(Position(4, 0xFD), None, None, 6) == [Position(4, 0xFD), Position(4, 0xFE), Position(4, 0xFF), Position(5, 0), Position(5, 1), Position(5, 2)]
  {
  }

  lemma UnboundedNames()
    ensures Names(3, [Position(4, 0xFD), Position(4, 0xFE), Position(4, 0xFF), Position(5, 0), Position(5, 1), Position(5, 2)]) == ["0000000300000004000000FD", "0000000300000004000000FE", "0000000300000004000000FF", "000000030000000500000000", "000000030000000500000001", "000000030000000500000002"]
  {
    Segment_3_4_FD();
    Segment_3_4_FE();
    Segment_3_4_FF();
    Segment_3_5_0();
    Segment_3_5_1();
    Segment_3_5_2();
    NamesOfSix(3, Position(4, 0xFD), Position(4, 0xFE), Position(4, 0xFF), Position(5, 0), Position(5, 1), Position(5, 2),
               "0000000300000004000000FD", "0000000300000004000000FE", "0000000300000004000000FF", "000000030000000500000000", "000000030000000500000001", "000000030000000500000002");
  }

  lemma LegacyUnboundedCase()
    ensures FirstSegments("0000000300000004000000FD", None, Some(90201), 6) ==
            Ok(["0000000300000004000000FD", "0000000300000004000000FE", "000000030000000500000000", "000000030000000500000001", "000000030000000500000002", "000000030000000500000003"])
  {
    Segment_3_4_FD();
    FirstWalk("0000000300000004000000FD", Some(90201), 3, Position(4, 0xFD), 6);
    LegacyUnboundedPositions();
    LegacyUnboundedNames();
  }

  lemma LegacyUnboundedPositions()
    ensures FirstPositions(Position(4, 0xFD), None, Some(90201), 6) == [Position(4, 0xFD), Position(4, 0xFE), Position(5, 0), Position(5, 1), Position(5, 2), Position(5, 3)]
  {
  }

  lemma LegacyUnboundedNames()
    ensures Names(3, [Position(4, 0xFD), Position(4, 0xFE), Position(5, 0), Position(5, 1), Position(5, 2), Position(5, 3)]) == ["0000000300000004000000FD", "0000000300000004000000FE", "000000030000000500000000", "000000030000000500000001", "000000030000000500000002", "000000030000000500000003"]
  {
    Segment_3_4_FD();
    Segment_3_4_FE();
    Segment_3_5_0();
    Segment_3_5_1();
    Segment_3_5_2();
    Segment_3_5_3();
    NamesOfSix(3, Position(4, 0xFD), Position(4, 0xFE), Position(5, 0), Position(5, 1), Position(5, 2), Position(5, 3),
               "0000000300000004000000FD", "0000000300000004000000FE", "000000030000000500000000", "000000030000000500000001", "000000030000000500000002", "000000030000000500000003");
  }

  // How many names lie between two segments two logs apart.

  lemma RangeCountCase()
    ensures SegmentRange("000000040000000500000067", "000000040000000700000067", None).Ok?
    ensures |SegmentRange("000000040000000500000067", "000000040000000700000067", None).value| == 513
  {
    Segment_4_5_67();
    Segment_4_7_67();
    ModernCountOrdinals();
    RangeCount("000000040000000500000067", "000000040000000700000067", None, 4, Position(5, 0x67), Position(7, 0x67));
  }

  lemma LegacyRangeCountCase()
    ensures SegmentRange("000000040000000500000067", "000000040000000700000067", Some(90201)).Ok?
    ensures |SegmentRange("000000040000000500000067", "000000040000000700000067", Some(90201)).value| == 511
  {
    Segment_4_5_67();
    Segment_4_7_67();
    LegacyCountOrdinals();
    RangeCount("000000040000000500000067", "000000040000000700000067", Some(90201), 4, Position(5, 0x67), Position(7, 0x67));
  }

  /** 256 segments per log: two logs and one segment. */
  lemma ModernCountOrdinals()
    ensures InLog(Position(5, 0x67), None) && InLog(Position(7, 0x67), None)
    ensures Ordinal(Position(7, 0x67), None) - Ordinal(Position(5, 0x67), None) + 1 == 513
  {
  }

  /** 255 segments per log before 9.3. */
  lemma LegacyCountOrdinals()
    ensures InLog(Position(5, 0x67), Some(90201)) && InLog(Position(7, 0x67), Some(90201))
    ensures Ordinal(Position(7, 0x67), Some(90201)) - Ordinal(Position(5, 0x67), Some(90201)) + 1 == 511
  {
  }
}
