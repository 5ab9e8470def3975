/** The history-file cases of the WAL-name test suite. Each file lives in some
    directory `dir`; its text is written out field by field, joined by the tabs
    and newlines it holds. */
module HistoryExamples {
  import opened Wrappers
  import opened XlogErrors
  import opened Text
  import opened Hex
  import opened SegmentNames
  import opened Lsn
  import opened HistoryFile
  import opened NameExamples
  import opened LsnExamples

  // How the text of a file splits into lines and fields.

  /** A line and its newline: the line, then the empty text after the newline. */
  lemma OneLine(line: string)
    requires '\n' !in line
    ensures Split(line + "\n", '\n') == [line, ""]
  {
    assert line + "\n" == line + ['\n'] + "";
    SplitAfterPiece(line, '\n', "");
  }

  /** A comment line before a record line. */
  lemma CommentThenLine(comment: string, a: string, b: string, c: string)
    requires '\n' !in comment && '\n' !in a + "\t" + b + "\t" + c
    ensures Split(comment + "\n" + a + "\t" + b + "\t" + c + "\n", '\n') == [comment, a + "\t" + b + "\t" + c, ""]
  {
    var line := a + "\t" + b + "\t" + c;
    assert comment + "\n" + a + "\t" + b + "\t" + c + "\n" == comment + ['\n'] + (line + "\n");
    SplitAfterPiece(comment, '\n', line + "\n");
    OneLine(line);
  }

  /** A comment line and an empty line before a record line. */
  lemma CommentBlankThenLine(comment: string, a: string, b: string, c: string)
    requires '\n' !in comment && '\n' !in a + "\t" + b + "\t" + c
    ensures Split(comment + "\n" + "\n" + a + "\t" + b + "\t" + c + "\n", '\n') == [comment, "", a + "\t" + b + "\t" + c, ""]
  {
    var line := a + "\t" + b + "\t" + c;
    assert comment + "\n" + "\n" + a + "\t" + b + "\t" + c + "\n" == comment + ['\n'] + ([] + ['\n'] + (line + "\n"));
    SplitAfterPiece(comment, '\n', [] + ['\n'] + (line + "\n"));
    SplitAfterPiece([], '\n', line + "\n");
    OneLine(line);
  }

  /** Fields without a newline, joined by tabs, hold no newline. */
  lemma NoNewlineInFields(a: string, b: string)
    requires '\n' !in a && '\n' !in b
    ensures '\n' !in a + "\t" + b
  {
  }

  lemma TwoFields(a: string, b: string)
    requires '\t' !in a && '\t' !in b
    ensures Split(a + "\t" + b, '\t') == [a, b]
  {
    assert a + "\t" + b == a + ['\t'] + b;
    SplitAfterPiece(a, '\t', b);
    SplitNoSeparator(b, '\t');
  }

  lemma ThreeFields(a: string, b: string, c: string)
    requires '\t' !in a && '\t' !in b && '\t' !in c
    ensures Split(a + "\t" + b + "\t" + c, '\t') == [a, b, c]
  {
    assert a + "\t" + b + "\t" + c == a + ['\t'] + (b + "\t" + c);
    SplitAfterPiece(a, '\t', b + "\t" + c);
    TwoFields(b, c);
  }

  lemma FourFields(a: string, b: string, c: string, d: string)
    requires '\t' !in a && '\t' !in b && '\t' !in c && '\t' !in d
    ensures Split(a + "\t" + b + "\t" + c + "\t" + d, '\t') == [a, b, c, d]
  {
    assert a + "\t" + b + "\t" + c + "\t" + d == a + ['\t'] + (b + "\t" + c + "\t" + d);
    SplitAfterPiece(a, '\t', b + "\t" + c + "\t" + d);
    ThreeFields(b, c, d);
  }

  // Which lines carry data.

  lemma BlankIsNoData()
    ensures !IsDataLine("")
  {
    StripUnspaced("");
  }

  /** A line that starts with '#' and is not padded with whitespace is a comment. */
  lemma CommentIsNoData(comment: string)
    requires comment != [] && comment[0] == '#' && !IsSpace(comment[|comment| - 1])
    ensures !IsDataLine(comment)
  {
    StripUnspaced(comment);
  }

  /** A line that starts with a field of digits is data, and is its own strip. */
  lemma FieldsLineIsData(line: string, first: string, last: string)
    requires IsDigits(first) && |line| >= |first| && line[..|first|] == first
    requires last != [] && |line| >= |last| && line[|line| - |last|..] == last && !IsSpace(last[|last| - 1])
    ensures Strip(line) == line && IsDataLine(line)
  {
    assert line[0] == first[0];
    assert line[|line| - 1] == last[|last| - 1];
    StripUnspaced(line);
  }

  lemma DataOfOne(line: string)
    ensures DataLines([line]) == if IsDataLine(line) then [line] else []
  {
    assert [line][..0] == [];
  }

  // Reading the lines one at a time.

  /** A line that carries no data adds no record. */
  lemma SkipLine(tli: nat, path: string, lines: seq<string>, line: string, records: seq<HistoryFileData>)
    requires ParseLines(tli, path, lines) == Ok(records) && !IsDataLine(line)
    ensures ParseLines(tli, path, lines + [line]) == Ok(records)
  {
    assert (lines + [line])[..|lines|] == lines;
  }

  /** A data line that parses adds its record. */
  lemma TakeLine(tli: nat, path: string, lines: seq<string>, line: string, records: seq<HistoryFileData>, rec: HistoryFileData)
    requires ParseLines(tli, path, lines) == Ok(records) && IsDataLine(line) && ParseHistoryLine(tli, path, line) == Ok(rec)
    ensures ParseLines(tli, path, lines + [line]) == Ok(records + [rec])
  {
    assert (lines + [line])[..|lines|] == lines;
  }

  lemma ListOfTwo<T>(a: T, b: T)
    ensures [] + [a] + [b] == [a, b]
  {
  }

  lemma ListOfThree<T>(a: T, b: T, c: T)
    ensures [] + [a] + [b] + [c] == [a, b, c]
  {
  }

  lemma ListOfFour<T>(a: T, b: T, c: T, d: T)
    ensures [] + [a] + [b] + [c] + [d] == [a, b, c, d]
  {
  }

  lemma ListOfOne<T>(a: T)
    ensures [] + [a] == [a]
  {
  }

  /** A record line and the empty text after its newline. */
  lemma ReadLineOnly(tli: nat, path: string, line: string, rec: HistoryFileData)
    requires IsDataLine(line) && ParseHistoryLine(tli, path, line) == Ok(rec)
    ensures ParseLines(tli, path, [line, ""]) == Ok([rec])
  {
    BlankIsNoData();
    TakeLine(tli, path, [], line, [], rec);
    SkipLine(tli, path, [] + [line], "", [] + [rec]);
    ListOfTwo(line, "");
    ListOfOne(rec);
  }

  /** A comment, a record line and the empty text after its newline. */
  lemma ReadCommentThenLine(tli: nat, path: string, comment: string, line: string, rec: HistoryFileData)
    requires !IsDataLine(comment) && IsDataLine(line) && ParseHistoryLine(tli, path, line) == Ok(rec)
    ensures ParseLines(tli, path, [comment, line, ""]) == Ok([rec])
  {
    BlankIsNoData();
    SkipLine(tli, path, [], comment, []);
    TakeLine(tli, path, [] + [comment], line, [], rec);
    SkipLine(tli, path, [] + [comment] + [line], "", [] + [rec]);
    ListOfThree(comment, line, "");
    ListOfOne(rec);
  }

  /** A comment, an empty line, a record line and the empty text after its newline. */
  lemma ReadCommentBlankThenLine(tli: nat, path: string, comment: string, line: string, rec: HistoryFileData)
    requires !IsDataLine(comment) && IsDataLine(line) && ParseHistoryLine(tli, path, line) == Ok(rec)
    ensures ParseLines(tli, path, [comment, "", line, ""]) == Ok([rec])
  {
    BlankIsNoData();
    SkipLine(tli, path, [], comment, []);
    SkipLine(tli, path, [] + [comment], "", []);
    TakeLine(tli, path, [] + [comment] + [""], line, [], rec);
    SkipLine(tli, path, [] + [comment] + [""] + [line], "", [] + [rec]);
    ListOfFour(comment, "", line, "");
    ListOfOne(rec);
  }

  // The fields of the record line every case uses.

  lemma ParentOne()
    ensures ParseDecimal("1") == Ok(1)
  {
    StripUnspaced("1");
    assert IsDigits("1");
  }

  lemma Hex83000168()
    ensures IsLsnField("83000168") && HexValue("83000168") == 0x83000168
  {
    HexStep("", '8', "8", 0, 8);
    HexStep("8", '3', "83", 0x8, 3);
    HexStep("83", '0', "830", 0x83, 0);
    HexStep("830", '0', "8300", 0x830, 0);
    HexStep("8300", '0', "83000", 0x8300, 0);
    HexStep("83000", '1', "830001", 0x83000, 1);
    HexStep("830001", '6', "8300016", 0x830001, 6);
    HexStep("8300016", '8', "83000168", 0x8300016, 8);
  }

  lemma SwitchpointAt()
    ensures ParseLsn("2/83000168") == Ok(0x283000168)
  {
    Hex2();
    Hex83000168();
    assert "2/83000168" == "2" + ['/'] + "83000168";
    ParseJoinedFields("2", "83000168");
  }

  /** The characters of the short fields. */
  lemma ShortFields()
    ensures IsDigits("1") && "1" != [] && !IsSpace("1"[0])
    ensures '\t' !in "1" && '\n' !in "1"
    ensures '\t' !in "2/83000168" && '\n' !in "2/83000168"
    ensures '\t' !in "test" && '\n' !in "test" && !IsSpace("test"[3])
  {
  }

  /** A record line: parent timeline, switchpoint and reason between tabs. */
  lemma RecordLine(tli: nat, path: string, parent: string, switchpoint: string, reason: string, pv: int, sv: nat)
    requires IsDigits(parent) && ParseDecimal(parent) == Ok(pv) && ParseLsn(switchpoint) == Ok(sv)
    requires reason != [] && !IsSpace(reason[0]) && !IsSpace(reason[|reason| - 1])
    requires '\t' !in parent && '\t' !in switchpoint && '\t' !in reason
    ensures var line := parent + "\t" + switchpoint + "\t" + reason;
            IsDataLine(line) && ParseHistoryLine(tli, path, line) == Ok(HistoryFileData(tli, pv, sv, reason))
  {
    var line := parent + "\t" + switchpoint + "\t" + reason;
    assert line[..|parent|] == parent;
    assert line[|line| - |reason|..] == reason;
    FieldsLineIsData(line, parent, reason);
    ThreeFields(parent, switchpoint, reason);
    StripUnspaced(reason);
  }

  /** A history file whose lines read as one record. */
  lemma OneRecordFile(path: string, content: string, tli: nat, rec: HistoryFileData)
    requires DecodeSegmentName(path) == Ok(TimelineOnly(tli))
    requires ParseLines(tli, path, Split(content, '\n')) == Ok([rec])
    ensures DecodeHistory(path, content) == Ok([rec])
  {
  }

  /** The history file of timeline tli, in directory dir. */
  lemma HistoryPath(dir: string, tli: nat, name: string)
    requires tli < 0x1000 && name == SmallField(tli) + ".history"
    ensures DecodeSegmentName(dir + "/" + name) == Ok(TimelineOnly(tli))
    ensures IsAnyXlogName(Basename(dir + "/" + name))
  {
    SmallHistoryName(tli, name);
    HistoryNameFacts(name);
    BasenameOfPath(dir, name);
  }

  lemma Timeline2()
    ensures "00000002.history" == SmallField(2) + ".history"
  {
  }

  lemma Timeline3()
    ensures "00000003.history" == SmallField(3) + ".history"
  {
  }

  lemma Timeline4()
    ensures "00000004.history" == SmallField(4) + ".history"
  {
  }

  /** Text that can stand as the reason of a record: no tab, no newline, no
      surrounding whitespace. */
  predicate IsReason(r: string)
  {
    r != [] && !IsSpace(r[0]) && !IsSpace(r[|r| - 1]) && '\t' !in r && '\n' !in r
  }

  lemma ReasonMyrp()
    ensures IsReason("at restore point \"myrp\"")
  {
  }

  lemma ReasonTestcomment()
    ensures IsReason("at restore point \"testcomment\"")
  {
  }

  lemma ReasonTestemptyline()
    ensures IsReason("testing \"testemptyline\"")
  {
  }

  lemma Comment()
    ensures !IsDataLine("# Comment") && '\n' !in "# Comment"
  {
    CommentIsNoData("# Comment");
  }

  /** The record line every case uses, with the given reason, and what it parses to. */
  lemma SwitchLine(tli: nat, path: string, reason: string)
    requires IsReason(reason)
    ensures var line := "1" + "\t" + "2/83000168" + "\t" + reason;
            IsDataLine(line) && ParseHistoryLine(tli, path, line) == Ok(HistoryFileData(tli, 1, 0x283000168, reason))
  {
    ParentOne();
    SwitchpointAt();
    ShortFields();
    RecordLine(tli, path, "1", "2/83000168", reason, 1, 0x283000168);
  }

  /** The record line holds no newline. */
  lemma SwitchLineIsOneLine(reason: string)
    requires IsReason(reason)
    ensures '\n' !in "1" + "\t" + "2/83000168" + "\t" + reason
  {
    ShortFields();
    NoNewlineInFields("1", "2/83000168");
    NoNewlineInFields("1" + "\t" + "2/83000168", reason);
  }

  // decode_history_file.

  /** A regular history file: one record, on the timeline of the file name. */
  lemma RegularHistoryCase(dir: string)
    ensures DecodeHistory(dir + "/" + "00000002.history",
                          "1" + "\t" + "2/83000168" + "\t" + "at restore point \"myrp\"" + "\n")
         == Ok([HistoryFileData(2, 1, 0x283000168, "at restore point \"myrp\"")])
  {
    var path := dir + "/" + "00000002.history";
    var reason := "at restore point \"myrp\"";
    var line := "1" + "\t" + "2/83000168" + "\t" + reason;
    var rec := HistoryFileData(2, 1, 0x283000168, reason);
    Timeline2();
    HistoryPath(dir, 2, "00000002.history");
    ReasonMyrp();
    SwitchLine(2, path, reason);
    SwitchLineIsOneLine(reason);
    OneLine(line);
    ReadLineOnly(2, path, line, rec);
    OneRecordFile(path, line + "\n", 2, rec);
  }

  /** Comment lines are passed over. */
  lemma CommentHistoryCase(dir: string)
    ensures DecodeHistory(dir + "/" + "00000003.history",
                          "# Comment" + "\n" + "1" + "\t" + "2/83000168" + "\t" + "at restore point \"testcomment\"" + "\n")
         == Ok([HistoryFileData(3, 1, 0x283000168, "at restore point \"testcomment\"")])
  {
    var path := dir + "/" + "00000003.history";
    var reason := "at restore point \"testcomment\"";
    var line := "1" + "\t" + "2/83000168" + "\t" + reason;
    var rec := HistoryFileData(3, 1, 0x283000168, reason);
    Timeline3();
    HistoryPath(dir, 3, "00000003.history");
    ReasonTestcomment();
    SwitchLine(3, path, reason);
    SwitchLineIsOneLine(reason);
    Comment();
    CommentThenLine("# Comment", "1", "2/83000168", reason);
    ReadCommentThenLine(3, path, "# Comment", line, rec);
    OneRecordFile(path, "# Comment" + "\n" + "1" + "\t" + "2/83000168" + "\t" + reason + "\n", 3, rec);
  }

  /** Comment lines and empty lines are passed over. */
  lemma BlankLineHistoryCase(dir: string)
    ensures DecodeHistory(dir + "/" + "00000004.history",
                          "# Comment" + "\n" + "\n" + "1" + "\t" + "2/83000168" + "\t" + "testing \"testemptyline\"" + "\n")
         == Ok([HistoryFileData(4, 1, 0x283000168, "testing \"testemptyline\"")])
  {
    var path := dir + "/" + "00000004.history";
    var reason := "testing \"testemptyline\"";
    var line := "1" + "\t" + "2/83000168" + "\t" + reason;
    var rec := HistoryFileData(4, 1, 0x283000168, reason);
    Timeline4();
    HistoryPath(dir, 4, "00000004.history");
    ReasonTestemptyline();
    SwitchLine(4, path, reason);
    SwitchLineIsOneLine(reason);
    Comment();
    CommentBlankThenLine("# Comment", "1", "2/83000168", reason);
    ReadCommentBlankThenLine(4, path, "# Comment", line, rec);
    OneRecordFile(path, "# Comment" + "\n" + "\n" + "1" + "\t" + "2/83000168" + "\t" + reason + "\n", 4, rec);
  }

  /** An empty file has no record, so its contents are bad. */
  lemma EmptyHistoryCase(dir: string)
    ensures DecodeHistory(dir + "/" + "00000004.history", "") == Err(BadHistoryFileContents(dir + "/" + "00000004.history"))
  {
    var path := dir + "/" + "00000004.history";
    Timeline4();
    HistoryPath(dir, 4, "00000004.history");
    BlankIsNoData();
    DataOfOne("");
    DecodeHistoryOutcome(path, "");
  }

  /** A line with one field too few makes the contents bad. */
  lemma MissingFieldCase(dir: string)
    ensures DecodeHistory(dir + "/" + "00000004.history", "1" + "\t" + "2/83000168")
         == Err(BadHistoryFileContents(dir + "/" + "00000004.history"))
  {
    var path := dir + "/" + "00000004.history";
    var line := "1" + "\t" + "2/83000168";
    Timeline4();
    HistoryPath(dir, 4, "00000004.history");
    ShortFields();
    TwoFieldLine("1", "2/83000168");
    NoNewlineInFields("1", "2/83000168");
    SplitNoSeparator(line, '\n');
    DataOfOne(line);
    WrongFieldCount(line);
    DecodeHistoryOutcome(path, line);
  }

  /** A line with one field too many makes the contents bad. */
  lemma ExtraFieldCase(dir: string)
    ensures DecodeHistory(dir + "/" + "00000004.history", "1" + "\t" + "2/83000168" + "\t" + "at restore point \"myrp\"" + "\t" + "test")
         == Err(BadHistoryFileContents(dir + "/" + "00000004.history"))
  {
    var path := dir + "/" + "00000004.history";
    var reason := "at restore point \"myrp\"";
    var line := "1" + "\t" + "2/83000168" + "\t" + reason + "\t" + "test";
    Timeline4();
    HistoryPath(dir, 4, "00000004.history");
    ShortFields();
    ReasonMyrp();
    FourFieldLine("1", "2/83000168", reason, "test");
    NoNewlineInFields("1", "2/83000168");
    NoNewlineInFields("1" + "\t" + "2/83000168", reason);
    NoNewlineInFields("1" + "\t" + "2/83000168" + "\t" + reason, "test");
    SplitNoSeparator(line, '\n');
    DataOfOne(line);
    WrongFieldCount(line);
    DecodeHistoryOutcome(path, line);
  }

  /** A lone data line without three fields is the first bad line. */
  lemma WrongFieldCount(line: string)
    requires |Fields(line)| != 3
    ensures FirstBadLine([line], 0)
  {
  }

  /** A data line of two fields. */
  lemma TwoFieldLine(a: string, b: string)
    requires IsDigits(a) && b != [] && !IsSpace(b[|b| - 1]) && '\t' !in a && '\t' !in b
    ensures var line := a + "\t" + b;
            IsDataLine(line) && |Fields(line)| == 2
  {
    var line := a + "\t" + b;
    assert line[..|a|] == a && line[|line| - |b|..] == b;
    FieldsLineIsData(line, a, b);
    TwoFields(a, b);
  }

  /** A data line of four fields. */
  lemma FourFieldLine(a: string, b: string, c: string, d: string)
    requires IsDigits(a) && d != [] && !IsSpace(d[|d| - 1]) && '\t' !in a && '\t' !in b && '\t' !in c && '\t' !in d
    ensures var line := a + "\t" + b + "\t" + c + "\t" + d;
            IsDataLine(line) && |Fields(line)| == 4
  {
    var line := a + "\t" + b + "\t" + c + "\t" + d;
    assert line[..|a|] == a && line[|line| - |d|..] == d;
    FieldsLineIsData(line, a, d);
    FourFields(a, b, c, d);
  }
}
