/** decode_history_file: the records of a timeline history file, read from its
    text. The file's own timeline comes from its name; each data line is
    `parent timeline <TAB> switchpoint LSN <TAB> reason`. */
module HistoryFile {
  import opened Wrappers
  import opened XlogErrors
  import opened Text
  import opened SegmentNames
  import opened Lsn

  /** One timeline switch: the timeline the file describes, the timeline it
      branched from, the LSN where it branched and why. */
  datatype HistoryFileData = HistoryFileData(tli: nat, parentTli: int, switchpoint: nat, reason: string)

  /** Lines that are blank or, once stripped, start with '#' carry no record. */
  predicate IsDataLine(line: string)
  {
    var t := Strip(line);
    t != [] && t[0] != '#'
  }

  predicate IsDigits(s: string)
  {
    |s| >= 1 && forall i :: 0 <= i < |s| ==> '0' <= s[i] <= '9'
  }

  /** The value of a string of decimal digits, most significant first. */
  function DecimalValue(s: string): nat
    requires IsDigits(s)
  {
    if |s| == 1 then s[0] as int - '0' as int
    else
      var init := s[..|s| - 1];
      assert IsDigits(init) by {
        forall i | 0 <= i < |init| ensures '0' <= init[i] <= '9' {
          assert init[i] == s[i];
        }
      }
      DecimalValue(init) * 10 + (s[|s| - 1] as int - '0' as int)
  }

  /** int(text): surrounding whitespace, an optional sign, then decimal digits;
      anything else is a ValueError. */
  function ParseDecimal(text: string): (r: Result<int, XlogError>)
    ensures r.Err? ==> r.error == ValueError
    ensures r.Ok? <==> var t := Strip(text); IsDigits(t) || (|t| >= 2 && (t[0] == '+' || t[0] == '-') && IsDigits(t[1..]))
    ensures IsDigits(Strip(text)) ==> r == Ok(DecimalValue(Strip(text)))
  {
    var t := Strip(text);
    if IsDigits(t) then Ok(DecimalValue(t))
    else if |t| >= 2 && (t[0] == '+' || t[0] == '-') && IsDigits(t[1..]) then
      var v: int := DecimalValue(t[1..]);
      Ok(if t[0] == '-' then -v else v)
    else Err(ValueError)
  }

  /** The three tab-separated fields of a stripped data line. */
  function Fields(line: string): seq<string>
  {
    Split(Strip(line), '\t')
  }

  /** A data line that makes a record: three fields, a decimal parent timeline
      and an LSN switchpoint. */
  predicate IsRecordLine(line: string)
  {
    var fields := Fields(line);
    |fields| == 3 && ParseDecimal(fields[0]).Ok? && ParseLsn(fields[1]).Ok?
  }

  /** One data line as a record. Any other number of fields than three makes the
      file's contents bad; a parent timeline or switchpoint that does not parse is
      the ValueError of int() or parse_lsn, passed on unchanged. */
  function ParseHistoryLine(tli: nat, path: string, line: string): (r: Result<HistoryFileData, XlogError>)
    ensures r.Ok? <==> IsRecordLine(line)
    ensures r.Err? ==> r.error == if |Fields(line)| != 3 then BadHistoryFileContents(path) else ValueError
    ensures r.Ok? ==> r.value.tli == tli && r.value.reason == Strip(Fields(line)[2])
    ensures r.Ok? ==> r.value.parentTli == ParseDecimal(Fields(line)[0]).value && r.value.switchpoint == ParseLsn(Fields(line)[1]).value
  {
    var fields := Fields(line);
    if |fields| != 3 then Err(BadHistoryFileContents(path))
    else
      var parent :- ParseDecimal(fields[0]);
      var switchpoint :- ParseLsn(fields[1]);
      Ok(HistoryFileData(tli, parent, switchpoint, Strip(fields[2])))
  }

  /** The data lines, in file order. */
  function DataLines(lines: seq<string>): (data: seq<string>)
    ensures |data| <= |lines|
  {
    if lines == [] then []
    else if IsDataLine(lines[|lines| - 1]) then DataLines(lines[..|lines| - 1]) + [lines[|lines| - 1]]
    else DataLines(lines[..|lines| - 1])
  }

  /** The data lines are lines of the file, each a data line, and every data
      line of the file is among them. */
  lemma {:induction false} DataLinesAreData(lines: seq<string>)
    ensures forall l :: l in DataLines(lines) <==> l in lines && IsDataLine(l)
  {
    if lines != [] {
      var init := lines[..|lines| - 1];
      DataLinesAreData(init);
      assert lines == init + [lines[|lines| - 1]];
    }
  }

  /** The records of the lines read so far, in order: comments and blank lines are
      passed over, and the first bad data line makes the whole read fail. */
  function ParseLines(tli: nat, path: string, lines: seq<string>): Result<seq<HistoryFileData>, XlogError>
  {
    if lines == [] then Ok([])
    else
      var records :- ParseLines(tli, path, lines[..|lines| - 1]);
      var line := lines[|lines| - 1];
      if !IsDataLine(line) then Ok(records)
      else
        var record :- ParseHistoryLine(tli, path, line);
        Ok(records + [record])
  }

  /** The whole file: the timeline from the file name, then every data line as a
      record; a file without a single record is bad. */
  function DecodeHistory(path: string, content: string): Result<seq<HistoryFileData>, XlogError>
  {
    var name :- DecodeSegmentName(path);
    var records :- ParseLines(name.tli, path, Split(content, '\n'));
    if records == [] then Err(BadHistoryFileContents(path)) else Ok(records)
  }

  /** decode_history_file over the file's text: the timeline from the name, then
      the records of the lines. */
  method DecodeHistoryFile(path: string, content: string) returns (r: Result<seq<HistoryFileData>, XlogError>)
    ensures r == DecodeHistory(path, content)
  {
    var name := DecodeSegmentName(path);
    if name.Err? {
      return Err(name.error);
    }
    var read := ReadLines(name.value.tli, path, Split(content, '\n'));
    if read.Err? {
      return Err(read.error);
    }
    if read.value == [] {
      return Err(BadHistoryFileContents(path));
    }
    r := Ok(read.value);
  }

  /** Reads the lines one at a time, appending a record for each data line and
      stopping at the first bad one. */
  method ReadLines(tli: nat, path: string, lines: seq<string>) returns (r: Result<seq<HistoryFileData>, XlogError>)
    ensures r == ParseLines(tli, path, lines)
  {
    var records: seq<HistoryFileData> := [];
    var i := 0;
    while i < |lines|
      invariant 0 <= i <= |lines|
      invariant ParseLines(tli, path, lines[..i]) == Ok(records)
    {
      var line := lines[i];
      assert lines[..i + 1][..i] == lines[..i];
      if IsDataLine(line) {
        var record := ParseHistoryLine(tli, path, line);
        if record.Err? {
          FailureStays(tli, path, lines, i + 1);
          return Err(record.error);
        }
        records := records + [record.value];
      }
      i := i + 1;
    }
    assert lines[..i] == lines;
    r := Ok(records);
  }

  /** Once some lines fail to read, the whole file does, with the same error. */
  lemma {:induction false} FailureStays(tli: nat, path: string, lines: seq<string>, i: nat)
    requires i <= |lines| && ParseLines(tli, path, lines[..i]).Err?
    ensures ParseLines(tli, path, lines) == ParseLines(tli, path, lines[..i])
    decreases |lines| - i
  {
    if i == |lines| {
      assert lines[..i] == lines;
    } else {
      assert lines[..i + 1][..i] == lines[..i];
      FailureStays(tli, path, lines, i + 1);
    }
  }

  // The reader against the data lines it is made of.

  /** Each data line parsed on its own, in file order. */
  function LineResults(tli: nat, path: string, data: seq<string>): (rs: seq<Result<HistoryFileData, XlogError>>)
    ensures |rs| == |data|
  {
    if data == [] then []
    else LineResults(tli, path, data[..|data| - 1]) + [ParseHistoryLine(tli, path, data[|data| - 1])]
  }

  /** The records of a sequence of line results: the first failure, or every value in order. */
  function Collect(rs: seq<Result<HistoryFileData, XlogError>>): Result<seq<HistoryFileData>, XlogError>
  {
    if rs == [] then Ok([])
    else
      var values :- Collect(rs[..|rs| - 1]);
      var value :- rs[|rs| - 1];
      Ok(values + [value])
  }

  /** Collecting succeeds exactly when every result does, and then keeps each value in place. */
  lemma {:induction false} CollectAll(rs: seq<Result<HistoryFileData, XlogError>>)
    ensures Collect(rs).Ok? <==> forall k :: 0 <= k < |rs| ==> rs[k].Ok?
    ensures Collect(rs).Ok? ==> |Collect(rs).value| == |rs| && forall k :: 0 <= k < |rs| ==> rs[k] == Ok(Collect(rs).value[k])
  {
    if rs != [] {
      var init := rs[..|rs| - 1];
      CollectAll(init);
      assert forall k :: 0 <= k < |init| ==> rs[k] == init[k];
    }
  }

  /** The k-th result is the first failure. */
  predicate FirstErr(rs: seq<Result<HistoryFileData, XlogError>>, k: int)
  {
    0 <= k < |rs| && rs[k].Err? && forall j :: 0 <= j < k ==> rs[j].Ok?
  }

  /** A first failure is what collecting gives. */
  lemma {:induction false} CollectFirstFailure(rs: seq<Result<HistoryFileData, XlogError>>, k: nat)
    requires FirstErr(rs, k)
    ensures Collect(rs) == Err(rs[k].error)
  {
    var init := rs[..|rs| - 1];
    if k < |rs| - 1 {
      assert FirstErr(init, k);
      CollectFirstFailure(init, k);
    } else {
      CollectAll(init);
    }
  }

  /** Every failure of collecting is the error of a first failure. */
  lemma {:induction false} CollectFailureAt(rs: seq<Result<HistoryFileData, XlogError>>)
    requires Collect(rs).Err?
    ensures exists k :: FirstErr(rs, k) && Collect(rs).error == rs[k].error
  {
    var init := rs[..|rs| - 1];
    if Collect(init).Err? {
      CollectFailureAt(init);
      var k :| FirstErr(init, k) && Collect(init).error == init[k].error;
      assert FirstErr(rs, k);
    } else {
      CollectAll(init);
      var k := |rs| - 1;
      assert FirstErr(rs, k);
    }
  }

  /** The k-th line result is the parse of the k-th data line. */
  lemma {:induction false} LineResultsAt(tli: nat, path: string, data: seq<string>, k: nat)
    requires k < |data|
    ensures LineResults(tli, path, data)[k] == ParseHistoryLine(tli, path, data[k])
  {
    if k < |data| - 1 {
      var init := data[..|data| - 1];
      LineResultsAt(tli, path, init, k);
    }
  }

  /** Reading the lines is collecting the parses of the data lines alone. */
  lemma {:induction false} ReadsDataLines(tli: nat, path: string, lines: seq<string>)
    ensures ParseLines(tli, path, lines) == Collect(LineResults(tli, path, DataLines(lines)))
  {
    if lines != [] {
      var init, line := lines[..|lines| - 1], lines[|lines| - 1];
      ReadsDataLines(tli, path, init);
      if IsDataLine(line) {
        var data' := DataLines(init);
        var data := data' + [line];
        assert data[..|data| - 1] == data';
        var rs := LineResults(tli, path, data);
        assert rs[..|rs| - 1] == LineResults(tli, path, data');
      }
    }
  }

  /** Reading succeeds exactly when every data line parses, and then gives one
      record per data line, in order, each the parse of its line. */
  lemma RecordsFollowDataLines(tli: nat, path: string, lines: seq<string>)
    ensures var data := DataLines(lines);
            ParseLines(tli, path, lines).Ok? <==> forall k :: 0 <= k < |data| ==> ParseHistoryLine(tli, path, data[k]).Ok?
    ensures var data := DataLines(lines);
            var r := ParseLines(tli, path, lines);
            r.Ok? ==> |r.value| == |data| && forall k :: 0 <= k < |data| ==> ParseHistoryLine(tli, path, data[k]) == Ok(r.value[k])
  {
    var data := DataLines(lines);
    var rs := LineResults(tli, path, data);
    ReadsDataLines(tli, path, lines);
    forall k | 0 <= k < |data| ensures rs[k] == ParseHistoryLine(tli, path, data[k]) {
      LineResultsAt(tli, path, data, k);
    }
    CollectParses(tli, path, data, rs);
  }

  /** CollectAll, for results that are the parses of the data lines. */
  lemma CollectParses(tli: nat, path: string, data: seq<string>, rs: seq<Result<HistoryFileData, XlogError>>)
    requires |rs| == |data| && forall k :: 0 <= k < |data| ==> rs[k] == ParseHistoryLine(tli, path, data[k])
    ensures Collect(rs).Ok? <==> forall k :: 0 <= k < |data| ==> ParseHistoryLine(tli, path, data[k]).Ok?
    ensures Collect(rs).Ok? ==> |Collect(rs).value| == |data| && forall k :: 0 <= k < |data| ==> ParseHistoryLine(tli, path, data[k]) == Ok(Collect(rs).value[k])
  {
    CollectAll(rs);
  }

  /** The k-th data line is the first one that makes no record. */
  predicate FirstBadLine(data: seq<string>, k: int)
  {
    0 <= k < |data| && !IsRecordLine(data[k]) && forall j :: 0 <= j < k ==> IsRecordLine(data[j])
  }

  /** Reading fails exactly when some data line makes no record, and then with the
      error of the first such line: BadHistoryFileContents for a wrong number of
      fields, ValueError for a bad parent timeline or switchpoint. */
  lemma ErrorOfFirstBadLine(tli: nat, path: string, lines: seq<string>)
    ensures var data := DataLines(lines);
            ParseLines(tli, path, lines).Err? <==> exists k :: FirstBadLine(data, k)
    ensures var data := DataLines(lines);
            forall k :: FirstBadLine(data, k) ==>
              ParseLines(tli, path, lines) == Err(if |Fields(data[k])| != 3 then BadHistoryFileContents(path) else ValueError)
  {
    var data := DataLines(lines);
    var rs := LineResults(tli, path, data);
    ReadsDataLines(tli, path, lines);
    forall k | 0 <= k < |data| ensures rs[k] == ParseHistoryLine(tli, path, data[k]) {
      LineResultsAt(tli, path, data, k);
    }
    FirstBadIsFirstErr(data, rs);
    forall k | FirstBadLine(data, k)
      ensures ParseLines(tli, path, lines) == Err(if |Fields(data[k])| != 3 then BadHistoryFileContents(path) else ValueError)
    {
      CollectFirstFailure(rs, k);
    }
    if ParseLines(tli, path, lines).Err? {
      CollectFailureAt(rs);
    }
  }

  /** When each result succeeds exactly for a record line, the first bad line is the first failure. */
  lemma FirstBadIsFirstErr(data: seq<string>, rs: seq<Result<HistoryFileData, XlogError>>)
    requires |rs| == |data| && forall k :: 0 <= k < |data| ==> (rs[k].Ok? <==> IsRecordLine(data[k]))
    ensures forall k :: FirstBadLine(data, k) <==> FirstErr(rs, k)
  {
  }

  /** What decoding a history file promises: a name that is no WAL file name is a
      bad name; a file without data lines has bad contents; the first data line
      that makes no record decides the error, BadHistoryFileContents when it does
      not hold exactly three fields and ValueError when its parent timeline or
      switchpoint does not parse; otherwise there is one record per data line,
      each on the timeline of the file name. */
  lemma DecodeHistoryOutcome(path: string, content: string)
    ensures !IsAnyXlogName(Basename(path)) ==> DecodeHistory(path, content) == Err(BadXlogSegmentName(Basename(path)))
    ensures var data := DataLines(Split(content, '\n'));
            IsAnyXlogName(Basename(path)) && data == [] ==> DecodeHistory(path, content) == Err(BadHistoryFileContents(path))
    ensures var data := DataLines(Split(content, '\n'));
            IsAnyXlogName(Basename(path)) ==>
              forall k :: FirstBadLine(data, k) ==>
                DecodeHistory(path, content) == Err(if |Fields(data[k])| != 3 then BadHistoryFileContents(path) else ValueError)
    ensures var data := DataLines(Split(content, '\n'));
            IsAnyXlogName(Basename(path)) && data != [] && (forall k :: 0 <= k < |data| ==> IsRecordLine(data[k])) ==>
              DecodeHistory(path, content).Ok?
    ensures var data := DataLines(Split(content, '\n'));
            var r := DecodeHistory(path, content);
            r.Ok? ==> |r.value| == |data| >= 1 &&
                      forall k :: 0 <= k < |r.value| ==> r.value[k].tli == DecodeSegmentName(path).value.tli &&
                                                          ParseHistoryLine(r.value[k].tli, path, data[k]) == Ok(r.value[k])
  {
    var lines := Split(content, '\n');
    if IsAnyXlogName(Basename(path)) {
      var tli := DecodeSegmentName(path).value.tli;
      RecordsFollowDataLines(tli, path, lines);
      ErrorOfFirstBadLine(tli, path, lines);
      var data := DataLines(lines);
      var r := DecodeHistory(path, content);
      if r.Ok? {
        assert r == ParseLines(tli, path, lines);
        forall k | 0 <= k < |r.value|
          ensures r.value[k].tli == tli && ParseHistoryLine(r.value[k].tli, path, data[k]) == Ok(r.value[k])
        {
          assert ParseHistoryLine(tli, path, data[k]) == Ok(r.value[k]);
        }
      }
    }
  }
}
