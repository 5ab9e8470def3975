/** WAL file names: the segment-name codec, the single shape matcher behind it,
    the file classifiers and the shard key of the archive directory layout. */
module SegmentNames {
  import opened Wrappers
  import opened XlogErrors
  import opened Hex
  import opened Text

  /** Size of one WAL segment: 16 MiB. */
  const XLogSegSize: nat := 0x100_0000

  /** The four kinds of file a WAL archive holds. */
  datatype Shape = WalShape | BackupShape | PartialShape | HistoryShape

  /** What the decoder returns: [tli, log, seg], or [tli, None, None] for a history file. */
  datatype DecodedName = Segment(tli: nat, log: nat, seg: nat) | TimelineOnly(tli: nat)

  // The four file-name shapes, each written out on its own.

  /** `<24 hex>`: a WAL segment. */
  predicate IsWalName(b: string)
  {
    |b| == 24 && IsUpperHex(b)
  }

  /** `<24 hex>.<8 hex>.backup`: a backup label. */
  predicate IsBackupName(b: string)
  {
    |b| == 40 && IsUpperHex(b[..24]) && b[24] == '.' && IsUpperHex(b[25..33]) && b[33..] == ".backup"
  }

  /** `<24 hex>.partial`: a partial segment. */
  predicate IsPartialName(b: string)
  {
    |b| == 32 && IsUpperHex(b[..24]) && b[24..] == ".partial"
  }

  /** `<8 hex>.history`: a timeline history file. */
  predicate IsHistoryName(b: string)
  {
    |b| == 16 && IsUpperHex(b[..8]) && b[8..] == ".history"
  }

  predicate IsAnyXlogName(b: string)
  {
    IsWalName(b) || IsBackupName(b) || IsPartialName(b) || IsHistoryName(b)
  }

  lemma UpperHexPrefix(s: string, i: nat, j: nat)
    requires i <= j <= |s| && IsUpperHex(s[..j])
    ensures IsUpperHex(s[..i]) && IsUpperHex(s[i..j])
  {
    assert forall k :: 0 <= k < i ==> s[..i][k] == s[..j][k];
    assert forall k :: 0 <= k < j - i ==> s[i..j][k] == s[..j][i + k];
  }

  lemma UpperHexJoin(s: string, i: nat, j: nat)
    requires i <= j <= |s| && IsUpperHex(s[..i]) && IsUpperHex(s[i..j])
    ensures IsUpperHex(s[..j])
  {
    assert s[..j] == s[..i] + s[i..j];
    UpperHexConcat(s[..i], s[i..j]);
  }

  /** The three eight-digit fields of a 24-digit prefix are hex numerals. */
  lemma SegmentFieldsAreHex(b: string)
    requires |b| >= 24 && IsUpperHex(b[..24])
    ensures IsUpperHex(b[..8]) && IsUpperHex(b[8..16]) && IsUpperHex(b[16..24])
  {
    UpperHexPrefix(b, 8, 24);
    UpperHexPrefix(b[8..], 8, 16);
    assert b[8..][..8] == b[8..16] && b[8..][8..16] == b[16..24];
  }

  /** The timeline, log and segment held in the first 24 characters of a name. */
  function SegmentFields(b: string): DecodedName
    requires |b| >= 24 && IsUpperHex(b[..24])
  {
    SegmentFieldsAreHex(b);
    Segment(HexValue(b[..8]), HexValue(b[8..16]), HexValue(b[16..24]))
  }

  /** The one matcher for all four shapes, read the way the pattern
      `(8 hex)((8 hex)(8 hex)(.<8 hex>.backup | .partial)? | .history)` reads:
      a timeline, then either `.history` or log and segment with an optional suffix.
      It agrees with the four shapes written out above. */
  function MatchShape(b: string): (r: Option<Shape>)
    ensures r == Some(WalShape) <==> IsWalName(b)
    ensures r == Some(BackupShape) <==> IsBackupName(b)
    ensures r == Some(PartialShape) <==> IsPartialName(b)
    ensures r == Some(HistoryShape) <==> IsHistoryName(b)
    ensures r == None <==> !IsAnyXlogName(b)
  {
    if |b| < 8 || !IsUpperHex(b[..8]) then
      (if |b| >= 24 && IsUpperHex(b[..24]) then UpperHexPrefix(b, 8, 24); None else None)
    else
      var rest := b[8..];
      if rest == ".history" then Some(HistoryShape)
      else if |rest| < 16 || !IsUpperHex(rest[..16]) then
        (if |b| >= 24 && IsUpperHex(b[..24]) then UpperHexPrefix(b, 8, 24); None else None)
      else
        assert rest[..16] == b[8..24];
        UpperHexJoin(b, 8, 24);
        var tail := rest[16..];
        assert tail == b[24..];
        if tail == [] then Some(WalShape)
        else if tail == ".partial" then Some(PartialShape)
        else if |tail| == 16 && tail[0] == '.' && IsUpperHex(tail[1..9]) && tail[9..] == ".backup" then
          assert tail[1..9] == b[25..33];
          Some(BackupShape)
        else
          assert |b| == 40 ==> tail[1..9] == b[25..33] && tail[9..] == b[33..];
          None
  }

  // The classifiers look only at the basename and never fail.

  function IsAnyXlogFile(path: string): (r: bool)
    ensures r <==> IsAnyXlogName(Basename(path))
  {
    MatchShape(Basename(path)).Some?
  }

  function IsWalFile(path: string): (r: bool)
    ensures r <==> IsWalName(Basename(path))
  {
    MatchShape(Basename(path)) == Some(WalShape)
  }

  function IsBackupFile(path: string): (r: bool)
    ensures r <==> IsBackupName(Basename(path))
  {
    MatchShape(Basename(path)) == Some(BackupShape)
  }

  function IsPartialFile(path: string): (r: bool)
    ensures r <==> IsPartialName(Basename(path))
  {
    MatchShape(Basename(path)) == Some(PartialShape)
  }

  function IsHistoryFile(path: string): (r: bool)
    ensures r <==> IsHistoryName(Basename(path))
  {
    MatchShape(Basename(path)) == Some(HistoryShape)
  }

  /** "%08X%08X%08X": three hex fields, each zero-padded to eight digits. */
  function EncodeSegmentName(tli: nat, log: nat, seg: nat): (name: string)
    ensures tli < Span32 && log < Span32 && seg < Span32 ==> IsWalName(name)
  {
    var name := FormatHex(tli, 8) + FormatHex(log, 8) + FormatHex(seg, 8);
    if tli < Span32 && log < Span32 && seg < Span32 then
      FormatHex32(tli);
      FormatHex32(log);
      FormatHex32(seg);
      UpperHexConcat(FormatHex(tli, 8), FormatHex(log, 8));
      UpperHexConcat(FormatHex(tli, 8) + FormatHex(log, 8), FormatHex(seg, 8));
      name
    else
      name
  }

  /** "%08X.history". */
  function EncodeHistoryFileName(tli: nat): (name: string)
    ensures tli < Span32 ==> IsHistoryName(name)
  {
    if tli < Span32 then FormatHex32(tli); FormatHex(tli, 8) + ".history"
    else FormatHex(tli, 8) + ".history"
  }

  /** Decodes the basename of a path: a segment, backup label or partial name gives its
      three fields, a history name its timeline alone; anything else is a bad name. */
  function DecodeSegmentName(path: string): (r: Result<DecodedName, XlogError>)
    ensures r.Err? <==> !IsAnyXlogName(Basename(path))
    ensures r.Err? ==> r.error == BadXlogSegmentName(Basename(path))
    ensures r.Ok? ==> (r.value.TimelineOnly? <==> IsHistoryName(Basename(path)))
  {
    var b := Basename(path);
    match MatchShape(b)
    case None => Err(BadXlogSegmentName(b))
    case Some(HistoryShape) => Ok(TimelineOnly(HexValue(b[..8])))
    case Some(_) =>
      Ok(SegmentFields(b))
  }

  /** The shard directory of a WAL file: "%08X%08X" of its timeline and log,
      or the empty string for a history file, which is not sharded. */
  function HashDir(path: string): (r: Result<string, XlogError>)
    ensures r.Err? <==> !IsAnyXlogName(Basename(path))
    ensures r.Err? ==> r.error == BadXlogSegmentName(Basename(path))
    ensures IsHistoryName(Basename(path)) ==> r == Ok("")
  {
    var d :- DecodeSegmentName(path);
    match d
    case TimelineOnly(_) => Ok("")
    case Segment(tli, log, _) => Ok(FormatHex(tli, 8) + FormatHex(log, 8))
  }

  // Round trips between the encoders and the decoder.

  lemma NoSlashInHex(s: string)
    requires IsUpperHex(s)
    ensures '/' !in s
  {
  }

  /** Decoding an encoded segment name gives back its three 32-bit fields. */
  lemma DecodeEncodeSegmentName(tli: nat, log: nat, seg: nat)
    requires tli < Span32 && log < Span32 && seg < Span32
    ensures DecodeSegmentName(EncodeSegmentName(tli, log, seg)) == Ok(Segment(tli, log, seg))
  {
    var name := EncodeSegmentName(tli, log, seg);
    NoSlashInHex(name);
    BasenameOfName(name);
    var a, b, c := FormatHex(tli, 8), FormatHex(log, 8), FormatHex(seg, 8);
    FormatHexValue(tli, 8);
    FormatHexValue(log, 8);
    FormatHexValue(seg, 8);
    FormatHex32(tli);
    FormatHex32(log);
    FormatHex32(seg);
    assert name == a + b + c;
    assert name[..8] == a && name[8..16] == b && name[16..24] == c;
  }

  /** The fields held in 24 upper-case hex digits are 32-bit and encode back to those digits. */
  lemma SegmentFieldsRoundTrip(b: string)
    requires |b| >= 24 && IsUpperHex(b[..24])
    ensures var d := SegmentFields(b);
            d.tli < Span32 && d.log < Span32 && d.seg < Span32 &&
            EncodeSegmentName(d.tli, d.log, d.seg) == b[..24]
  {
    SegmentFieldsAreHex(b);
    var t, l, s := b[..8], b[8..16], b[16..24];
    UpperHexFormat(t);
    UpperHexFormat(l);
    UpperHexFormat(s);
    Pow16Eight();
    assert b[..24] == t + l + s;
  }

  /** A segment, backup-label or partial name decodes to the fields of its first 24 characters. */
  lemma DecodeSegmentFields(path: string)
    requires var b := Basename(path); IsWalName(b) || IsBackupName(b) || IsPartialName(b)
    ensures |Basename(path)| >= 24 && IsUpperHex(Basename(path)[..24])
    ensures DecodeSegmentName(path) == Ok(SegmentFields(Basename(path)))
  {
    var b := Basename(path);
    if IsWalName(b) {
      assert b[..24] == b;
    }
  }

  /** A backup label or partial name decodes to the fields of the segment it is
      named after: its suffix adds nothing. */
  lemma DecodeIgnoresSuffix(path: string)
    requires var b := Basename(path); IsBackupName(b) || IsPartialName(b)
    ensures IsWalName(Basename(path)[..24])
    ensures DecodeSegmentName(path) == DecodeSegmentName(Basename(path)[..24])
  {
    var b := Basename(path);
    DecodeSegmentFields(path);
    SegmentFieldsOfPrefix(b, b[..24]);
    DecodeWalName(b[..24]);
  }

  lemma SegmentFieldsOfPrefix(b: string, w: string)
    requires |b| >= 24 && IsUpperHex(b[..24]) && w == b[..24]
    ensures IsWalName(w) && w[..24] == w
    ensures SegmentFields(b) == SegmentFields(w)
  {
    assert w[..24] == w && w[..8] == b[..8] && w[8..16] == b[8..16] && w[16..24] == b[16..24];
  }

  /** A bare segment name decodes to its fields. */
  lemma DecodeWalName(w: string)
    requires IsWalName(w) && w[..24] == w
    ensures DecodeSegmentName(w) == Ok(SegmentFields(w))
  {
    NoSlashInHex(w);
    BasenameOfName(w);
    DecodeSegmentFields(w);
  }

  /** The fields a segment, backup-label or partial name decodes to encode back
      to its first 24 characters (uppercase names are canonical). */
  lemma EncodeDecodeSegmentName(path: string)
    requires var b := Basename(path); IsWalName(b) || IsBackupName(b) || IsPartialName(b)
    ensures DecodeSegmentName(path).Ok? && DecodeSegmentName(path).value.Segment?
    ensures var d := DecodeSegmentName(path).value;
            d.tli < Span32 && d.log < Span32 && d.seg < Span32 &&
            EncodeSegmentName(d.tli, d.log, d.seg) == Basename(path)[..24]
  {
    DecodeSegmentFields(path);
    SegmentFieldsRoundTrip(Basename(path));
  }

  /** Decoding an encoded history name gives back its timeline alone. */
  lemma DecodeEncodeHistoryFileName(tli: nat)
    requires tli < Span32
    ensures DecodeSegmentName(EncodeHistoryFileName(tli)) == Ok(TimelineOnly(tli))
  {
    var name := EncodeHistoryFileName(tli);
    assert '/' !in name by {
      NoSlashInHex(name[..8]);
      assert forall i :: 0 <= i < 8 ==> name[i] == name[..8][i];
      assert name[8..] == ".history";
      assert forall i :: 8 <= i < 16 ==> name[i] == name[8..][i - 8];
    }
    BasenameOfName(name);
    FormatHex32(tli);
    FormatHexValue(tli, 8);
    assert name[..8] == FormatHex(tli, 8);
  }

  /** A history name is the encoding of the timeline it decodes to. */
  lemma EncodeDecodeHistoryFileName(path: string)
    requires IsHistoryName(Basename(path))
    ensures DecodeSegmentName(path).Ok? && DecodeSegmentName(path).value.TimelineOnly?
    ensures EncodeHistoryFileName(DecodeSegmentName(path).value.tli) == Basename(path)
  {
    var b := Basename(path);
    var t := b[..8];
    assert DecodeSegmentName(path) == Ok(TimelineOnly(HexValue(t)));
    UpperHexFormat(t);
    Pow16Eight();
    assert b == t + ".history";
  }

  /** The shard key of a segment, backup-label or partial name is the first
      16 characters of its basename: timeline and log, segment dropped. */
  lemma HashDirIsTimelineAndLog(path: string)
    requires var b := Basename(path); IsWalName(b) || IsBackupName(b) || IsPartialName(b)
    ensures HashDir(path) == Ok(Basename(path)[..16])
  {
    DecodeSegmentFields(path);
    TimelineAndLogDigits(Basename(path));
  }

  /** Timeline and log printed back with "%08X%08X" are the first 16 digits they were read from. */
  lemma TimelineAndLogDigits(b: string)
    requires |b| >= 24 && IsUpperHex(b[..24])
    ensures FormatHex(SegmentFields(b).tli, 8) + FormatHex(SegmentFields(b).log, 8) == b[..16]
  {
    SegmentFieldsAreHex(b);
    UpperHexFormat(b[..8]);
    UpperHexFormat(b[8..16]);
    assert b[..16] == b[..8] + b[8..16];
  }

  // What the classifiers ignore and what they refuse.

  /** A directory in front of the name changes no classification. */
  lemma ClassifiersIgnoreDirectory(dir: string, name: string)
    requires '/' !in name
    ensures IsAnyXlogFile(dir + "/" + name) == IsAnyXlogFile(name)
    ensures IsWalFile(dir + "/" + name) == IsWalFile(name)
    ensures IsBackupFile(dir + "/" + name) == IsBackupFile(name)
    ensures IsPartialFile(dir + "/" + name) == IsPartialFile(name)
    ensures IsHistoryFile(dir + "/" + name) == IsHistoryFile(name)
  {
    BasenameOfPath(dir, name);
    BasenameOfName(name);
  }

  /** A basename that does not start with a hex digit (a dot-glued prefix such as
      "test.<name>") is no WAL file of any kind, and does not decode. */
  lemma ForeignPrefixRejected(path: string)
    requires Basename(path) != [] && !IsUpperHexDigit(Basename(path)[0])
    ensures !IsAnyXlogFile(path)
    ensures DecodeSegmentName(path) == Err(BadXlogSegmentName(Basename(path)))
  {
    var b := Basename(path);
    if |b| >= 8 {
      assert b[..8][0] == b[0];
    }
  }

  /** Exactly one classifier accepts a name that any of them accepts. */
  lemma ClassifiersDisjoint(path: string)
    ensures IsAnyXlogFile(path) <==> IsWalFile(path) || IsBackupFile(path) || IsPartialFile(path) || IsHistoryFile(path)
    ensures !(IsWalFile(path) && IsBackupFile(path)) && !(IsWalFile(path) && IsPartialFile(path))
    ensures !(IsWalFile(path) && IsHistoryFile(path)) && !(IsBackupFile(path) && IsPartialFile(path))
    ensures !(IsBackupFile(path) && IsHistoryFile(path)) && !(IsPartialFile(path) && IsHistoryFile(path))
  {
  }
}
