/** The shard-directory and classifier cases of the WAL-name test suite. */
module ClassifierExamples {
  import opened Wrappers
  import opened XlogErrors
  import opened Hex
  import opened Text
  import opened SegmentNames
  import opened NameExamples

  // The names the cases use, and their shapes.

  lemma WalNameShape1()
    ensures IsWalName("000000000000000200000001") && Basename("000000000000000200000001") == "000000000000000200000001"
  {
    SmallWalName(0, 2, 1, "000000000000000200000001");
    WalNameFacts("000000000000000200000001");
  }

  lemma WalNameShape2()
    ensures IsWalName("000000010000000000000002") && Basename("000000010000000000000002") == "000000010000000000000002"
  {
    SmallWalName(1, 0, 2, "000000010000000000000002");
    WalNameFacts("000000010000000000000002");
  }

  lemma BackupNameShape1()
    ensures var n := "00000001000000000000000A" + "." + "00000020" + ".backup";
            Basename(n) == n && IsBackupName(n) && n[..24] == "00000001000000000000000A"
  {
    BackupFields1();
    OffsetField();
    SmallBackupShape(1, 0, 10, 0x20, "00000001000000000000000A", "00000020");
  }

  lemma BackupFields1()
    ensures "00000001000000000000000A" == SmallField(1) + SmallField(0) + SmallField(10)
  {
  }

  lemma OffsetField()
    ensures "00000020" == SmallField(0x20)
  {
  }

  lemma BackupNameShape2()
    ensures var n := "00000002000000050000000A" + "." + "00000020" + ".backup";
            Basename(n) == n && IsBackupName(n) && n[..24] == "00000002000000050000000A"
  {
    BackupFields2();
    OffsetField();
    SmallBackupShape(2, 5, 10, 0x20, "00000002000000050000000A", "00000020");
  }

  lemma BackupFields2()
    ensures "00000002000000050000000A" == SmallField(2) + SmallField(5) + SmallField(10)
  {
  }

  /** A backup label built from small fields is a backup name and its own basename. */
  lemma SmallBackupShape(tli: nat, log: nat, seg: nat, offset: nat, w: string, o: string)
    requires tli < 0x1000 && log < 0x1000 && seg < 0x1000 && offset < 0x1000
    requires w == SmallField(tli) + SmallField(log) + SmallField(seg) && o == SmallField(offset)
    ensures var n := w + "." + o + ".backup";
            Basename(n) == n && IsBackupName(n) && n[..24] == w
  {
    SmallWalName(tli, log, seg, w);
    SmallOffset(offset, o);
    BackupLayout(w, o, w + "." + o + ".backup");
  }

  lemma PartialNameShape1()
    ensures var n := "00000001000000000000000A" + ".partial";
            Basename(n) == n && IsPartialName(n)
  {
    SmallWalName(1, 0, 10, "00000001000000000000000A");
    PartialLayout("00000001000000000000000A", "00000001000000000000000A" + ".partial");
  }

  lemma HistoryNameShape(tli: nat, name: string)
    requires tli < 0x1000 && name == SmallField(tli) + ".history"
    ensures Basename(name) == name && IsHistoryName(name)
  {
    SmallHistoryName(tli, name);
    HistoryNameFacts(name);
  }

  // hash_dir.

  lemma HashDirCase1()
    ensures HashDir("000000000000000200000001") == Ok("0000000000000002")
  {
    ShardDigits1();
    SmallShard(0, 2, 1, "000000000000000200000001");
  }

  lemma ShardDigits1()
    ensures "000000000000000200000001" == SmallField(0) + SmallField(2) + SmallField(1)
    ensures "000000000000000200000001"[..16] == "0000000000000002"
  {
  }

  lemma HashDirCase2()
    ensures HashDir("000000010000000000000002") == Ok("0000000100000000")
  {
    ShardDigits2();
    SmallShard(1, 0, 2, "000000010000000000000002");
  }

  lemma ShardDigits2()
    ensures "000000010000000000000002" == SmallField(1) + SmallField(0) + SmallField(2)
    ensures "000000010000000000000002"[..16] == "0000000100000000"
  {
  }

  lemma HashDirCase3()
    ensures HashDir("test" + "/" + "000000020000000100000000") == Ok("0000000200000001")
  {
    ShardDigits3();
    SmallShardInDirectory("test", 2, 1, 0, "000000020000000100000000");
  }

  lemma ShardDigits3()
    ensures "000000020000000100000000" == SmallField(2) + SmallField(1) + SmallField(0)
    ensures "000000020000000100000000"[..16] == "0000000200000001"
  {
  }

  /** A segment name built from small fields is sharded by its timeline and log fields. */
  lemma SmallShard(tli: nat, log: nat, seg: nat, name: string)
    requires tli < 0x1000 && log < 0x1000 && seg < 0x1000
    requires name == SmallField(tli) + SmallField(log) + SmallField(seg)
    ensures HashDir(name) == Ok(name[..16])
  {
    SmallWalName(tli, log, seg, name);
    WalNameFacts(name);
    HashDirIsTimelineAndLog(name);
  }

  /** The same, below a directory. */
  lemma SmallShardInDirectory(dir: string, tli: nat, log: nat, seg: nat, name: string)
    requires tli < 0x1000 && log < 0x1000 && seg < 0x1000
    requires name == SmallField(tli) + SmallField(log) + SmallField(seg)
    ensures HashDir(dir + "/" + name) == Ok(name[..16])
  {
    SmallWalName(tli, log, seg, name);
    NoSlashInHex(name);
    BasenameOfPath(dir, name);
    HashDirIsTimelineAndLog(dir + "/" + name);
  }

  /** History files are not sharded. */
  lemma HashDirHistoryCase1()
    ensures HashDir("00000001.history") == Ok("")
  {
    HistoryNameShape(1, "00000001.history");
  }

  lemma HashDirHistoryCase2()
    ensures HashDir("00000002.history") == Ok("")
  {
    HistoryNameShape(2, "00000002.history");
  }

  lemma HashDirBackupCase1()
    ensures HashDir("00000001000000000000000A" + "." + "00000020" + ".backup") == Ok("0000000100000000")
  {
    var n := "00000001000000000000000A" + "." + "00000020" + ".backup";
    BackupNameShape1();
    HashDirIsTimelineAndLog(n);
    assert n[..16] == n[..24][..16];
    assert "00000001000000000000000A"[..16] == "0000000100000000";
  }

  lemma HashDirBackupCase2()
    ensures HashDir("00000002000000050000000A" + "." + "00000020" + ".backup") == Ok("0000000200000005")
  {
    var n := "00000002000000050000000A" + "." + "00000020" + ".backup";
    BackupNameShape2();
    HashDirIsTimelineAndLog(n);
    assert n[..16] == n[..24][..16];
    assert "00000002000000050000000A"[..16] == "0000000200000005";
  }

  // The classifiers on each kind of name, with and without a directory.

  lemma WalFileCase()
    ensures var n := "000000000000000200000001";
            IsAnyXlogFile(n) && IsWalFile(n) && !IsBackupFile(n) && !IsPartialFile(n) && !IsHistoryFile(n)
  {
    WalNameShape1();
  }

  lemma WalFileInDirectoryCase()
    ensures IsAnyXlogFile("test1" + "/" + "000000000000000200000001")
    ensures IsWalFile("test" + "/" + "000000000000000200000001")
  {
    WalFileCase();
    ClassifiersIgnoreDirectory("test1", "000000000000000200000001");
    ClassifiersIgnoreDirectory("test", "000000000000000200000001");
  }

  lemma BackupFileCase()
    ensures var n := "00000001000000000000000A" + "." + "00000020" + ".backup";
            IsAnyXlogFile(n) && !IsWalFile(n) && IsBackupFile(n) && !IsPartialFile(n) && !IsHistoryFile(n)
  {
    BackupNameShape1();
  }

  lemma BackupFileInDirectoryCase()
    ensures IsAnyXlogFile("test2" + "/" + ("00000001000000000000000A" + "." + "00000020" + ".backup"))
    ensures IsBackupFile("test" + "/" + ("00000001000000000000000A" + "." + "00000020" + ".backup"))
  {
    BackupFileCase();
    ClassifiersIgnoreDirectory("test2", "00000001000000000000000A" + "." + "00000020" + ".backup");
    ClassifiersIgnoreDirectory("test", "00000001000000000000000A" + "." + "00000020" + ".backup");
  }

  lemma PartialFileCase()
    ensures var n := "00000001000000000000000A" + ".partial";
            IsAnyXlogFile(n) && !IsWalFile(n) && !IsBackupFile(n) && IsPartialFile(n) && !IsHistoryFile(n)
  {
    PartialNameShape1();
  }

  lemma PartialFileInDirectoryCase()
    ensures IsAnyXlogFile("test2" + "/" + ("00000001000000000000000A" + ".partial"))
    ensures IsPartialFile("test" + "/" + ("00000001000000000000000A" + ".partial"))
  {
    PartialFileCase();
    ClassifiersIgnoreDirectory("test2", "00000001000000000000000A" + ".partial");
    ClassifiersIgnoreDirectory("test", "00000001000000000000000A" + ".partial");
  }

  lemma HistoryFileCase()
    ensures var n := "00000002.history";
            IsAnyXlogFile(n) && !IsWalFile(n) && !IsBackupFile(n) && !IsPartialFile(n) && IsHistoryFile(n)
  {
    HistoryNameShape(2, "00000002.history");
  }

  lemma HistoryFileInDirectoryCase()
    ensures IsAnyXlogFile("test3" + "/" + "00000002.history") && IsHistoryFile("test" + "/" + "00000002.history")
  {
    HistoryFileCase();
    ClassifiersIgnoreDirectory("test3", "00000002.history");
    ClassifiersIgnoreDirectory("test", "00000002.history");
  }

  // Names no classifier accepts (and so none of the five does).

  /** A backup label without its offset. */
  lemma BackupWithoutOffsetCase()
    ensures !IsAnyXlogFile("00000001000000000000000A.backup")
  {
    BasenameOfName("00000001000000000000000A.backup");
  }

  /** A history suffix after a full segment name. */
  lemma SegmentHistoryCase()
    ensures !IsAnyXlogFile("00000001000000000000000A" + ".history")
  {
    OwnBasename("00000001000000000000000A", ".history");
    LengthRejected("00000001000000000000000A" + ".history", "00000001000000000000000A", ".history");
  }

  /** Twenty-four characters and an eight-character suffix other than `.partial` are no WAL file name. */
  lemma LengthRejected(path: string, name: string, suffix: string)
    requires Basename(path) == name + suffix && |name| == 24 && |suffix| == 8 && suffix != ".partial"
    ensures !IsAnyXlogFile(path)
  {
    assert (name + suffix)[24..] == suffix;
  }

  /** A partial suffix after a timeline alone. */
  lemma TimelinePartialCase()
    ensures !IsAnyXlogFile("00000001.partial")
  {
    var n := "00000001.partial";
    BasenameOfName(n);
    assert n[8..] != ".history";
  }

  /** A partial suffix after a backup offset. */
  lemma BackupPartialCase()
    ensures !IsAnyXlogFile("00000001000000000000000A.00000020" + ".partial")
  {
    OwnBasename("00000001000000000000000A.00000020", ".partial");
    LengthRejectedOutright("00000001000000000000000A.00000020" + ".partial");
  }

  /** A basename of none of the four lengths is no WAL file name. */
  lemma LengthRejectedOutright(path: string)
    requires var n := |Basename(path)|; n != 16 && n != 24 && n != 32 && n != 40
    ensures !IsAnyXlogFile(path)
  {
  }

  /** A partial suffix after a name that is too short. */
  lemma ShortPartialCase()
    ensures !IsAnyXlogFile("00000000000000000000000.partial")
  {
    BasenameOfName("00000000000000000000000.partial");
  }

  /** A partial suffix after a name that is too long. */
  lemma LongPartialCase()
    ensures !IsAnyXlogFile("0000000000000000000000000.partial")
  {
    BasenameOfName("0000000000000000000000000.partial");
  }

  /** A partial suffix after a name that is not hex. */
  lemma NonHexPartialCase()
    ensures !IsAnyXlogFile("000000000000X00000000000" + ".partial")
  {
    OwnBasename("000000000000X00000000000", ".partial");
    NonHexRejected("000000000000X00000000000" + ".partial", 12);
  }

  /** A name and suffix with no slash in either form their own basename. */
  lemma OwnBasename(name: string, suffix: string)
    requires '/' !in name && '/' !in suffix
    ensures Basename(name + suffix) == name + suffix && |name + suffix| == |name| + |suffix|
    ensures forall i :: 0 <= i < |name| ==> (name + suffix)[i] == name[i]
  {
    BasenameOfName(name + suffix);
  }

  /** Text glued to the front of a backup label with a dot. */
  lemma GluedBackupCase()
    ensures !IsAnyXlogFile("test." + "00000001000000000000000A.00000020.backup")
  {
    var n := "test." + "00000001000000000000000A.00000020.backup";
    BasenameOfName(n);
    ForeignPrefixRejected(n);
  }

  /** Text glued to the front of a backup-like partial name with a dot. */
  lemma GluedBackupPartialCase()
    ensures !IsAnyXlogFile("test." + "00000001000000000000000A.00000020.partial")
  {
    var n := "test." + "00000001000000000000000A.00000020.partial";
    BasenameOfName(n);
    ForeignPrefixRejected(n);
  }

  /** Text glued to the front of a partial name with a dot. */
  lemma GluedPartialCase()
    ensures !IsAnyXlogFile("test." + "00000001000000000000000A.partial")
  {
    var n := "test." + "00000001000000000000000A.partial";
    BasenameOfName(n);
    ForeignPrefixRejected(n);
  }
}
