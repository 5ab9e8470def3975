# barman.xlog in Dafny

A model of `barman.xlog`. This is the codec Barman uses to name, classify and address
PostgreSQL write-ahead-log (WAL) files. It covers:

- **segment names**: the 24-hex-digit `timeline log segment` name, encoded and
  decoded;
- **the other file shapes**: the backup label `<segment>.<offset>.backup`, the
  partial segment `<segment>.partial` and the timeline history file
  `<timeline>.history`;
- **the classifiers** `is_any_xlog_file`, `is_wal_file`, `is_backup_file`,
  `is_partial_file` and `is_history_file`, and the shard directory `hash_dir`;
- **`generate_segment_names`**: the walk from one segment to the next. It rolls over
  to the next log after segment FF, or after FE on a server older than 9.3;
- **`decode_history_file`**: the timeline history file, one record per data line;
- **LSNs**: `parse_lsn` and `format_lsn` convert an LSN to and from its `hi/lo` hex
  text. `location_to_xlogfile_name_offset` and
  `location_from_xlogfile_name_offset` convert between an LSN and a segment name
  plus an offset.

Modules, one file each:

| file | module | what |
|---|---|---|
| `wrappers.dfy` | `Wrappers`, `XlogErrors` | `Option`, `Result`; the error kinds (`BadXlogSegmentName`, `BadHistoryFileContents`, `ValueError`, `TypeError`, and the timeline assertion) |
| `text.dfy` | `Text` | `os.path.basename`, `str.split` and `str.strip` as functions on `seq<char>` |
| `hex.dfy` | `Hex` | `%0NX` formatting and `int(s, 16)` for hex text |
| `segment_names.dfy` | `SegmentNames` | one shape matcher for the four name patterns; encode/decode, `hash_dir`, the classifiers |
| `segment_sequence.dfy` | `SegmentSequence` | the generator as a class with a cursor that `Next` advances; draining it and taking `n` names from it |
| `lsn.dfy` | `Lsn` | `parse_lsn`, `format_lsn` and the two location conversions |
| `history.dfy` | `HistoryFile` | history-file records; the line reader as a loop and as a function |
| `examples_*.dfy` | `NameExamples`, `ClassifierExamples`, `SequenceExamples`, `LsnExamples`, `HistoryExamples` | every assertion of `tests/test_xlog.py`, proved about the model |

Behaviour the model fixes, with the tests that pin it:

- **Segments per log.** A server older than 9.3 (version below 90300) uses
  segments 00 to FE of each log, 255 in all; any other server uses 00 to FF, 256 in
  all. The tests count 511 names across two logs for version 90201 and 513 without
  a version (tests/test_xlog.py:141-157), and stop a 90200 walk after FE
  (tests/test_xlog.py:71-90). That a version of 0 also counts as recent is the
  model's own choice; no test passes one.
- **Decoding `.partial`.** One shape matcher serves all four name shapes, so
  `decode_segment_name` also decodes `<segment>.partial` to its segment, as it
  decodes a backup label (tests/test_xlog.py:45-63 and 181-218).
- **Hex case in names.** Names are matched in uppercase hex only. A name with a
  lowercase hex digit, such as `0000000a0000000a0000000a`, has none of the four
  shapes: every classifier is false for it and decoding it fails with
  `BadXlogSegmentName`. No test passes a lowercase name; this is the model's
  choice. LSN text accepts both cases.
- **The reason of a history record.** The reason field is stripped of
  whitespace on both sides. The line itself is stripped first, so this only adds
  the removal of whitespace between the second tab and the reason. The tests'
  reasons have none (tests/test_xlog.py:272-303); stripping it is the model's
  choice.
- **Printing an LSN.** `format_lsn` prints the high half without padding and the
  low half zero-padded to eight hex digits. The one test (tests/test_xlog.py:328-329)
  already has eight low digits, so the padding is the model's choice, untested.

## Model

| member | source | states |
|---|---|---|
| `SegmentNames.EncodeSegmentName` | tests/test_xlog.py:29-43 | for 32-bit fields the name has the WAL-name shape: 24 uppercase hex digits |
| `SegmentNames.DecodeEncodeSegmentName` | tests/test_xlog.py:29-59 | decoding an encoded segment name gives back its timeline, log and segment |
| `SegmentNames.EncodeDecodeSegmentName` | tests/test_xlog.py:45-61 | any WAL, backup or partial name decodes to a segment; re-encoding that segment gives the name's first 24 characters |
| `SegmentNames.DecodeSegmentName` | tests/test_xlog.py:45-69 | fails exactly when the basename has none of the four shapes, with `BadXlogSegmentName` of the basename; a timeline-only result exactly for a history name |
| `SegmentNames.DecodeIgnoresSuffix` | tests/test_xlog.py:60-61 | a backup or partial name decodes like the 24-character segment name it starts with |
| `SegmentNames.EncodeHistoryFileName` | tests/test_xlog.py:266-270 | for a 32-bit timeline the result has the history-name shape |
| `SegmentNames.DecodeEncodeHistoryFileName` | tests/test_xlog.py:266-270 | decoding an encoded history name gives back its timeline only |
| `SegmentNames.EncodeDecodeHistoryFileName` | tests/test_xlog.py:62-63 | a history basename decodes to its timeline, whose history name is that basename again |
| `SegmentNames.HashDir` | tests/test_xlog.py:159-179 | fails exactly for names of no known shape, with `BadXlogSegmentName`; empty for a history name |
| `SegmentNames.HashDirIsTimelineAndLog` | tests/test_xlog.py:160-173 | for a WAL, backup or partial name the shard is the first 16 characters of its basename |
| `SegmentNames.TimelineAndLogDigits` | tests/test_xlog.py:159-173 | those 16 characters are the `%08X` timeline followed by the `%08X` log |
| `SegmentNames.MatchShape` | tests/test_xlog.py:181-264 | the shared matcher returns each of the four shapes exactly when the name has that pattern, and nothing exactly for other names |
| `SegmentNames.IsAnyXlogFile` | tests/test_xlog.py:181-202 | true exactly when the basename has one of the four shapes |
| `SegmentNames.IsHistoryFile` | tests/test_xlog.py:204-218 | true exactly when the basename is eight hex digits and `.history` |
| `SegmentNames.IsBackupFile` | tests/test_xlog.py:220-236 | true exactly when the basename is a segment name, a dot, eight hex digits and `.backup` |
| `SegmentNames.IsPartialFile` | tests/test_xlog.py:238-250 | true exactly when the basename is a segment name and `.partial` |
| `SegmentNames.IsWalFile` | tests/test_xlog.py:252-264 | true exactly when the basename is 24 hex digits |
| `SegmentNames.ClassifiersDisjoint` | tests/test_xlog.py:181-264 | `is_any_xlog_file` is the disjunction of the four classifiers, and no name is of two kinds |
| `SegmentNames.ClassifiersIgnoreDirectory` | tests/test_xlog.py:182-193 | each classifier gives the same answer for `dir/name` as for `name` |
| `SegmentNames.ForeignPrefixRejected` | tests/test_xlog.py:198-201 | a basename starting with something other than a hex digit (`test.…`) is no WAL file and does not decode |
| `Hex.FormatHexValue` | tests/test_xlog.py:29-43 | the value of `%0NX` text is the number printed |
| `Hex.UpperHexFormat` | tests/test_xlog.py:45-59 | printing the value of uppercase hex text at its own width gives the text back |
| `Lsn.ParseLsn` | tests/test_xlog.py:319-326 | a result is below 2^64; every failure is `ValueError` |
| `Lsn.ParseLsnAt` | tests/test_xlog.py:319-324 | text of 1–8 hex digits, a slash and 1–8 hex digits parses to `hi << 32 + lo` |
| `Lsn.ParseLsnRejects` | tests/test_xlog.py:325-326 | text with no such split is a `ValueError` |
| `Lsn.ParseFormatLsn` | tests/test_xlog.py:319-329 | parsing the `%X/%08X` text of a 64-bit LSN gives the LSN back |
| `Lsn.LocationToXlogfileNameOffset` | tests/test_xlog.py:331-335 | succeeds exactly when the text parses, fails with `ValueError` otherwise, and the offset is inside a segment |
| `Lsn.LocationAddressesLsn` | tests/test_xlog.py:331-335 | the segment named is on the given timeline, and its start plus the offset is the LSN |
| `Lsn.LocationFromXlogfileNameOffset` | tests/test_xlog.py:337-339 | succeeds exactly for WAL, backup and partial names |
| `Lsn.SegmentLocation` | tests/test_xlog.py:337-339 | the LSN of a named segment and offset exists exactly for WAL, backup and partial names |
| `Lsn.LocationRoundTrip` | tests/test_xlog.py:331-339 | converting an LSN to a segment and offset and back gives its canonical text |
| `Lsn.SegmentStartSplit` | tests/test_xlog.py:331-339 | a segment's start plus an offset inside it splits back into that log, segment and offset |
| `Lsn.LocateSegmentStart` | tests/test_xlog.py:331-339 | the text of a segment's start plus an offset locates to that segment and offset |
| `Lsn.LocateLsn` | tests/test_xlog.py:331-339 | the canonical text of a 64-bit LSN locates to its log, segment and offset |
| `SegmentSequence.SegmentsPerLog` | tests/test_xlog.py:115-139 | 255 segments per log before 9.3, 256 otherwise |
| `SegmentSequence.StartWalk` | tests/test_xlog.py:71-157 | a bad first or last name fails with its decode error; different timelines fail; only two segment names on one timeline start a walk |
| `SegmentSequence.SegmentNameGenerator.constructor` | tests/test_xlog.py:71-157 | the generator starts at the first segment with the given timeline, end and version |
| `SegmentSequence.SegmentNameGenerator.Next` | tests/test_xlog.py:71-157 | yields the name at the cursor, then moves the cursor one step |
| `SegmentSequence.CollectSegmentNames` | tests/test_xlog.py:71-113 | draining the generator gives the range from the first name to the last |
| `SegmentSequence.DrainRange` | tests/test_xlog.py:71-113 | the loop yields exactly the names of the positions from start to end |
| `SegmentSequence.FirstSegmentNames` | tests/test_xlog.py:115-139 | taking n names gives the first n names of the walk |
| `SegmentSequence.TakeNames` | tests/test_xlog.py:115-139 | the islice loop yields the names of the first n positions, or fewer when the end comes first |
| `SegmentSequence.AdvanceStep` | tests/test_xlog.py:115-139 | one step goes to the very next segment, rolling over at the log boundary, and never leaves a log |
| `SegmentSequence.NotPastOrdinal` | tests/test_xlog.py:71-113 | the loop condition is a comparison of the segments' ordinal numbers |
| `SegmentSequence.OrdinalInjective` | tests/test_xlog.py:71-157 | two segments with the same ordinal number are the same segment |
| `SegmentSequence.RangeOrdinals` | tests/test_xlog.py:141-157 | the bounded walk visits every ordinal from start to end once, in order: end − start + 1 names, or none |
| `SegmentSequence.LegacyLastSegmentEnd` | tests/test_xlog.py:83-90 | before 9.3 an end at segment FF of a log gives the same walk as an end at FE of that log, from any start inside a log |
| `SegmentSequence.FirstOrdinals` | tests/test_xlog.py:115-139 | the unbounded walk's first n segments are n consecutive ordinals |
| `SegmentSequence.FirstOfRange` | tests/test_xlog.py:71-157 | taking n names from a bounded walk gives the first n names of the range, or all of it |
| `HistoryFile.ParseDecimal` | tests/test_xlog.py:272-282 | `int()` succeeds exactly on optionally signed digits between whitespace; plain digits give their decimal value |
| `HistoryFile.ParseHistoryLine` | tests/test_xlog.py:272-317 | a data line parses exactly when it has three tab-separated fields, a decimal parent timeline and an LSN; the record holds the file's timeline, the parsed parent, the parsed switchpoint and the stripped reason; a wrong field count is `BadHistoryFileContents`, a bad parent or switchpoint the `ValueError` of `int()` or `parse_lsn` |
| `HistoryFile.DataLinesAreData` | tests/test_xlog.py:284-304 | the data lines are exactly the lines of the file that are neither blank nor comments |
| `HistoryFile.DecodeHistoryFile` | tests/test_xlog.py:272-317 | the method gives what `DecodeHistory` gives, whose outcome `DecodeHistoryOutcome` states: the records of the data lines, or the error of the name, of an empty file or of the first bad data line |
| `HistoryFile.ReadLines` | tests/test_xlog.py:272-317 | the loop over the lines gives what `ParseLines` gives: by `RecordsFollowDataLines` and `ErrorOfFirstBadLine`, the records of the data lines or the error of the first bad data line |
| `HistoryFile.FailureStays` | tests/test_xlog.py:306-317 | once a prefix of the lines fails, reading the whole file fails with that same error |
| `HistoryFile.ErrorOfFirstBadLine` | tests/test_xlog.py:306-317 | reading fails exactly when some data line makes no record, and then with the error of the first such line: `BadHistoryFileContents` for a wrong field count, `ValueError` for a bad parent or switchpoint |
| `HistoryFile.CollectFirstFailure` | tests/test_xlog.py:306-317 | a failing line result with only successes before it is the error of the whole collection |
| `HistoryFile.CollectFailureAt` | tests/test_xlog.py:306-317 | every failed collection carries the error of its first failing line result |
| `HistoryFile.CollectAll` | tests/test_xlog.py:272-317 | collecting results succeeds exactly when each does, keeping every value in place |
| `HistoryFile.LineResultsAt` | tests/test_xlog.py:272-317 | the k-th line result is the parse of the k-th data line |
| `HistoryFile.ReadsDataLines` | tests/test_xlog.py:284-304 | reading the lines is collecting the parses of the data lines alone |
| `HistoryFile.RecordsFollowDataLines` | tests/test_xlog.py:272-304 | reading succeeds exactly when every data line parses, and then gives one record per data line, in order |
| `HistoryFile.DecodeHistoryOutcome` | tests/test_xlog.py:272-317 | a bad name is `BadXlogSegmentName`; no data lines is `BadHistoryFileContents`; the first data line that makes no record decides the error, `BadHistoryFileContents` without exactly three fields, `ValueError` otherwise; when every data line makes a record there is one record per data line, on the name's timeline |
| `NameExamples.SegmentNameCase1` | tests/test_xlog.py:30-31 | `0,0,0` encodes to `000000000000000000000000`, which decodes back to those fields |
| `NameExamples.SegmentNameCase2` | tests/test_xlog.py:32-33 | `1,1,1` encodes to `000000010000000100000001`, which decodes back |
| `NameExamples.SegmentNameCase3` | tests/test_xlog.py:34-35 | `10,10,10` encodes to `0000000A0000000A0000000A`, which decodes back |
| `NameExamples.SegmentNameCase4` | tests/test_xlog.py:36-37 | `17,17,17` encodes to `000000110000001100000011`, which decodes back |
| `NameExamples.SegmentNameCase5` | tests/test_xlog.py:38-39 | `0,2,1` encodes to `000000000000000200000001`, which decodes back |
| `NameExamples.SegmentNameCase6` | tests/test_xlog.py:40-41 | `1,0,2` encodes to `000000010000000000000002`, which decodes back |
| `NameExamples.SegmentNameCase7` | tests/test_xlog.py:42-43 | `2,1,0` encodes to `000000020000000100000000`, which decodes back |
| `NameExamples.DecodeBackupNameCase` | tests/test_xlog.py:60-61 | a backup label decodes to the segment `1, 0, 10` it names |
| `NameExamples.DecodeHistoryNameCase` | tests/test_xlog.py:62-63 | `00000001.history` decodes to timeline 1 alone |
| `NameExamples.ShortNameCase` | tests/test_xlog.py:64-65 | a 23-digit name is no WAL file, and decode and `hash_dir` fail with `BadXlogSegmentName` |
| `NameExamples.LongNameCase` | tests/test_xlog.py:66-67 | a 25-digit name is no WAL file, and decode and `hash_dir` fail with `BadXlogSegmentName` |
| `NameExamples.NonHexNameCase` | tests/test_xlog.py:68-69 | a name with an `X` is no WAL file, and decode and `hash_dir` fail with `BadXlogSegmentName` |
| `NameExamples.HistoryNameCase1` | tests/test_xlog.py:267 | timeline 1 has history file `00000001.history` |
| `NameExamples.HistoryNameCase2` | tests/test_xlog.py:268 | timeline 10 has history file `0000000A.history` |
| `NameExamples.HistoryNameCase3` | tests/test_xlog.py:269 | timeline 33 has history file `00000021.history` |
| `NameExamples.HistoryNameCase4` | tests/test_xlog.py:270 | timeline 328 has history file `00000148.history` |
| `ClassifierExamples.HashDirCase1` | tests/test_xlog.py:160-161 | the shard of `000000000000000200000001` is `0000000000000002` |
| `ClassifierExamples.HashDirCase2` | tests/test_xlog.py:162-163 | the shard of `000000010000000000000002` is `0000000100000000` |
| `ClassifierExamples.HashDirCase3` | tests/test_xlog.py:164-165 | the shard of `test/000000020000000100000000` is `0000000200000001` |
| `ClassifierExamples.HashDirHistoryCase1` | tests/test_xlog.py:166-167 | the shard of `00000001.history` is empty |
| `ClassifierExamples.HashDirHistoryCase2` | tests/test_xlog.py:168-169 | the shard of `00000002.history` is empty |
| `ClassifierExamples.HashDirBackupCase1` | tests/test_xlog.py:170-171 | the shard of a backup label of log 0 on timeline 1 is `0000000100000000` |
| `ClassifierExamples.HashDirBackupCase2` | tests/test_xlog.py:172-173 | the shard of a backup label of log 5 on timeline 2 is `0000000200000005` |
| `ClassifierExamples.WalFileCase` | tests/test_xlog.py:253 | a segment name is a WAL file and of no other kind |
| `ClassifierExamples.WalFileInDirectoryCase` | tests/test_xlog.py:254 | so is the same name in a directory |
| `ClassifierExamples.BackupFileCase` | tests/test_xlog.py:222-223 | a backup label is a backup file and of no other kind |
| `ClassifierExamples.BackupFileInDirectoryCase` | tests/test_xlog.py:224-225 | so is the same label in a directory |
| `ClassifierExamples.PartialFileCase` | tests/test_xlog.py:240 | a partial segment is a partial file and of no other kind |
| `ClassifierExamples.PartialFileInDirectoryCase` | tests/test_xlog.py:241 | so is the same name in a directory |
| `ClassifierExamples.HistoryFileCase` | tests/test_xlog.py:208 | `00000002.history` is a history file and of no other kind |
| `ClassifierExamples.HistoryFileInDirectoryCase` | tests/test_xlog.py:209 | so is the same name in a directory |
| `ClassifierExamples.BackupWithoutOffsetCase` | tests/test_xlog.py:197 | a `.backup` suffix without an offset is no WAL file |
| `ClassifierExamples.SegmentHistoryCase` | tests/test_xlog.py:202 | a full segment name with `.history` is no WAL file |
| `ClassifierExamples.TimelinePartialCase` | tests/test_xlog.py:218 | a timeline with `.partial` is no WAL file |
| `ClassifierExamples.BackupPartialCase` | tests/test_xlog.py:235-236 | a backup label ending in `.partial` is no WAL file |
| `ClassifierExamples.ShortPartialCase` | tests/test_xlog.py:243 | 23 digits with `.partial` is no WAL file |
| `ClassifierExamples.LongPartialCase` | tests/test_xlog.py:244 | 25 digits with `.partial` is no WAL file |
| `ClassifierExamples.NonHexPartialCase` | tests/test_xlog.py:245 | a name with an `X` and `.partial` is no WAL file |
| `ClassifierExamples.GluedBackupCase` | tests/test_xlog.py:198-199 | `test.` glued before a backup label is no WAL file |
| `ClassifierExamples.GluedBackupPartialCase` | tests/test_xlog.py:200-201 | `test.` glued before a partial backup label is no WAL file |
| `ClassifierExamples.GluedPartialCase` | tests/test_xlog.py:248-249 | `test.` glued before a partial segment is no WAL file |
| `SequenceExamples.LegacyRangeCase` | tests/test_xlog.py:72-82 | for 9.2, FD of log 1 to 02 of log 2 skips FF: five names |
| `SequenceExamples.LegacyShortRangeCase` | tests/test_xlog.py:83-90 | for 9.2, FD to FF of log 1 gives FD and FE only |
| `SequenceExamples.ModernRangeCase` | tests/test_xlog.py:92-103 | for 9.3, FD of log 1 to 02 of log 2 includes FF: six names |
| `SequenceExamples.ShortRangeCase` | tests/test_xlog.py:105-113 | for 9.3, FD to FF of log 1 gives FD, FE and FF |
| `SequenceExamples.UnboundedCase` | tests/test_xlog.py:117-126 | without end or version, the first six names from FD of log 4 cross into log 5 after FF |
| `SequenceExamples.LegacyUnboundedCase` | tests/test_xlog.py:129-139 | for 9.2.1, the first six names from FD of log 4 cross into log 5 after FE |
| `SequenceExamples.RangeCountCase` | tests/test_xlog.py:142-147 | without a version, segment 67 of log 5 to segment 67 of log 7 is 513 names |
| `SequenceExamples.LegacyRangeCountCase` | tests/test_xlog.py:151-157 | for 9.2.1, the same range is 511 names |
| `LsnExamples.ParseLsnCase1` | tests/test_xlog.py:320-321 | `2/8300168` is `(2 << 32) + 0x8300168` |
| `LsnExamples.ParseLsnCase2` | tests/test_xlog.py:322-323 | `FFFFFFFF/FFFFFFFF` is `(0xFFFFFFFF << 32) + 0xFFFFFFFF` |
| `LsnExamples.ParseLsnCase3` | tests/test_xlog.py:324 | `0/0` is 0 |
| `LsnExamples.ParseLsnCase4` | tests/test_xlog.py:325-326 | `DEADBEEF` is a `ValueError` |
| `LsnExamples.FormatLsnCase` | tests/test_xlog.py:328-329 | `0x123456789ABCDEF` prints as `1234567/89ABCDEF` |
| `LsnExamples.LocationToCase` | tests/test_xlog.py:331-335 | `A/12345678` on timeline 3 is offset `0x345678` of `000000030000000A00000012` |
| `LsnExamples.LocationFromCase` | tests/test_xlog.py:337-339 | offset `0x345678` of `000000030000000A00000012` is `A/12345678` |
| `HistoryExamples.RegularHistoryCase` | tests/test_xlog.py:273-283 | one record line in `00000002.history` gives the record: timeline 2, parent 1, switchpoint `0x283000168`, the reason |
| `HistoryExamples.CommentHistoryCase` | tests/test_xlog.py:285-293 | a comment line before the record is passed over |
| `HistoryExamples.BlankLineHistoryCase` | tests/test_xlog.py:295-303 | a comment and an empty line before the record are passed over |
| `HistoryExamples.EmptyHistoryCase` | tests/test_xlog.py:305-308 | an empty file is `BadHistoryFileContents` |
| `HistoryExamples.MissingFieldCase` | tests/test_xlog.py:310-313 | a line with two fields is `BadHistoryFileContents` |
| `HistoryExamples.ExtraFieldCase` | tests/test_xlog.py:315-317 | a line with four fields is `BadHistoryFileContents` |

## Left out

- Reading the history file from disk, and closing it, are left out. `DecodeHistoryFile` takes the file's path and its text as parameters.
- Laziness is left out. A generator without an end is modelled only through `FirstSegmentNames`, which takes a count, as `islice` does.
- The segment size is fixed at 16 MiB. The optional segment-size argument of the sequence and location functions is not modelled.
- Nothing is stated about name fields of 2^32 or more, or about walks between timelines beyond the failure.
- Whitespace for `str.strip` and `int()` is the ASCII whitespace (space, `\t`, `\n`, `\r`, `\x0b`, `\x0c`) and the separators `\x1c` to `\x1f`. The non-ASCII whitespace Python also strips (`\x85`, `\xa0` and the Unicode spaces) is left out.
- The history file is split on `\n` alone. Python's universal newlines (a lone `\r`) are not modelled.
- `HistoryFile.ParseDecimal` accepts what `int()` accepts for ASCII digits and a sign. It does not model underscores between digits or non-ASCII digits.
- `Lsn.ParseLsn` accepts 1 to 8 hex digits on each side of the slash. A longer field, which `int(x, 16)` accepts (`1FFFFFFFF/0`, say), is a `ValueError` in the model; that limit is what lets its contract promise a result below 2^64. `int(x, 16)` would also take a `0x` prefix, underscores, a sign or surrounding spaces; these are not modelled either.
- `SegmentSequence.CollectSegmentNames` requires a non-empty end name. The model reads an empty end as no end, its own choice since no test passes one. That call is modelled by `FirstSegmentNames` with no end.
- `SegmentSequence.SegmentRange` requires a non-empty end name, for the same reason.
- The classifier negatives of the tests are stated as `!IsAnyXlogFile`. That each single classifier is then false follows from `SegmentNames.ClassifiersDisjoint`.
- The exception hierarchy is left out. Errors are values of `XlogErrors.XlogError` inside a `Result`. A timeline mismatch, an `AssertionError` in the library, is the value `TimelineMismatch`.
