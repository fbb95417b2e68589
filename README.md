# Triggered job run logger, modelled in Dafny

Kudu runs triggered WebJobs on demand. Each run gets its own logger, `TriggeredJobRunLogger`. The logger creates a history directory for the run. It keeps a status record for the run: the status text, the start time and the end time. It also appends lines to two log files in that directory, `output.log` and `error.log`.

This project models that logger:

- **Run identity and layout.** The run id is the UTC start time printed as `yyyyMMddHHmmss` (`RunIds`). The history directory is `JobsDataPath\triggered\<job name>\<run id>`, joined by `Path.Combine` (`Paths`, `Jobs.HistoryPath`). The two log files sit inside that directory.
- **Status record updates.** Each status operation reads the stored record. When no record can be read, it starts from a fresh default record. It then assigns one field and writes the whole record back (`StatusRecords`, and `ReportStatus`, `ReportEndRun`, `LogError` in `Jobs.TriggeredJobRunLogger`).
- **Log routing.** `Err`-level messages go to the error log and every other level goes to the output log. "System" messages use the base logger's format. Lines passed through from the job's stdout/stderr use `[time] message\r\n`. Appends go through `SafeLogToFile`, which never raises an error to the caller. The pass-through methods always return `true`.

The file system is a class, `Jobs.FileSystem`. It holds the directories, the status files (one record per path), the log files (each a sequence of appended entries) and a flag that makes appends fail. Every logger method declares `modifies fileSystem`. Its postcondition gives the new state of all four parts, so the contract says exactly what changed and what did not. Clock readings (`DateTime.UtcNow`) are parameters. `LogNewRun` reads the clock twice, once for the id and once for `StartTime`, so it takes two readings.

Behaviour of the code worth noting:

- Only `Err` goes to the error file (TriggeredJobRunLogger.cs:104). `LogWarning` logs at level `Warn` (:73), so its entries go to `output.log`.
- The plain-line timestamp is `"[{0}] {1}\r\n".FormatInvariant(DateTime.UtcNow, …)`. That is the invariant culture's general date format, `MM/dd/yyyy HH:mm:ss`, not ISO 8601 (`LogLines.InvariantStamp`).
- Nothing makes `EndTime` later than `StartTime`, and nothing stops `ReportEndRun` from running twice. Each call just writes the clock reading it is given.
- When two runs of one job start in the same second, they get the same directory (`Jobs.RunDirectoriesEqualIff`). The second `LogNewRun` then overwrites the first run's status record.

`Constants.TriggeredPath` is taken to be `"triggered"`; the constants file is not part of this model.

## Model

| member | source | states |
|---|---|---|
| RunIds.FormatRunId | Kudu.Core/Jobs/TriggeredJobRunLogger.cs:33 | the run id of a clock reading is exactly 14 decimal digits |
| RunIds.RunIdRoundTrip | Kudu.Core/Jobs/TriggeredJobRunLogger.cs:33 | parsing a run id gives back the reading's year, month, day, hour, minute and second; only the sub-second part is lost |
| RunIds.ParsedRunIdFormatsBack | Kudu.Core/Jobs/TriggeredJobRunLogger.cs:33 | every string the id parser accepts is the id of the second it names, so format and parse are inverse both ways |
| RunIds.RunIdsEqualIff | Kudu.Core/Jobs/TriggeredJobRunLogger.cs:33 | two clock readings give the same run id if and only if they fall in the same second |
| RunIds.ExampleRunId | Kudu.Core/Jobs/TriggeredJobRunLogger.cs:33 | 2024-01-02 03:04:05 UTC gives the id `20240102030405` |
| UtcClock.DigitsValueOfPad | Kudu.Core/Jobs/TriggeredJobRunLogger.cs:33 | reading back a zero-padded date field gives the number, when it fits the field's width |
| UtcClock.PadOfDigitsValue | Kudu.Core/Jobs/TriggeredJobRunLogger.cs:33 | re-padding the value of a digit string to its own length gives the string back |
| Paths.Combine | Kudu.Core/Jobs/TriggeredJobRunLogger.cs:23-27 | an empty component, parent or child, leaves the other path; a rooted component replaces the parent; otherwise the parent stays as the prefix of the result |
| Jobs.HistoryPath | Kudu.Core/Jobs/TriggeredJobRunLogger.cs:23 | the history directory joins JobsDataPath, `triggered`, the job name and the id, and ends with the id whenever the id is a non-empty relative name |
| Jobs.OutputFilePath | Kudu.Core/Jobs/TriggeredJobRunLogger.cs:26 | the output log path is the history directory joined with `output.log`, and ends with that name |
| Jobs.ErrorFilePath | Kudu.Core/Jobs/TriggeredJobRunLogger.cs:27 | the error log path is the history directory joined with `error.log`, and ends with that name |
| Jobs.LogFilePath | Kudu.Core/Jobs/TriggeredJobRunLogger.cs:104 | the file chosen for a level ends with `error.log` for Err and with `output.log` for every other level |
| Jobs.LogEntry | Kudu.Core/Jobs/TriggeredJobRunLogger.cs:95-102 | a system message is the base class's formatting of level, text and time; a plain one is a line from which the exact message can be read back, stamped with the call's clock reading |
| LogLines.PlainLine | Kudu.Core/Jobs/TriggeredJobRunLogger.cs:101 | a plain line is the message plus exactly five wrapper characters and the 19-character stamp, opening with `[` and closing with `\r\n` |
| StatusRecords.ReadOrDefault | Kudu.Core/Jobs/TriggeredJobRunLogger.cs:46 | the record read back when there is one, otherwise a record with no field assigned (the `??` fallback at :46, :53 and :65) |
| StatusRecords.Updated | Kudu.Core/Jobs/TriggeredJobRunLogger.cs:53-54 | the record written back by a status operation (:46-47, :53-54, :65-66) never changes the start time read back |
| Paths.CombineEndsWith | Kudu.Core/Jobs/TriggeredJobRunLogger.cs:26-27 | a non-empty relative component is always the tail of the combined path |
| Paths.CombineInjective | Kudu.Core/Jobs/TriggeredJobRunLogger.cs:23 | under one parent, two relative components give the same path if and only if they are equal |
| Jobs.HistoryPathEndsWithRunId | Kudu.Core/Jobs/TriggeredJobRunLogger.cs:23 | the history directory `JobsDataPath\triggered\<job>\<id>` ends with the run id |
| Jobs.RunDirectoriesEqualIff | Kudu.Core/Jobs/TriggeredJobRunLogger.cs:23-34 | two runs of the same job share a history directory if and only if their id readings fall in the same second |
| Jobs.LogFilePathsDiffer | Kudu.Core/Jobs/TriggeredJobRunLogger.cs:26-27 | the output path ends with `output.log` and the error path with `error.log`, so they are different files |
| Jobs.ErrorLevelRoutedToErrorLogIff | Kudu.Core/Jobs/TriggeredJobRunLogger.cs:104 | a message goes to the error log if and only if its level is Err, and to the output log otherwise |
| Jobs.SafeAppend | Kudu.Core/Jobs/TriggeredJobRunLogger.cs:106 | an append adds exactly one entry to the chosen file, or nothing when the file system refuses it; every other file is unchanged |
| LogLines.InvariantStamp | Kudu.Core/Jobs/TriggeredJobRunLogger.cs:101 | the invariant-culture rendering of a clock reading is 19 characters long |
| LogLines.PlainLineRoundTrip | Kudu.Core/Jobs/TriggeredJobRunLogger.cs:101 | the `[time] message\r\n` wrapper can be taken off again to give back the exact message |
| LogLines.PlainLineStamp | Kudu.Core/Jobs/TriggeredJobRunLogger.cs:101 | the bracketed stamp of a plain line is the clock reading of the call |
| StatusRecords.InitialStatus | Kudu.Core/Jobs/TriggeredJobRunLogger.cs:35-39 | a new run's record has status "Initializing", the start reading as start time, and no end time |
| StatusRecords.UpdatedChangesOneField | Kudu.Core/Jobs/TriggeredJobRunLogger.cs:44-56 | a status update assigns only its own field; the other fields come from the stored record, or from the default record when none could be read |
| StatusRecords.ReportStatusTwiceKeepsLast | Kudu.Core/Jobs/TriggeredJobRunLogger.cs:51-56 | reporting two statuses in a row leaves the same record as reporting only the second |
| StatusRecords.ReplaySnoc | Kudu.Core/Jobs/TriggeredJobRunLogger.cs:44-56 | replaying one more status operation applies it to the record left by the earlier ones |
| StatusRecords.StartTimeNeverChanges | Kudu.Core/Jobs/TriggeredJobRunLogger.cs:44-67 | once a record is stored, no sequence of ReportStatus, ReportEndRun or LogError changes its start time |
| StatusRecords.StatusReportsKeepEndTime | Kudu.Core/Jobs/TriggeredJobRunLogger.cs:51-56 | a sequence of status reports alone never changes the end time |
| StatusRecords.LastUpdateWins | Kudu.Core/Jobs/TriggeredJobRunLogger.cs:44-56 | after any sequence of status operations, the field the final operation assigns holds that operation's value |
| StatusRecords.StatusIsLastReported | Kudu.Core/Jobs/TriggeredJobRunLogger.cs:51-56 | after any sequence of status operations, the status is the one set by the last ReportStatus or LogError, whatever ReportEndRun calls follow, or the one read back (or the default's) when there was none |
| StatusRecords.EndTimeIsLastReported | Kudu.Core/Jobs/TriggeredJobRunLogger.cs:44-49 | after any sequence of status operations, the end time is the one set by the last ReportEndRun, whatever status reports follow, or the one read back (or the default's) when there was none |
| Jobs.FileSystem.EnsureDirectory | Kudu.Core/Jobs/TriggeredJobRunLogger.cs:24 | afterwards the history directory exists; no file changes |
| Jobs.TriggeredJobRunLogger.constructor | Kudu.Core/Jobs/TriggeredJobRunLogger.cs:18-28 | fixes the id and the history, output and error paths, and creates the history directory, touching no file |
| Jobs.TriggeredJobRunLogger.LogNewRun | Kudu.Core/Jobs/TriggeredJobRunLogger.cs:31-42 | the id is the first clock reading to the second; the status file then holds "Initializing", the second reading as start time and no end time; no log file changes |
| Jobs.TriggeredJobRunLogger.WriteStatus | Kudu.Core/Jobs/TriggeredJobRunLogger.cs:40 | the record replaces the content of this run's status file and of no other file |
| Jobs.TriggeredJobRunLogger.ReportEndRun | Kudu.Core/Jobs/TriggeredJobRunLogger.cs:44-49 | the stored record's end time becomes the given reading; status and start time are those read back (or the default's); logs unchanged |
| Jobs.TriggeredJobRunLogger.ReportStatus | Kudu.Core/Jobs/TriggeredJobRunLogger.cs:51-56 | the stored record's status becomes the given text; both times are those read back (or the default's); logs unchanged |
| Jobs.TriggeredJobRunLogger.LogError | Kudu.Core/Jobs/TriggeredJobRunLogger.cs:63-69 | the status becomes "Failed" with both times those read back (or the default's), and exactly one system-formatted Err entry is appended to the error log unless the append fails; the output log is unchanged |
| Jobs.TriggeredJobRunLogger.LogWarning | Kudu.Core/Jobs/TriggeredJobRunLogger.cs:71-74 | exactly one system-formatted Warn entry is appended to the output log unless the append fails; error log and status file unchanged |
| Jobs.TriggeredJobRunLogger.LogInformation | Kudu.Core/Jobs/TriggeredJobRunLogger.cs:76-79 | exactly one system-formatted Info entry is appended to the output log unless the append fails; error log and status file unchanged |
| Jobs.TriggeredJobRunLogger.LogStandardOutput | Kudu.Core/Jobs/TriggeredJobRunLogger.cs:81-85 | returns true; the output log gains exactly the entry `[time] message\r\n` unless the append fails; error log and status unchanged |
| Jobs.TriggeredJobRunLogger.LogStandardError | Kudu.Core/Jobs/TriggeredJobRunLogger.cs:87-91 | returns true; the error log gains exactly the entry `[time] message\r\n` unless the append fails; output log and status unchanged |
| Jobs.TriggeredJobRunLogger.Log | Kudu.Core/Jobs/TriggeredJobRunLogger.cs:93-107 | formats the message (system format, or the bracketed plain line) and appends it to the error file for Err and to the output file otherwise, unless the append fails; nothing else changes |
| Jobs.TriggeredJobRunLogger.SafeLogToFile | Kudu.Core/Jobs/TriggeredJobRunLogger.cs:106 | appends one entry to the file, or leaves it unchanged when the file system refuses the write, never raising an error |

## Left out

- File I/O itself is not modelled. The status file is one entry in a map of records, so its JSON serialisation and deserialisation are not part of this model. A log file is the sequence of entries appended to it.
- Status writes go through the base class's `ReportStatus(TriggeredJobStatus)`, which is not part of this model. The model assumes such a write may fail by throwing to the caller, as nothing in this file catches it, and leaves that failure out: status writes always succeed. So the order inside `LogError` (status write first, then the append) cannot be seen in the final state.
- Jobs.TriggeredJobRunLogger.WriteStatus: assumes the base-class write only replaces the status record and logs nothing. Status files and log files are separate stores in `Jobs.FileSystem`, so a status write can never reach a log, even if `GetStatusFilePath` returned a log file's path. The "logs unchanged" clauses of `LogNewRun`, `ReportStatus`, `ReportEndRun` and `LogError` rest on this assumption.
- A status file that is missing and one that cannot be parsed are the same case here: no entry in the map. Nothing in the model corrupts a status file. `StatusRecords.StartTimeNeverChanges` therefore covers records that stay readable.
- `GetStatusFilePath`, `GetSystemFormattedMessage` and `ReadJobStatusFromFile` belong to the base class `JobLogger`, which is not part of this model. `GetStatusFilePath` and `GetSystemFormattedMessage` are function values in `Jobs.JobLoggerBase`, so the model says nothing about their results. `Jobs.TriggeredJobRunLogger.StatusFilePath` applies the first of them to the history directory. `Jobs.TriggeredJobRunLogger.ReadJobStatusFromFile` looks that path up in the status-file map. Neither carries a contract of its own: what they promise together is `WriteStatus`'s `ReadJobStatusFromFile() == Some(record)`.
- `new TriggeredJobStatus()` is not visible here. It is modelled as a record with all three fields unset.
- The model's `EnsureDirectory` adds only the history directory; the real `FileSystemHelpers.EnsureDirectory` also creates its missing ancestors. Its failure (an exception at construction) is not modelled.
- `Path.Combine` rejects paths that contain invalid characters. That check is not modelled.
- Tracing through `ITraceFactory`, and what `SafeLogToFile` does with a swallowed failure beyond leaving the file unchanged, are not modelled.
- One logger used from several threads at once is out of scope: the model is sequential. So is the clash between two runs that start in the same second, which `Jobs.RunDirectoriesEqualIff` states but nothing prevents.
- RunIds.FormatRunId: assumes the current culture uses the Gregorian calendar. `ToString("yyyyMMddHHmmss")` is called without a format provider, so under a culture such as th-TH "yyyy" would print the Buddhist-era year.
- Only the levels `Info`, `Warn` and `Err` are modelled, the three this file uses.
