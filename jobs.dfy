/** The per-run logger of a triggered job (Kudu.Core/Jobs/TriggeredJobRunLogger.cs):
    where a run's files live, and how each call changes the status record and
    the two log files. */
module Jobs {
  import opened Wrappers
  import opened UtcClock
  import opened RunIds
  import opened Paths
  import opened LogLines
  import opened StatusRecords

  /** Constants.TriggeredPath: the folder of triggered jobs under the jobs data path. */
  const TriggeredPath := "triggered"
  const OutputLogName := "output.log"
  const ErrorLogName := "error.log"

  /** The job being run; the logger uses only its name. */
  datatype TriggeredJob = TriggeredJob(name: string)

  /** The hosting environment; the logger uses only the jobs data path. */
  datatype Environment = Environment(jobsDataPath: string)

  /** The run's history directory: JobsDataPath / triggered / job name / run id. */
  function HistoryPath(jobsDataPath: string, jobName: string, id: string): (r: string)
    ensures id != [] && !IsRooted(id) ==> EndsWith(r, id)
  {
    Combine(Combine(Combine(jobsDataPath, TriggeredPath), jobName), id)
  }

  function OutputFilePath(historyPath: string): (r: string)
    ensures EndsWith(r, OutputLogName)
  {
    CombineEndsWith(historyPath, OutputLogName);
    Combine(historyPath, OutputLogName)
  }

  function ErrorFilePath(historyPath: string): (r: string)
    ensures EndsWith(r, ErrorLogName)
  {
    CombineEndsWith(historyPath, ErrorLogName);
    Combine(historyPath, ErrorLogName)
  }

  /** The file a message of the given level goes to. */
  function LogFilePath(historyPath: string, level: Level): (r: string)
    ensures EndsWith(r, if level == Err then ErrorLogName else OutputLogName)
  {
    if level == Err then ErrorFilePath(historyPath) else OutputFilePath(historyPath)
  }

  /** The output log and the error log of a run are two different files. */
  lemma LogFilePathsDiffer(historyPath: string)
    ensures EndsWith(OutputFilePath(historyPath), OutputLogName)
    ensures EndsWith(ErrorFilePath(historyPath), ErrorLogName)
    ensures OutputFilePath(historyPath) != ErrorFilePath(historyPath)
  {
    var o := OutputFilePath(historyPath);
    var e := ErrorFilePath(historyPath);
    CombineEndsWith(historyPath, OutputLogName);
    CombineEndsWith(historyPath, ErrorLogName);
    assert o[|o| - 10..][1] == 'u';
    assert e[|e| - 9..][0] == 'e';
  }

  /** Messages go to the error log exactly when their level is Err, and to the
      output log otherwise. */
  lemma ErrorLevelRoutedToErrorLogIff(historyPath: string, level: Level)
    ensures LogFilePath(historyPath, level) == ErrorFilePath(historyPath) <==> level == Err
    ensures LogFilePath(historyPath, level) == OutputFilePath(historyPath) <==> level != Err
  {
    LogFilePathsDiffer(historyPath);
  }

  /** The run directory is named by the run id, inside the job's own directory. */
  lemma HistoryPathEndsWithRunId(jobsDataPath: string, jobName: string, t: UtcTime)
    requires ValidTime(t)
    ensures EndsWith(HistoryPath(jobsDataPath, jobName, FormatRunId(t)), FormatRunId(t))
  {
    var id := FormatRunId(t);
    assert IsDigit(id[0]) && IsDigit(id[1]);
    CombineEndsWith(Combine(Combine(jobsDataPath, TriggeredPath), jobName), id);
  }

  /** Two runs of one job share a directory exactly when their ids were read
      within the same second. */
  lemma RunDirectoriesEqualIff(jobsDataPath: string, jobName: string, a: UtcTime, b: UtcTime)
    requires ValidTime(a) && ValidTime(b)
    ensures HistoryPath(jobsDataPath, jobName, FormatRunId(a)) == HistoryPath(jobsDataPath, jobName, FormatRunId(b))
            <==> SameSecond(a, b)
  {
    var ida, idb := FormatRunId(a), FormatRunId(b);
    assert IsDigit(ida[0]) && IsDigit(ida[1]) && IsDigit(idb[0]) && IsDigit(idb[1]);
    CombineInjective(Combine(Combine(jobsDataPath, TriggeredPath), jobName), ida, idb);
    RunIdsEqualIff(a, b);
  }

  /** The members of the base class JobLogger that this logger calls: the
      location of the status file inside a history directory, and the format
      of "system" messages (level, text and the time the message is logged). */
  datatype JobLoggerBase = JobLoggerBase(statusFilePathOf: string -> string,
                                         systemFormat: (Level, string, UtcTime) -> string)

  /** The text Log hands to SafeLogToFile. */
  function LogEntry(base: JobLoggerBase, level: Level, message: string, isSystem: bool, now: UtcTime): (entry: string)
    requires ValidTime(now)
    ensures isSystem ==> entry == base.systemFormat(level, message, now)
    ensures !isSystem ==> PlainMessage(entry) == Some(message) && entry[1..StampLength + 1] == InvariantStamp(now)
  {
    PlainLineRoundTrip(now, message);
    PlainLineStamp(now, message);
    if isSystem then base.systemFormat(level, message, now) else PlainLine(now, message)
  }

  /** The entries of the log file at `path`; a file never written is empty. */
  function LogAt(logs: map<string, seq<string>>, path: string): seq<string> {
    if path in logs then logs[path] else []
  }

  /** The effect of SafeLogToFile: one entry appended to one file, or nothing at
      all when the file system refuses the write; never an error. */
  function SafeAppend(logs: map<string, seq<string>>, path: string, entry: string, fails: bool)
    : (r: map<string, seq<string>>)
    ensures LogAt(r, path) == LogAt(logs, path) + (if fails then [] else [entry])
    ensures forall p :: p != path ==> LogAt(r, p) == LogAt(logs, p)
  {
    if fails then logs else logs[path := LogAt(logs, path) + [entry]]
  }

  /** The files the logger touches: directories, status records (one structured
      file each), log files as their sequence of appended entries, and whether
      appends currently fail (disk full, access denied). */
  class FileSystem {
    var directories: set<string>
    var statusFiles: map<string, TriggeredJobStatus>
    var logs: map<string, seq<string>>
    var appendsFail: bool

    constructor (directories: set<string>, statusFiles: map<string, TriggeredJobStatus>,
                 logs: map<string, seq<string>>, appendsFail: bool)
      ensures this.directories == directories && this.statusFiles == statusFiles
      ensures this.logs == logs && this.appendsFail == appendsFail
    {
      this.directories := directories;
      this.statusFiles := statusFiles;
      this.logs := logs;
      this.appendsFail := appendsFail;
    }

    /** FileSystemHelpers.EnsureDirectory: afterwards the directory exists. */
    method EnsureDirectory(path: string)
      modifies this
      ensures directories == old(directories) + {path}
      ensures statusFiles == old(statusFiles) && logs == old(logs) && appendsFail == old(appendsFail)
    {
      directories := directories + {path};
    }
  }

  class TriggeredJobRunLogger {
    const id: string
    const historyPath: string
    const outputFilePath: string
    const errorFilePath: string
    const fileSystem: FileSystem
    const base: JobLoggerBase

    /** The layout fixed at construction: both logs sit in the history directory. */
    predicate Valid() {
      outputFilePath == OutputFilePath(historyPath) && errorFilePath == ErrorFilePath(historyPath)
    }

    /** GetStatusFilePath(): the base class's status file for this run's history directory. */
    function StatusFilePath(): string {
      base.statusFilePathOf(historyPath)
    }

    /** ReadJobStatusFromFile: the stored record, or None when it is missing or
        cannot be read. */
    function ReadJobStatusFromFile(): Option<TriggeredJobStatus>
      reads fileSystem
    {
      if StatusFilePath() in fileSystem.statusFiles then Some(fileSystem.statusFiles[StatusFilePath()]) else None
    }

    function OutputLog(): seq<string>
      reads fileSystem
    {
      LogAt(fileSystem.logs, outputFilePath)
    }

    function ErrorLog(): seq<string>
      reads fileSystem
    {
      LogAt(fileSystem.logs, errorFilePath)
    }

    /** Fixes the run's paths and makes sure its history directory exists. */
    constructor (jobName: string, id: string, environment: Environment, fileSystem: FileSystem, base: JobLoggerBase)
      modifies fileSystem
      ensures Valid() && this.id == id && this.fileSystem == fileSystem && this.base == base
      ensures historyPath == HistoryPath(environment.jobsDataPath, jobName, id)
      ensures fileSystem.directories == old(fileSystem.directories) + {historyPath}
      ensures fileSystem.statusFiles == old(fileSystem.statusFiles) && fileSystem.logs == old(fileSystem.logs)
      ensures fileSystem.appendsFail == old(fileSystem.appendsFail)
    {
      this.id := id;
      var history := HistoryPath(environment.jobsDataPath, jobName, id);
      historyPath := history;
      outputFilePath := OutputFilePath(history);
      errorFilePath := ErrorFilePath(history);
      this.fileSystem := fileSystem;
      this.base := base;
      new;
      fileSystem.EnsureDirectory(history);
    }

    /** Starts a run: the id is the first clock reading to the second, and the
        status file then holds "Initializing" with the second reading as start
        time and no end time. */
    static method LogNewRun(triggeredJob: TriggeredJob, environment: Environment, fileSystem: FileSystem,
                            base: JobLoggerBase, idClock: UtcTime, startClock: UtcTime)
      returns (logger: TriggeredJobRunLogger)
      requires ValidTime(idClock)
      modifies fileSystem
      ensures fresh(logger) && logger.Valid() && logger.fileSystem == fileSystem && logger.base == base
      ensures logger.id == FormatRunId(idClock)
      ensures logger.historyPath == HistoryPath(environment.jobsDataPath, triggeredJob.name, logger.id)
      ensures fileSystem.directories == old(fileSystem.directories) + {logger.historyPath}
      ensures fileSystem.statusFiles == old(fileSystem.statusFiles)[logger.StatusFilePath() := InitialStatus(startClock)]
      ensures logger.ReadJobStatusFromFile() == Some(InitialStatus(startClock))
      ensures fileSystem.logs == old(fileSystem.logs) && fileSystem.appendsFail == old(fileSystem.appendsFail)
    {
      var id := FormatRunId(idClock);
      logger := new TriggeredJobRunLogger(triggeredJob.name, id, environment, fileSystem, base);
      var triggeredJobStatus := DefaultStatus.(status := Some(InitializingStatus), startTime := Some(startClock));
      logger.WriteStatus(triggeredJobStatus);
    }

    /** The base class's ReportStatus(TriggeredJobStatus): the record replaces
        the content of the status file. */
    method WriteStatus(record: TriggeredJobStatus)
      modifies fileSystem
      ensures fileSystem.statusFiles == old(fileSystem.statusFiles)[StatusFilePath() := record]
      ensures ReadJobStatusFromFile() == Some(record)
      ensures fileSystem.directories == old(fileSystem.directories) && fileSystem.logs == old(fileSystem.logs)
      ensures fileSystem.appendsFail == old(fileSystem.appendsFail)
    {
      fileSystem.statusFiles := fileSystem.statusFiles[StatusFilePath() := record];
    }

    /** Records the end of the run: only the end time changes. */
    method ReportEndRun(now: UtcTime)
      modifies fileSystem
      ensures fileSystem.statusFiles
              == old(fileSystem.statusFiles)[StatusFilePath() := Updated(old(ReadJobStatusFromFile()), SetEndTime(now))]
      ensures ReadJobStatusFromFile().Some? && ReadJobStatusFromFile().value.endTime == Some(now)
      ensures ReadJobStatusFromFile().value.status == ReadOrDefault(old(ReadJobStatusFromFile())).status
      ensures ReadJobStatusFromFile().value.startTime == ReadOrDefault(old(ReadJobStatusFromFile())).startTime
      ensures fileSystem.directories == old(fileSystem.directories) && fileSystem.logs == old(fileSystem.logs)
      ensures fileSystem.appendsFail == old(fileSystem.appendsFail)
    {
      var triggeredJobStatus := ReadJobStatusFromFile().GetOr(DefaultStatus);
      triggeredJobStatus := triggeredJobStatus.(endTime := Some(now));
      WriteStatus(triggeredJobStatus);
    }

    /** Replaces the status text: only the status changes. */
    method ReportStatus(status: string)
      modifies fileSystem
      ensures fileSystem.statusFiles
              == old(fileSystem.statusFiles)[StatusFilePath() := Updated(old(ReadJobStatusFromFile()), SetStatus(status))]
      ensures ReadJobStatusFromFile().Some? && ReadJobStatusFromFile().value.status == Some(status)
      ensures ReadJobStatusFromFile().value.startTime == ReadOrDefault(old(ReadJobStatusFromFile())).startTime
      ensures ReadJobStatusFromFile().value.endTime == ReadOrDefault(old(ReadJobStatusFromFile())).endTime
      ensures fileSystem.directories == old(fileSystem.directories) && fileSystem.logs == old(fileSystem.logs)
      ensures fileSystem.appendsFail == old(fileSystem.appendsFail)
    {
      var triggeredJobStatus := ReadJobStatusFromFile().GetOr(DefaultStatus);
      triggeredJobStatus := triggeredJobStatus.(status := Some(status));
      WriteStatus(triggeredJobStatus);
    }

    /** Marks the run "Failed", then appends the error as a system message to the error log. */
    method LogError(error: string, now: UtcTime)
      requires Valid() && ValidTime(now)
      modifies fileSystem
      ensures fileSystem.statusFiles
              == old(fileSystem.statusFiles)[StatusFilePath() := Updated(old(ReadJobStatusFromFile()), SetStatus(FailedStatus))]
      ensures ReadJobStatusFromFile().Some? && ReadJobStatusFromFile().value.status == Some(FailedStatus)
      ensures ReadJobStatusFromFile().value.startTime == ReadOrDefault(old(ReadJobStatusFromFile())).startTime
      ensures ReadJobStatusFromFile().value.endTime == ReadOrDefault(old(ReadJobStatusFromFile())).endTime
      ensures fileSystem.logs
              == SafeAppend(old(fileSystem.logs), errorFilePath, base.systemFormat(Err, error, now), old(fileSystem.appendsFail))
      ensures ErrorLog() == old(ErrorLog()) + (if old(fileSystem.appendsFail) then [] else [base.systemFormat(Err, error, now)])
      ensures OutputLog() == old(OutputLog())
      ensures fileSystem.directories == old(fileSystem.directories) && fileSystem.appendsFail == old(fileSystem.appendsFail)
    {
      var triggeredJobStatus := ReadJobStatusFromFile().GetOr(DefaultStatus);
      triggeredJobStatus := triggeredJobStatus.(status := Some(FailedStatus));
      WriteStatus(triggeredJobStatus);
      Log(Err, error, true, now);
      LogFilePathsDiffer(historyPath);
    }

    /** Appends the warning as a system message. Its level is Warn, not Err,
        so it goes to the output log. */
    method LogWarning(warning: string, now: UtcTime)
      requires Valid() && ValidTime(now)
      modifies fileSystem
      ensures fileSystem.logs
              == SafeAppend(old(fileSystem.logs), outputFilePath, base.systemFormat(Warn, warning, now), old(fileSystem.appendsFail))
      ensures OutputLog() == old(OutputLog()) + (if old(fileSystem.appendsFail) then [] else [base.systemFormat(Warn, warning, now)])
      ensures ErrorLog() == old(ErrorLog())
      ensures fileSystem.statusFiles == old(fileSystem.statusFiles) && fileSystem.directories == old(fileSystem.directories)
      ensures fileSystem.appendsFail == old(fileSystem.appendsFail)
    {
      Log(Warn, warning, true, now);
      LogFilePathsDiffer(historyPath);
    }

    /** Appends the message as a system message to the output log. */
    method LogInformation(message: string, now: UtcTime)
      requires Valid() && ValidTime(now)
      modifies fileSystem
      ensures fileSystem.logs
              == SafeAppend(old(fileSystem.logs), outputFilePath, base.systemFormat(Info, message, now), old(fileSystem.appendsFail))
      ensures OutputLog() == old(OutputLog()) + (if old(fileSystem.appendsFail) then [] else [base.systemFormat(Info, message, now)])
      ensures ErrorLog() == old(ErrorLog())
      ensures fileSystem.statusFiles == old(fileSystem.statusFiles) && fileSystem.directories == old(fileSystem.directories)
      ensures fileSystem.appendsFail == old(fileSystem.appendsFail)
    {
      Log(Info, message, true, now);
      LogFilePathsDiffer(historyPath);
    }

    /** Passes a line of the job's standard output to the output log, stamped
        with the time of the call; reports success whatever the file system did. */
    method LogStandardOutput(message: string, now: UtcTime) returns (ok: bool)
      requires Valid() && ValidTime(now)
      modifies fileSystem
      ensures ok
      ensures fileSystem.logs
              == SafeAppend(old(fileSystem.logs), outputFilePath, PlainLine(now, message), old(fileSystem.appendsFail))
      ensures OutputLog() == old(OutputLog()) + (if old(fileSystem.appendsFail) then [] else [PlainLine(now, message)])
      ensures ErrorLog() == old(ErrorLog())
      ensures fileSystem.statusFiles == old(fileSystem.statusFiles) && fileSystem.directories == old(fileSystem.directories)
      ensures fileSystem.appendsFail == old(fileSystem.appendsFail)
    {
      Log(Info, message, false, now);
      LogFilePathsDiffer(historyPath);
      return true;
    }

    /** Passes a line of the job's standard error to the error log, stamped
        with the time of the call; reports success whatever the file system did. */
    method LogStandardError(message: string, now: UtcTime) returns (ok: bool)
      requires Valid() && ValidTime(now)
      modifies fileSystem
      ensures ok
      ensures fileSystem.logs
              == SafeAppend(old(fileSystem.logs), errorFilePath, PlainLine(now, message), old(fileSystem.appendsFail))
      ensures ErrorLog() == old(ErrorLog()) + (if old(fileSystem.appendsFail) then [] else [PlainLine(now, message)])
      ensures OutputLog() == old(OutputLog())
      ensures fileSystem.statusFiles == old(fileSystem.statusFiles) && fileSystem.directories == old(fileSystem.directories)
      ensures fileSystem.appendsFail == old(fileSystem.appendsFail)
    {
      Log(Err, message, false, now);
      LogFilePathsDiffer(historyPath);
      return true;
    }

    /** Formats the message (system format, or "[time] message\r\n" for plain
        lines) and appends it to the error log for Err, to the output log otherwise. */
    method Log(level: Level, message: string, isSystem: bool, now: UtcTime)
      requires Valid() && ValidTime(now)
      modifies fileSystem
      ensures fileSystem.logs == SafeAppend(old(fileSystem.logs), LogFilePath(historyPath, level),
                                            LogEntry(base, level, message, isSystem, now), old(fileSystem.appendsFail))
      ensures fileSystem.statusFiles == old(fileSystem.statusFiles) && fileSystem.directories == old(fileSystem.directories)
      ensures fileSystem.appendsFail == old(fileSystem.appendsFail)
    {
      var entry: string;
      if isSystem {
        entry := base.systemFormat(level, message, now);
      } else {
        entry := PlainLine(now, message);
      }
      var logPath := if level == Err then errorFilePath else outputFilePath;
      SafeLogToFile(logPath, entry);
    }

    /** Appends one entry to the file at `path` unless the file system refuses
        it; a refusal is swallowed, never reported to the caller. */
    method SafeLogToFile(path: string, message: string)
      modifies fileSystem
      ensures fileSystem.logs == SafeAppend(old(fileSystem.logs), path, message, old(fileSystem.appendsFail))
      ensures fileSystem.statusFiles == old(fileSystem.statusFiles) && fileSystem.directories == old(fileSystem.directories)
      ensures fileSystem.appendsFail == old(fileSystem.appendsFail)
    {
      if !fileSystem.appendsFail {
        fileSystem.logs := fileSystem.logs[path := LogAt(fileSystem.logs, path) + [message]];
      }
    }
  }
}
