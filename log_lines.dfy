/** Severity levels and the plain log line that wraps a child process's
    standard output or error (Kudu.Core/Jobs/TriggeredJobRunLogger.cs:101). */
module LogLines {
  import opened Wrappers
  import opened UtcClock

  /** The severities the base logger distinguishes. */
  datatype Level = Info | Warn | Err

  const StampLength: nat := 19

  /** A DateTime formatted by the invariant culture's general pattern,
      "MM/dd/yyyy HH:mm:ss". */
  function InvariantStamp(t: UtcTime): (stamp: string)
    requires ValidTime(t)
    ensures |stamp| == StampLength
  {
    PadDigits(t.month, 2) + "/" + PadDigits(t.day, 2) + "/" + PadDigits(t.year, 4) + " " +
    PadDigits(t.hour, 2) + ":" + PadDigits(t.minute, 2) + ":" + PadDigits(t.second, 2)
  }

  /** "[{0}] {1}\r\n" filled with the clock reading and the message. */
  function PlainLine(now: UtcTime, message: string): (line: string)
    requires ValidTime(now)
    ensures |line| == StampLength + |message| + 5
    ensures line[0] == '[' && line[|line| - 2..] == "\r\n"
  {
    "[" + InvariantStamp(now) + "] " + message + "\r\n"
  }

  /** The message inside a plain line, or None when the text is not one. */
  function PlainMessage(line: string): Option<string> {
    if |line| >= StampLength + 5 && line[0] == '[' &&
       line[StampLength + 1..StampLength + 3] == "] " && line[|line| - 2..] == "\r\n"
    then Some(line[StampLength + 3..|line| - 2])
    else None
  }

  /** A plain line carries its message unaltered: the wrapper can be taken off again. */
  lemma PlainLineRoundTrip(now: UtcTime, message: string)
    requires ValidTime(now)
    ensures PlainMessage(PlainLine(now, message)) == Some(message)
  {
    var line := PlainLine(now, message);
    assert line[StampLength + 1..StampLength + 3] == "] ";
    assert line[|line| - 2..] == "\r\n";
    assert line[StampLength + 3..|line| - 2] == message;
  }

  /** The timestamp of a plain line is the clock reading of the call. */
  lemma PlainLineStamp(now: UtcTime, message: string)
    requires ValidTime(now)
    ensures PlainLine(now, message)[1..StampLength + 1] == InvariantStamp(now)
  {
  }

}
