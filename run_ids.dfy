/** The identifier of a triggered job run: the UTC start time rendered with
    the custom format "yyyyMMddHHmmss" (Kudu.Core/Jobs/TriggeredJobRunLogger.cs:33). */
module RunIds {
  import opened Wrappers
  import opened UtcClock

  const RunIdLength: nat := 14

  /** DateTime.ToString("yyyyMMddHHmmss"): fourteen digits, to the second. */
  function FormatRunId(t: UtcTime): (id: string)
    requires ValidTime(t)
    ensures |id| == RunIdLength && AllDigits(id)
  {
    PadDigits(t.year, 4) + PadDigits(t.month, 2) + PadDigits(t.day, 2) +
    PadDigits(t.hour, 2) + PadDigits(t.minute, 2) + PadDigits(t.second, 2)
  }

  /** Reads a run id back into the second it names; None for anything that
      FormatRunId cannot produce. */
  function ParseRunId(id: string): Option<UtcTime> {
    if |id| == RunIdLength && AllDigits(id) then
      var t := UtcTime(DigitsValue(id[0..4]), DigitsValue(id[4..6]), DigitsValue(id[6..8]),
                       DigitsValue(id[8..10]), DigitsValue(id[10..12]), DigitsValue(id[12..14]), 0);
      if ValidTime(t) then Some(t) else None
    else
      None
  }

  /** The id keeps every field down to the second and drops the sub-second part. */
  lemma RunIdRoundTrip(t: UtcTime)
    requires ValidTime(t)
    ensures ParseRunId(FormatRunId(t)) == Some(ToSecond(t))
  {
    var id := FormatRunId(t);
    assert id[0..4] == PadDigits(t.year, 4);
    assert id[4..6] == PadDigits(t.month, 2);
    assert id[6..8] == PadDigits(t.day, 2);
    assert id[8..10] == PadDigits(t.hour, 2);
    assert id[10..12] == PadDigits(t.minute, 2);
    assert id[12..14] == PadDigits(t.second, 2);
    DigitsValueOfPad(t.year, 4);
    DigitsValueOfPad(t.month, 2);
    DigitsValueOfPad(t.day, 2);
    DigitsValueOfPad(t.hour, 2);
    DigitsValueOfPad(t.minute, 2);
    DigitsValueOfPad(t.second, 2);
  }

  /** Every id the parser accepts is the rendering of the second it names. */
  lemma ParsedRunIdFormatsBack(id: string)
    requires ParseRunId(id).Some?
    ensures FormatRunId(ParseRunId(id).value) == id
  {
    PadOfDigitsValue(id[0..4]);
    PadOfDigitsValue(id[4..6]);
    PadOfDigitsValue(id[6..8]);
    PadOfDigitsValue(id[8..10]);
    PadOfDigitsValue(id[10..12]);
    PadOfDigitsValue(id[12..14]);
    assert id == id[0..4] + id[4..6] + id[6..8] + id[8..10] + id[10..12] + id[12..14];
  }

  /** Two clock readings give the same run id exactly when they fall within the same second. */
  lemma RunIdsEqualIff(a: UtcTime, b: UtcTime)
    requires ValidTime(a) && ValidTime(b)
    ensures FormatRunId(a) == FormatRunId(b) <==> SameSecond(a, b)
  {
    RunIdRoundTrip(a);
    RunIdRoundTrip(b);
  }

  /** An example reading: 2024-01-02 03:04:05 UTC. */
  lemma ExampleRunId()
    ensures FormatRunId(UtcTime(2024, 1, 2, 3, 4, 5, 0)) == "20240102030405"
  {
  }
}
