/** The status record of one triggered run and the read-modify-write updates
    that TriggeredJobRunLogger applies to it. */
module StatusRecords {
  import opened Wrappers
  import opened UtcClock

  /** TriggeredJobStatus: the run's status text and its start and end times;
      None stands for a field that was never assigned. */
  datatype TriggeredJobStatus = TriggeredJobStatus(status: Option<string>,
                                                   startTime: Option<UtcTime>,
                                                   endTime: Option<UtcTime>)

  /** `new TriggeredJobStatus()`: a record with no field assigned. */
  const DefaultStatus := TriggeredJobStatus(None, None, None)

  const InitializingStatus := "Initializing"
  const FailedStatus := "Failed"

  /** The stored record when one could be read, otherwise a fresh default one. */
  function ReadOrDefault(stored: Option<TriggeredJobStatus>): (r: TriggeredJobStatus)
    ensures stored.Some? ==> r == stored.value
    ensures stored.None? ==> r.status.None? && r.startTime.None? && r.endTime.None?
  {
    stored.GetOr(DefaultStatus)
  }

  /** The record LogNewRun writes for a run whose clock read `start`. */
  function InitialStatus(start: UtcTime): (r: TriggeredJobStatus)
    ensures r.status == Some(InitializingStatus) && r.startTime == Some(start) && r.endTime.None?
  {
    DefaultStatus.(status := Some(InitializingStatus), startTime := Some(start))
  }

  /** The one field a status operation assigns before writing the record back. */
  datatype StatusUpdate = SetStatus(status: string) | SetEndTime(now: UtcTime)

  /** The record written back by ReportStatus, LogError (SetStatus) or ReportEndRun (SetEndTime). */
  function Updated(stored: Option<TriggeredJobStatus>, u: StatusUpdate): (r: TriggeredJobStatus)
    ensures r.startTime == ReadOrDefault(stored).startTime
  {
    var rec := ReadOrDefault(stored);
    match u
    case SetStatus(s) => rec.(status := Some(s))
    case SetEndTime(now) => rec.(endTime := Some(now))
  }

  /** An update assigns exactly its own field; the other two are those of the
      record read back, or of the default record when none was readable. */
  lemma UpdatedChangesOneField(stored: Option<TriggeredJobStatus>, u: StatusUpdate)
    ensures u.SetStatus? ==> Updated(stored, u).status == Some(u.status)
    ensures u.SetEndTime? ==> Updated(stored, u).endTime == Some(u.now)
    ensures Updated(stored, u).startTime == ReadOrDefault(stored).startTime
    ensures u.SetStatus? ==> Updated(stored, u).endTime == ReadOrDefault(stored).endTime
    ensures u.SetEndTime? ==> Updated(stored, u).status == ReadOrDefault(stored).status
    ensures stored.None? ==> Updated(stored, u).startTime.None?
  {
  }

  /** Reporting a status twice leaves only the second: no trace of the first survives. */
  lemma ReportStatusTwiceKeepsLast(stored: Option<TriggeredJobStatus>, first: string, second: string)
    ensures Updated(Some(Updated(stored, SetStatus(first))), SetStatus(second))
            == Updated(stored, SetStatus(second))
  {
  }

  /** The stored record after a series of status operations, applied in order. */
  function Replay(stored: Option<TriggeredJobStatus>, updates: seq<StatusUpdate>): Option<TriggeredJobStatus>
    decreases |updates|
  {
    if updates == [] then stored else Replay(Some(Updated(stored, updates[0])), updates[1..])
  }

  /** Replaying one more update is applying it to the result of the others. */
  lemma {:induction false} ReplaySnoc(stored: Option<TriggeredJobStatus>, updates: seq<StatusUpdate>, u: StatusUpdate)
    ensures Replay(stored, updates + [u]) == Some(Updated(Replay(stored, updates), u))
    decreases |updates|
  {
    if updates != [] {
      assert (updates + [u])[1..] == updates[1..] + [u];
      ReplaySnoc(Some(Updated(stored, updates[0])), updates[1..], u);
    }
  }

  /** Once a record is stored, no status operation changes its start time. */
  lemma {:induction false} StartTimeNeverChanges(rec: TriggeredJobStatus, updates: seq<StatusUpdate>)
    ensures Replay(Some(rec), updates).Some?
    ensures Replay(Some(rec), updates).value.startTime == rec.startTime
    decreases |updates|
  {
    if updates != [] {
      StartTimeNeverChanges(Updated(Some(rec), updates[0]), updates[1..]);
    }
  }

  /** Status reports alone never touch the end time. */
  lemma {:induction false} StatusReportsKeepEndTime(rec: TriggeredJobStatus, updates: seq<StatusUpdate>)
    requires forall i :: 0 <= i < |updates| ==> updates[i].SetStatus?
    ensures Replay(Some(rec), updates).Some?
    ensures Replay(Some(rec), updates).value.endTime == rec.endTime
    decreases |updates|
  {
    if updates != [] {
      StatusReportsKeepEndTime(Updated(Some(rec), updates[0]), updates[1..]);
    }
  }

  /** The status set by the last SetStatus among `updates`, or the one read back
      (or the default's) when there is none. */
  function LastStatus(stored: Option<TriggeredJobStatus>, updates: seq<StatusUpdate>): Option<string>
    decreases |updates|
  {
    if updates == [] then ReadOrDefault(stored).status
    else if updates[|updates| - 1].SetStatus? then Some(updates[|updates| - 1].status)
    else LastStatus(stored, updates[..|updates| - 1])
  }

  /** The end time set by the last SetEndTime among `updates`, or the one read
      back (or the default's) when there is none. */
  function LastEndTime(stored: Option<TriggeredJobStatus>, updates: seq<StatusUpdate>): Option<UtcTime>
    decreases |updates|
  {
    if updates == [] then ReadOrDefault(stored).endTime
    else if updates[|updates| - 1].SetEndTime? then Some(updates[|updates| - 1].now)
    else LastEndTime(stored, updates[..|updates| - 1])
  }

  /** Last writer wins for the status: whatever end-time updates follow, the
      status is the one the last status report set. */
  lemma {:induction false} StatusIsLastReported(stored: Option<TriggeredJobStatus>, updates: seq<StatusUpdate>)
    ensures ReadOrDefault(Replay(stored, updates)).status == LastStatus(stored, updates)
    decreases |updates|
  {
    if updates != [] {
      var init, u := updates[..|updates| - 1], updates[|updates| - 1];
      assert updates == init + [u];
      ReplaySnoc(stored, init, u);
      if u.SetEndTime? {
        StatusIsLastReported(stored, init);
      }
    }
  }

  /** Last writer wins for the end time: whatever status reports follow, the
      end time is the one the last ReportEndRun set. */
  lemma {:induction false} EndTimeIsLastReported(stored: Option<TriggeredJobStatus>, updates: seq<StatusUpdate>)
    ensures ReadOrDefault(Replay(stored, updates)).endTime == LastEndTime(stored, updates)
    decreases |updates|
  {
    if updates != [] {
      var init, u := updates[..|updates| - 1], updates[|updates| - 1];
      assert updates == init + [u];
      ReplaySnoc(stored, init, u);
      if u.SetStatus? {
        EndTimeIsLastReported(stored, init);
      }
    }
  }

  /** The field the final operation assigns holds that operation's value: the
      one-step case of StatusIsLastReported and EndTimeIsLastReported. */
  lemma LastUpdateWins(stored: Option<TriggeredJobStatus>, updates: seq<StatusUpdate>, u: StatusUpdate)
    ensures Replay(stored, updates + [u]).Some?
    ensures u.SetStatus? ==> Replay(stored, updates + [u]).value.status == Some(u.status)
    ensures u.SetEndTime? ==> Replay(stored, updates + [u]).value.endTime == Some(u.now)
  {
    ReplaySnoc(stored, updates, u);
  }
}
