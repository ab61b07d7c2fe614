/**
 Counting rows and logged events of one blob. A `Tally` is everything the safety
 properties say about a blob; each update of the model shifts it in a fixed way.
 */
module RenewalTally {
  import opened Common
  import opened StateMachines
  import opened RenewalModel

  function One(b: bool): int { if b then 1 else 0 }

  function CountRows(jobs: seq<Job>, b: BlobId, st: RenewalStatus): nat {
    if jobs == [] then 0
    else CountRows(jobs[..|jobs| - 1], b, st)
         + One(jobs[|jobs| - 1].blob == b && jobs[|jobs| - 1].status == st)
  }

  function CountLog(log: seq<Event>, kind: EventKind, b: BlobId): nat {
    if log == [] then 0
    else CountLog(log[..|log| - 1], kind, b) + One(log[|log| - 1].kind == kind && log[|log| - 1].blob == b)
  }

  function CountJobLog(log: seq<Event>, kind: EventKind, j: JobId): nat {
    if log == [] then 0
    else CountJobLog(log[..|log| - 1], kind, j) + One(log[|log| - 1].kind == kind && log[|log| - 1].job == j)
  }

  lemma CountRowsAppend(jobs: seq<Job>, row: Job, b: BlobId, st: RenewalStatus)
    ensures CountRows(jobs + [row], b, st) == CountRows(jobs, b, st) + One(row.blob == b && row.status == st)
  {
    assert (jobs + [row])[..|jobs|] == jobs;
  }

  lemma CountLogAppend(log: seq<Event>, e: Event, kind: EventKind, b: BlobId)
    ensures CountLog(log + [e], kind, b) == CountLog(log, kind, b) + One(e.kind == kind && e.blob == b)
  {
    assert (log + [e])[..|log|] == log;
  }

  lemma CountJobLogAppend(log: seq<Event>, e: Event, kind: EventKind, j: JobId)
    ensures CountJobLog(log + [e], kind, j) == CountJobLog(log, kind, j) + One(e.kind == kind && e.job == j)
  {
    assert (log + [e])[..|log|] == log;
  }

  lemma {:induction false} CountRowsUpdate(jobs: seq<Job>, i: nat, row: Job, b: BlobId, st: RenewalStatus)
    requires i < |jobs|
    ensures CountRows(jobs[i := row], b, st)
            == CountRows(jobs, b, st) - One(jobs[i].blob == b && jobs[i].status == st) + One(row.blob == b && row.status == st)
  {
    var n := |jobs| - 1;
    if i == n {
      assert jobs[i := row][..n] == jobs[..n];
    } else {
      assert jobs[i := row][..n] == jobs[..n][i := row];
      CountRowsUpdate(jobs[..n], i, row, b, st);
    }
  }

  /** A row of the blob in the status exists exactly when the count is positive. */
  lemma {:induction false} CountRowsWitness(jobs: seq<Job>, b: BlobId, st: RenewalStatus)
    ensures CountRows(jobs, b, st) > 0 <==> exists k :: 0 <= k < |jobs| && jobs[k].blob == b && jobs[k].status == st
  {
    if jobs != [] {
      var n := |jobs| - 1;
      CountRowsWitness(jobs[..n], b, st);
      if k :| 0 <= k < n && jobs[k].blob == b && jobs[k].status == st {
        assert jobs[..n][k] == jobs[k];
      }
    }
  }

  lemma OtherRowCount(jobs: seq<Job>, id: JobId, b: BlobId, st: RenewalStatus)
    requires id < |jobs| && jobs[id].status != st
    ensures OtherRow(jobs, id, b, st) <==> CountRows(jobs, b, st) > 0
  {
    CountRowsWitness(jobs, b, st);
  }

  // ---------- Tally ----------

  datatype Tally = Tally(
    waiting: int,       // rows estimated or pending
    retrying: int,
    inProgress: int,
    succeeded: int,
    committed: int,
    lost: int,
    recovered: int,
    crashed: int,
    beside: int,
    executing: bool,    // the executor call in flight is for a row of this blob
    confirming: bool,   // the success being recorded is that of a row of this blob
    renewing: bool,
    unique: bool)

  ghost predicate ExecutingFor(s: State, b: BlobId) {
    s.worker.Executing? && s.worker.current.row.blob == b
  }

  ghost predicate ConfirmingFor(s: State, b: BlobId) {
    s.worker.Confirming? && s.worker.current.row.blob == b
  }

  ghost function TallyOf(s: State, b: BlobId): Tally {
    Tally(CountRows(s.jobs, b, Estimated) + CountRows(s.jobs, b, Pending),
          CountRows(s.jobs, b, Retrying),
          CountRows(s.jobs, b, InProgress),
          CountRows(s.jobs, b, Succeeded),
          CountLog(s.log, Committed, b),
          CountLog(s.log, CommitLost, b),
          CountLog(s.log, EventKind.Recovered, b),
          CountLog(s.log, Crashed, b),
          CountLog(s.log, InsertedBeside, b),
          ExecutingFor(s, b),
          ConfirmingFor(s, b),
          b in s.blobs && s.blobs[b] == Renewing,
          s.unique)
  }

  /** The tally after a row of the blob changes status. */
  function Shift(t: Tally, from: RenewalStatus, to: RenewalStatus): Tally {
    t.(waiting := t.waiting - One(from == Estimated || from == Pending) + One(to == Estimated || to == Pending),
       retrying := t.retrying - One(from == Retrying) + One(to == Retrying),
       inProgress := t.inProgress - One(from == InProgress) + One(to == InProgress),
       succeeded := t.succeeded - One(from == Succeeded) + One(to == Succeeded))
  }

  function Bump(t: Tally, kind: EventKind): Tally {
    match kind
    case Committed => t.(committed := t.committed + 1)
    case CommitLost => t.(lost := t.lost + 1)
    case Recovered => t.(recovered := t.recovered + 1)
    case Crashed => t.(crashed := t.crashed + 1)
    case InsertedBeside => t.(beside := t.beside + 1)
    case _ => t
  }

  lemma LogTally(s: State, e: Event, b: BlobId)
    ensures TallyOf(s.(log := s.log + [e]), b) == if e.blob == b then Bump(TallyOf(s, b), e.kind) else TallyOf(s, b)
  {
    hide CountRows, CountLog;
    CountLogAppend(s.log, e, Committed, b);
    CountLogAppend(s.log, e, CommitLost, b);
    CountLogAppend(s.log, e, EventKind.Recovered, b);
    CountLogAppend(s.log, e, Crashed, b);
    CountLogAppend(s.log, e, InsertedBeside, b);
  }

  lemma NoteTally(s: State, kind: EventKind, j: JobId, b: BlobId)
    requires j < |s.jobs|
    ensures TallyOf(Note(s, kind, j), b) == if s.jobs[j].blob == b then Bump(TallyOf(s, b), kind) else TallyOf(s, b)
  {
    hide CountRows, CountLog;
    LogTally(s, Event(kind, j, s.jobs[j].blob), b);
  }

  lemma WriteTally(s: State, j: JobId, row: Job, b: BlobId)
    requires j < |s.jobs| && row.blob == s.jobs[j].blob
    ensures TallyOf(WriteJob(s, j, row), b)
            == if row.blob == b then Shift(TallyOf(s, b), s.jobs[j].status, row.status) else TallyOf(s, b)
  {
    hide CountRows, CountLog;
    var s1 := s.(jobs := s.jobs[j := row]);
    CountRowsUpdate(s.jobs, j, row, b, Estimated);
    CountRowsUpdate(s.jobs, j, row, b, Pending);
    CountRowsUpdate(s.jobs, j, row, b, Retrying);
    CountRowsUpdate(s.jobs, j, row, b, InProgress);
    CountRowsUpdate(s.jobs, j, row, b, Succeeded);
    LogTally(s1, Event(Wrote(s.jobs[j].status, row.status), j, row.blob), b);
  }

  lemma MoveTally(s: State, x: BlobId, source: BlobStatus, target: BlobStatus, b: BlobId)
    ensures TallyOf(MoveBlob(s, x, source, target), b)
            == if x == b && b in s.blobs && s.blobs[b] == source
               then TallyOf(s, b).(renewing := target == Renewing) else TallyOf(s, b)
    ensures TallyOf(s, b).renewing <==> b in s.blobs && s.blobs[b] == Renewing
  {
  }

  lemma WorkerTally(s: State, w: Worker, b: BlobId)
    ensures TallyOf(s.(worker := w), b)
            == TallyOf(s, b).(executing := w.Executing? && w.current.row.blob == b,
                              confirming := w.Confirming? && w.current.row.blob == b)
    ensures TallyOf(s, b).unique == s.unique
  {
  }

  lemma CountsPositive(jobs: seq<Job>, j: JobId)
    requires j < |jobs|
    ensures CountRows(jobs, jobs[j].blob, jobs[j].status) > 0
  {
    CountRowsWitness(jobs, jobs[j].blob, jobs[j].status);
  }

  /** A row in the status shows up in the tally of its blob. */
  lemma RowTally(s: State, j: JobId, b: BlobId)
    requires j < |s.jobs| && s.jobs[j].blob == b
    ensures s.jobs[j].status == InProgress ==> TallyOf(s, b).inProgress > 0
    ensures s.jobs[j].status == Retrying ==> TallyOf(s, b).retrying > 0
    ensures s.jobs[j].status == Estimated || s.jobs[j].status == Pending ==> TallyOf(s, b).waiting > 0
    ensures s.jobs[j].status == Succeeded ==> TallyOf(s, b).succeeded > 0
  {
    CountsPositive(s.jobs, j);
  }

  lemma OtherRowTally(s: State, j: JobId, b: BlobId)
    requires j < |s.jobs| && Waiting(s.jobs[j].status)
    ensures OtherRow(s.jobs, j, b, Succeeded) <==> TallyOf(s, b).succeeded > 0
    ensures OtherRow(s.jobs, j, b, InProgress) <==> TallyOf(s, b).inProgress > 0
  {
    OtherRowCount(s.jobs, j, b, Succeeded);
    OtherRowCount(s.jobs, j, b, InProgress);
  }

  lemma RecoverRowTally(s: State, j: JobId, b: BlobId)
    requires j < |s.jobs| && s.jobs[j].status == InProgress
    ensures TallyOf(RecoverRow(s, j), b)
            == if s.jobs[j].blob != b then TallyOf(s, b)
               else Bump(Shift(TallyOf(s, b), InProgress, Pending), EventKind.Recovered).(renewing := false)
  {
    hide CountRows, CountLog;
    var row := s.jobs[j].(status := Pending, attempt := s.jobs[j].attempt + 1);
    var s1 := WriteJob(s, j, row);
    WriteTally(s, j, row, b);
    NoteTally(s1, EventKind.Recovered, j, b);
    MoveTally(Note(s1, EventKind.Recovered, j), row.blob, Renewing, Expiring, b);
  }

  lemma MarkSucceededTally(s: State, j: JobId, now: int, b: BlobId)
    requires j < |s.jobs|
    ensures TallyOf(MarkSucceeded(s, j, now), b)
            == if s.jobs[j].blob == b then Bump(Shift(TallyOf(s, b), s.jobs[j].status, Succeeded), Committed) else TallyOf(s, b)
  {
    hide CountRows, CountLog;
    var row := s.jobs[j].(status := Succeeded, heartbeatAt := Some(now));
    WriteTally(s, j, row, b);
    NoteTally(WriteJob(s, j, row), Committed, j, b);
  }

  /** What the catch block does to the tally: the row retries or fails for good. */
  lemma HandleErrorTally(s: State, j: JobId, snap: Job, now: int, e: Failure, b: BlobId)
    requires j < |s.jobs|
    ensures var t := TallyOf(s, b);
            var from := s.jobs[j].status;
            TallyOf(HandleError(s, j, snap, now, e), b)
            in {if s.jobs[j].blob != b then t else Shift(t, from, Retrying),
                if s.jobs[j].blob != b then t else Shift(t, from, FailedFinal).(renewing := false)}
  {
    hide CountRows, CountLog;
    var row := HandleError(s, j, snap, now, e).jobs[j];
    var s0 := if row.status == Retrying then s else MoveBlob(s, s.jobs[j].blob, Renewing, Expiring);
    MoveTally(s, s.jobs[j].blob, Renewing, Expiring, b);
    WriteTally(s0, j, row, b);
  }

  lemma InsertTally(s: State, rec: JobRecord, now: int, b: BlobId)
    requires rec.status == Estimated || rec.status == Pending
    ensures var t := TallyOf(s, b);
            TallyOf(Insert(s, rec, now), b)
            == if rec.blob != b then t
               else t.(waiting := t.waiting + 1, beside := t.beside + One(t.inProgress > 0 || t.confirming))
  {
    hide CountRows, CountLog;
    var row := NewRow(rec, now);
    CountRowsAppend(s.jobs, row, b, Estimated);
    CountRowsAppend(s.jobs, row, b, Pending);
    CountRowsAppend(s.jobs, row, b, Retrying);
    CountRowsAppend(s.jobs, row, b, InProgress);
    CountRowsAppend(s.jobs, row, b, Succeeded);
    LogTally(s.(jobs := s.jobs + [row]), Event(InsertedBeside, |s.jobs|, rec.blob), b);
    CountRowsWitness(s.jobs, rec.blob, InProgress);
  }

  lemma RefreshTally(s: State, j: JobId, rec: JobRecord, b: BlobId)
    requires j < |s.jobs|
    ensures TallyOf(s.(jobs := s.jobs[j := Refresh(s.jobs[j], rec)]), b) == TallyOf(s, b)
  {
    hide CountRows, CountLog;
    var row := Refresh(s.jobs[j], rec);
    CountRowsUpdate(s.jobs, j, row, b, Estimated);
    CountRowsUpdate(s.jobs, j, row, b, Pending);
    CountRowsUpdate(s.jobs, j, row, b, Retrying);
    CountRowsUpdate(s.jobs, j, row, b, InProgress);
    CountRowsUpdate(s.jobs, j, row, b, Succeeded);
  }

  /** The check-then-upsert SELECT returns nothing only when no row of the blob waits or retries. */
  lemma NoExistingTally(s: State, b: BlobId)
    requires IsExisting(s.jobs, b, None)
    ensures TallyOf(s, b).waiting == 0 && TallyOf(s, b).retrying == 0
  {
    CountRowsWitness(s.jobs, b, Estimated);
    CountRowsWitness(s.jobs, b, Pending);
    CountRowsWitness(s.jobs, b, Retrying);
  }

  /** Moving the blob on after a success only ends its renewing. */
  lemma AdvanceTally(s: State, x: BlobId, progress: BlobProgress, b: BlobId)
    ensures Advance(s, x, progress).jobs == s.jobs
    ensures TallyOf(Advance(s, x, progress), b)
            == if x == b && progress != NotMoved then TallyOf(s, b).(renewing := false) else TallyOf(s, b)
  {
    hide CountRows, CountLog;
    if progress != NotMoved {
      MoveTally(s, x, Renewing, Renewed, b);
    }
    if progress.Onward? {
      MoveTally(MoveBlob(s, x, Renewing, Renewed), x, Renewed, if progress.policyApplies then Protected else Tracked, b);
    }
  }

  lemma ChangeTally(s: State, x: BlobId, status: BlobStatus, b: BlobId)
    ensures TallyOf(s.(blobs := s.blobs[x := status]), b)
            == if x == b then TallyOf(s, b).(renewing := status == Renewing) else TallyOf(s, b)
  {
  }
}
