/**
 What every run of the renewal queue keeps. Each invariant speaks of one arbitrary blob
 (or row), so it holds for all of them.
 */
module RenewalSafety {
  import opened Common
  import opened StateMachines
  import opened RenewalModel
  import opened RenewalTally

  // ---------- The batch copy agrees with the table ----------

  ghost predicate PickAgrees(s: State, p: Picked) {
    && p.id < |s.jobs|
    && s.jobs[p.id].blob == p.row.blob
    && s.jobs[p.id].status == p.row.status
    && Waiting(p.row.status)
  }

  ghost predicate BatchAgrees(s: State, batch: seq<Picked>) {
    && (forall k :: 0 <= k < |batch| ==> PickAgrees(s, batch[k]))
    && (forall k, l :: 0 <= k < l < |batch| ==> batch[k].id != batch[l].id)
  }

  ghost predicate WorkerAgrees(s: State) {
    match s.worker
    case Idle => true
    case Looping(batch) => BatchAgrees(s, batch)
    case Executing(p, rest) =>
      && p.id < |s.jobs| && s.jobs[p.id].blob == p.row.blob && s.jobs[p.id].status == InProgress
      && BatchAgrees(s, rest)
    case Confirming(p, rest) =>
      && p.id < |s.jobs| && s.jobs[p.id].blob == p.row.blob && s.jobs[p.id].status == Succeeded
      && BatchAgrees(s, rest)
  }

  lemma BatchAgreesAfter(s: State, s1: State, j: JobId, batch: seq<Picked>)
    requires BatchAgrees(s, batch) && OnlyRow(s, s1, j)
    requires forall k :: 0 <= k < |batch| ==> batch[k].id != j
    ensures BatchAgrees(s1, batch)
  {
    forall k | 0 <= k < |batch| ensures PickAgrees(s1, batch[k]) {
      assert PickAgrees(s, batch[k]);
    }
  }

  /** What recovery does to a stale row. */
  function ResetRow(row: Job): Job { row.(status := Pending, attempt := row.attempt + 1) }

  lemma RecoverNone(s: State, now: int)
    ensures RecoverFirst(s, now, 0) == s
  {
  }

  lemma RecoverOneMore(s: State, now: int, n: nat)
    requires n < |s.jobs|
    ensures var t, u, row := RecoverFirst(s, now, n), RecoverFirst(s, now, n + 1), s.jobs[n];
            if Stale(row, now)
            then u.jobs == t.jobs[n := ResetRow(row)] && u.blobs == MoveBlob(t, row.blob, Renewing, Expiring).blobs
                 && u.log == t.log + [Event(Wrote(row.status, Pending), n, row.blob)] + [Event(EventKind.Recovered, n, row.blob)]
            else u == t
  {
    hide Stale;
  }

  /** Recovery of the first `n` rows resets exactly the stale ones. */
  ghost predicate RowsReset(s: State, r: State, now: int, n: nat) {
    && |r.jobs| == |s.jobs|
    && forall k :: 0 <= k < |s.jobs| ==> r.jobs[k] == if k < n && Stale(s.jobs[k], now) then ResetRow(s.jobs[k]) else s.jobs[k]
  }

  lemma {:induction false} RecoverRows(s: State, now: int, n: nat)
    requires n <= |s.jobs|
    ensures RowsReset(s, RecoverFirst(s, now, n), now, n)
  {
    hide Stale, ResetRow, RecoverFirst, MoveBlob;
    if n == 0 {
      RecoverNone(s, now);
    } else {
      RecoverRows(s, now, n - 1);
      RecoverOneMore(s, now, n - 1);
    }
  }

  lemma RecoverKeepsShape(s: State, now: int, n: nat)
    requires n <= |s.jobs|
    ensures forall k :: 0 <= k < |s.jobs| ==> RecoverFirst(s, now, n).jobs[k].blob == s.jobs[k].blob
    ensures forall k :: 0 <= k < |s.jobs| ==>
              RecoverFirst(s, now, n).jobs[k].status == if k < n && Stale(s.jobs[k], now) then Pending else s.jobs[k].status
  {
    hide RecoverFirst;
    RecoverRows(s, now, n);
  }

  /** Updates that touch no row's blob or status leave every batch copy valid. */
  lemma BatchAgreesUntouched(s: State, s1: State, batch: seq<Picked>)
    requires BatchAgrees(s, batch) && |s.jobs| <= |s1.jobs|
    requires forall k :: 0 <= k < |s.jobs| ==> s1.jobs[k].blob == s.jobs[k].blob && s1.jobs[k].status == s.jobs[k].status
    ensures BatchAgrees(s1, batch)
  {
    forall k | 0 <= k < |batch| ensures PickAgrees(s1, batch[k]) {
      assert PickAgrees(s, batch[k]);
    }
  }

  lemma WorkerAgreesUntouched(s: State, s1: State)
    requires WorkerAgrees(s) && s1.worker == s.worker && |s.jobs| <= |s1.jobs|
    requires forall k :: 0 <= k < |s.jobs| ==> s1.jobs[k].blob == s.jobs[k].blob && s1.jobs[k].status == s.jobs[k].status
    ensures WorkerAgrees(s1)
  {
    match s.worker
    case Idle =>
    case Looping(batch) => BatchAgreesUntouched(s, s1, batch);
    case Executing(p, rest) => BatchAgreesUntouched(s, s1, rest);
    case Confirming(p, rest) => BatchAgreesUntouched(s, s1, rest);
  }

  lemma WorkerAgreesBegin(s: State, now: int, allowed: bool, prep: Preparation)
    requires s.worker.Looping? && s.worker.batch != [] && WorkerAgrees(s)
    ensures WorkerAgrees(Begin(s, now, allowed, prep))
  {
    hide Begin;
    var p, rest := s.worker.batch[0], s.worker.batch[1..];
    var s1 := Begin(s, now, allowed, prep);
    assert PickAgrees(s, p);
    assert forall k :: 0 <= k < |rest| ==> rest[k] == s.worker.batch[k + 1];
    assert BatchAgrees(s, rest);
    BatchAgreesAfter(s, s1, p.id, rest);
  }

  /** A step that ends or confirms the executor call touches only the current row. */
  lemma WorkerAgreesCurrent(s: State, s1: State)
    requires WorkerAgrees(s) && (s.worker.Executing? || s.worker.Confirming?)
    requires OnlyRow(s, s1, s.worker.current.id)
    requires s1.worker == Looping(s.worker.rest)
             || (s1.worker == Confirming(s.worker.current, s.worker.rest) && s1.jobs[s.worker.current.id].status == Succeeded)
    ensures WorkerAgrees(s1)
  {
    var p, rest := s.worker.current, s.worker.rest;
    forall k | 0 <= k < |rest| ensures rest[k].id != p.id {
      assert PickAgrees(s, rest[k]);
    }
    BatchAgreesAfter(s, s1, p.id, rest);
  }

  lemma WorkerAgreesStep(s: State, step: Step)
    requires WorkerAgrees(s) && Enabled(s, step)
    ensures WorkerAgrees(Apply(s, step))
  {
    hide Begin, ThrowCall, Confirm, Close;
    match step
    case StartBatch(now, ids) =>
    case BeginJob(now, allowed, prep) => WorkerAgreesBegin(s, now, allowed, prep);
    case ThrowJob(_, _, _) => WorkerAgreesCurrent(s, Apply(s, step));
    case ConfirmJob(_) => WorkerAgreesCurrent(s, Apply(s, step));
    case CloseJob(_, _) => WorkerAgreesCurrent(s, Apply(s, step));
    case CrashWorker(_) =>
    case EnqueueJob(_, _, _) => WorkerAgreesUntouched(s, Apply(s, step));
    case ChangeBlob(_, _) => WorkerAgreesUntouched(s, Apply(s, step));
  }

  // ---------- The invariants of one blob ----------

  /** Holds in every run whatever crashes and late failures it contains. */
  predicate Core(t: Tally) {
    && t.waiting >= 0 && t.retrying >= 0 && t.inProgress >= 0 && t.succeeded >= 0 && t.crashed >= 0 && t.beside >= 0
    && t.committed + One(t.executing) <= t.recovered + t.lost + One(t.succeeded > 0) + t.inProgress
    && t.lost + One(t.confirming) <= t.committed
    && (t.executing ==> t.succeeded == 0 && t.inProgress >= 1 && !t.confirming)
    && (t.confirming ==> t.succeeded == 1)
    && t.waiting + t.retrying + t.inProgress + One(t.confirming) <= 1 + t.beside
    && (t.crashed == 0 ==> t.inProgress == One(t.executing) && t.recovered == 0)
    && (t.unique ==> t.inProgress <= 1)
  }

  /** What the blob row promises, but for the moment in which a success is being recorded. */
  predicate BlobSound(t: Tally) {
    t.renewing && !t.confirming ==> t.inProgress + t.retrying > 0 && t.succeeded == 0
  }

  /** From `t` to `u` the invariants are kept; no call took effect or was lost, nothing crashed or was inserted beside. */
  predicate Keeps(t: Tally, u: Tally) {
    Core(t) ==>
      && Core(u) && (BlobSound(t) ==> BlobSound(u))
      && u.committed == t.committed && u.lost == t.lost && u.crashed == t.crashed && u.beside == t.beside
  }

  lemma KeepsTransitively(t: Tally, u: Tally, v: Tally)
    ensures Keeps(t, t)
    ensures Keeps(t, u) && Keeps(u, v) ==> Keeps(t, v)
  {
  }

  /** At this step an executor call of the blob takes effect on chain. */
  ghost predicate Commits(s: State, step: Step, b: BlobId) {
    && ExecutingFor(s, b)
    && match step
       case ConfirmJob(_) => true
       case ThrowJob(_, committed, _) => committed
       case CrashWorker(InFlight(committed)) => committed
       case _ => false
  }

  /** At this step it is lost that a call of the blob took effect: the call, or the rest of the try block, throws. */
  ghost predicate LosesCommit(s: State, step: Step, b: BlobId) {
    || (ExecutingFor(s, b) && step.ThrowJob? && step.committed)
    || (ConfirmingFor(s, b) && step.CloseJob? && step.closing.LateThrew?)
  }

  /** At this step a row of the blob is inserted while another is in progress or being closed. */
  predicate InsertsBeside(s: State, step: Step, b: BlobId) {
    step.EnqueueJob? && step.existing.None? && step.rec.blob == b && Beside(s, b)
  }

  /** The step is accounted for in the counts of the blob. */
  ghost predicate Accounted(s: State, step: Step, b: BlobId, t: Tally, u: Tally) {
    && u.committed == t.committed + One(Commits(s, step, b))
    && u.lost == t.lost + One(LosesCommit(s, step, b))
    && u.crashed == t.crashed + One(step.CrashWorker? && (ExecutingFor(s, b) || ConfirmingFor(s, b)))
    && u.beside == t.beside + One(InsertsBeside(s, step, b))
  }

  lemma RecoverRowKeeps(s: State, j: JobId, b: BlobId)
    requires j < |s.jobs| && s.jobs[j].status == InProgress && !s.worker.Executing? && !s.worker.Confirming?
    ensures Keeps(TallyOf(s, b), TallyOf(RecoverRow(s, j), b))
  {
    hide TallyOf, RecoverRow;
    RecoverRowTally(s, j, b);
    WorkerTally(s, s.worker, b);
    if s.jobs[j].blob == b { RowTally(s, j, b); }
  }

  lemma {:induction false} RecoverKeeps(s: State, now: int, n: nat, b: BlobId)
    requires n <= |s.jobs| && !s.worker.Executing? && !s.worker.Confirming?
    ensures Keeps(TallyOf(s, b), TallyOf(RecoverFirst(s, now, n), b))
  {
    hide TallyOf, RecoverRow, Keeps;
    var t := TallyOf(s, b);
    KeepsTransitively(t, t, t);
    if n > 0 {
      RecoverKeeps(s, now, n - 1, b);
      var r := RecoverFirst(s, now, n - 1);
      if Stale(r.jobs[n - 1], now) {
        RecoverRowKeeps(r, n - 1, b);
        KeepsTransitively(t, TallyOf(r, b), TallyOf(RecoverRow(r, n - 1), b));
      }
    }
  }

  /** The row is locked: it was pending, and no other row of the blob has succeeded or is in progress. */
  ghost predicate JustLocked(s: State, p: Picked, b: BlobId, t: Tally) {
    && p.id < |s.jobs| && s.jobs[p.id].status == InProgress && s.jobs[p.id].blob == p.row.blob
    && !t.executing && !t.confirming
    && TallyOf(s, b) == (if p.row.blob == b then Shift(t, Pending, InProgress) else t)
    && (p.row.blob == b ==> t.succeeded == 0 && t.inProgress == 0 && t.waiting > 0)
  }

  /** What locking the row and going on from there can make of the tally, whatever the blob row says. */
  predicate LockedTally(t: Tally, renewing: bool, u: Tally) {
    var l := Shift(t, Pending, InProgress).(renewing := renewing);
    || u == l.(executing := true)
    || u == Shift(l, InProgress, Retrying)
    || u == Shift(l, InProgress, FailedFinal).(renewing := false)
    || u == Shift(l, InProgress, BlockedByBudget).(renewing := false)
  }

  lemma LockedKeeps(t: Tally, renewing: bool, u: Tally)
    requires !t.executing && !t.confirming && t.succeeded == 0 && t.inProgress == 0 && t.waiting > 0
    requires LockedTally(t, renewing, u)
    ensures Keeps(t, u)
  {
  }

  /** The blob is moved to renewing before anything else. */
  lemma LockedMove(s: State, p: Picked, b: BlobId, t: Tally) returns (r: bool)
    requires JustLocked(s, p, b, t)
    ensures var s1 := MoveBlob(s, p.row.blob, Expiring, Renewing);
            && s1.jobs == s.jobs
            && TallyOf(s1, b) == if p.row.blob == b then Shift(t, Pending, InProgress).(renewing := r) else t
  {
    hide TallyOf, MoveBlob;
    MoveTally(s, p.row.blob, Expiring, Renewing, b);
    MoveBlobRows(s, p.row.blob, Expiring, Renewing);
    r := TallyOf(MoveBlob(s, p.row.blob, Expiring, Renewing), b).renewing;
  }

  lemma PrepareTally(s: State, p: Picked, rest: seq<Picked>, now: int, prep: Preparation, b: BlobId, t: Tally) returns (r: bool)
    requires JustLocked(s, p, b, t)
    ensures var u := TallyOf(Prepare(s, p, rest, now, prep), b);
            if p.row.blob == b then LockedTally(t, r, u) else u == t
  {
    r := LockedMove(s, p, b, t);
    var s1 := MoveBlob(s, p.row.blob, Expiring, Renewing);
    hide TallyOf, MoveBlob, Note, HandleError, Shift, WriteJob;
    if prep == Ready {
      NoteTally(s1, Called, p.id, b);
      WorkerTally(s1, s1.worker, b);
      WorkerTally(Note(s1, Called, p.id), Executing(p, rest), b);
    } else if prep.PrepareThrew? {
      HandleErrorTally(s1, p.id, p.row, now, prep.failure, b);
    } else {
      StopTally(s, s1, p, rest, now, prep, b);
    }
  }

  /** A check between the lock and the executor call gives up: the blob goes back and the row ends. */
  lemma StopTally(s: State, s1: State, p: Picked, rest: seq<Picked>, now: int, prep: Preparation, b: BlobId)
    requires p.id < |s.jobs| && s.jobs[p.id].blob == p.row.blob && s.jobs[p.id].status == InProgress
    requires s1 == MoveBlob(s, p.row.blob, Expiring, Renewing) && s1.jobs == s.jobs && (prep.PolicyDisabled? || prep.VaultMissing? || prep.NoPublisher?)
    ensures var t := TallyOf(s1, b);
            TallyOf(Prepare(s, p, rest, now, prep), b)
            == if p.row.blob == b
               then Shift(t, InProgress, if prep.PolicyDisabled? then BlockedByBudget else FailedFinal).(renewing := false) else t
  {
    hide TallyOf, MoveBlob, Shift, WriteJob;
    var st := if prep.PolicyDisabled? then BlockedByBudget else FailedFinal;
    MoveTally(s1, p.row.blob, Renewing, Expiring, b);
    MoveBlobRows(s1, p.row.blob, Renewing, Expiring);
    var s2 := MoveBlob(s1, p.row.blob, Renewing, Expiring);
    StoppedTally(TallyOf(s1, b), st);
    WriteTally(s2, p.id, s2.jobs[p.id].(status := st), b);
  }

  /** Moving the blob back and writing the row commute. */
  lemma StoppedTally(t: Tally, st: RenewalStatus)
    ensures Shift(t.(renewing := false), InProgress, st) == Shift(t, InProgress, st).(renewing := false)
    ensures !t.renewing ==> t.(renewing := false) == t
  {
  }

  lemma MoveBlobRows(s: State, x: BlobId, source: BlobStatus, target: BlobStatus)
    ensures MoveBlob(s, x, source, target).jobs == s.jobs
  {
  }

  lemma PrepareKeeps(s: State, p: Picked, rest: seq<Picked>, now: int, prep: Preparation, b: BlobId, t: Tally)
    requires JustLocked(s, p, b, t)
    ensures Keeps(t, TallyOf(Prepare(s, p, rest, now, prep), b))
  {
    hide TallyOf, Prepare, Shift, Keeps, LockedTally;
    var r := PrepareTally(s, p, rest, now, prep, b, t);
    if p.row.blob == b {
      LockedKeeps(t, r, TallyOf(Prepare(s, p, rest, now, prep), b));
    } else {
      KeepsTransitively(t, t, t);
    }
  }

  /** A row finished because the blob has been renewed, or attached because one of its rows is in progress. */
  lemma FoldedKeeps(t: Tally, from: RenewalStatus)
    requires (from == Pending && t.waiting > 0) || (from == Retrying && t.retrying > 0)
    requires !t.executing && !t.confirming
    ensures t.succeeded > 0 ==> Keeps(t, Shift(t, from, Succeeded))
    ensures t.succeeded == 0 && t.inProgress > 0 && !t.unique ==> Keeps(t, Shift(t, from, InProgress))
  {
  }

  lemma DispatchKeeps(s: State, p: Picked, rest: seq<Picked>, now: int, prep: Preparation, b: BlobId)
    requires p.id < |s.jobs| && s.jobs[p.id].blob == p.row.blob
    requires s.jobs[p.id].status == Pending || s.jobs[p.id].status == Retrying
    requires s.worker.Looping?
    ensures Keeps(TallyOf(s, b), TallyOf(Dispatch(s, p, rest, now, prep), b))
  {
    var row, t := s.jobs[p.id], TallyOf(s, b);
    CountsAreNat(s, row.blob);
    hide TallyOf, Prepare, Keeps, Shift, WriteJob, OtherRow;
    OtherRowTally(s, p.id, row.blob);
    RowTally(s, p.id, row.blob);
    WorkerTally(s, s.worker, b);
    WorkerTally(s, Idle, b);
    KeepsTransitively(t, t, t);
    if row.blob == b { FoldedKeeps(t, row.status); }
    if OtherRow(s.jobs, p.id, row.blob, Succeeded) {
      WriteTally(s, p.id, row.(status := Succeeded), b);
    } else if OtherRow(s.jobs, p.id, row.blob, InProgress) {
      WriteTally(s, p.id, row.(status := InProgress, startedAt := Some(now)), b);
    } else if row.status == Pending {
      LockKeeps(s, p, rest, now, prep, b);
    }
  }

  lemma LockKeeps(s: State, p: Picked, rest: seq<Picked>, now: int, prep: Preparation, b: BlobId)
    requires p.id < |s.jobs| && s.jobs[p.id].blob == p.row.blob && s.jobs[p.id].status == Pending && s.worker.Looping?
    requires p.row.blob == b ==> TallyOf(s, b).succeeded == 0 && TallyOf(s, b).inProgress == 0
    ensures var locked := s.jobs[p.id].(status := InProgress, startedAt := Some(now), heartbeatAt := Some(now));
            Keeps(TallyOf(s, b), TallyOf(Prepare(WriteJob(s, p.id, locked), p, rest, now, prep), b))
  {
    hide TallyOf, Prepare, Keeps, Shift, WriteJob;
    var locked := s.jobs[p.id].(status := InProgress, startedAt := Some(now), heartbeatAt := Some(now));
    RowTally(s, p.id, p.row.blob);
    WorkerTally(s, s.worker, b);
    WriteTally(s, p.id, locked, b);
    WriteRow(s, p.id, locked);
    PrepareKeeps(WriteJob(s, p.id, locked), p, rest, now, prep, b, TallyOf(s, b));
  }

  lemma WriteRow(s: State, j: JobId, row: Job)
    requires j < |s.jobs| && row.blob == s.jobs[j].blob
    ensures WriteJob(s, j, row).jobs == s.jobs[j := row]
  {
  }

  lemma CountsAreNat(s: State, b: BlobId)
    ensures TallyOf(s, b).succeeded >= 0 && TallyOf(s, b).inProgress >= 0
  {
  }

  /** The iteration ends before the idempotency check: no registration, or the budget refuses. */
  lemma RefuseKeeps(s: State, now: int, allowed: bool, prep: Preparation, b: BlobId)
    requires s.worker.Looping? && s.worker.batch != [] && PickAgrees(s, s.worker.batch[0])
    requires s.worker.batch[0].row.status != Retrying
    requires s.worker.batch[0].row.blob !in s.blobs || !allowed
    ensures Keeps(TallyOf(s, b), TallyOf(Begin(s, now, allowed, prep), b))
  {
    hide TallyOf, Dispatch, ValidateTransition, WriteJob, Keeps, Shift;
    var p, rest := s.worker.batch[0], s.worker.batch[1..];
    var row, t, s0 := s.jobs[p.id], TallyOf(s, b), s.(worker := Looping(rest));
    WorkerTally(s, s.worker, b);
    WorkerTally(s, Looping(rest), b);
    WorkerTally(s, Idle, b);
    KeepsTransitively(t, t, t);
    RenewalEdges(row.status, BlockedByBudget);
    RowTally(s, p.id, row.blob);
    if row.blob == b { RefusedKeeps(t, row.status); }
    WriteTally(s0, p.id, row.(status := FailedFinal), b);
    WriteTally(s0, p.id, row.(status := BlockedByBudget), b);
  }

  lemma RefusedKeeps(t: Tally, from: RenewalStatus)
    requires t.waiting > 0 && (from == Estimated || from == Pending)
    ensures Keeps(t, Shift(t, from, FailedFinal)) && Keeps(t, Shift(t, from, BlockedByBudget))
  {
  }

  /** The iteration past the budget check: the picked row is pending now, or still retrying. */
  ghost function AtDispatch(s: State): (r: State)
    requires s.worker.Looping? && s.worker.batch != [] && PickAgrees(s, s.worker.batch[0])
    ensures r.worker == Looping(s.worker.batch[1..]) && OnlyRow(s, r, s.worker.batch[0].id)
    ensures r.jobs[s.worker.batch[0].id].status in {Pending, Retrying}
  {
    var p, s0 := s.worker.batch[0], s.(worker := Looping(s.worker.batch[1..]));
    if p.row.status == Estimated then SetStatus(s0, p.id, Pending) else s0
  }

  lemma BeginDispatches(s: State, now: int, allowed: bool, prep: Preparation)
    requires s.worker.Looping? && s.worker.batch != [] && PickAgrees(s, s.worker.batch[0])
    requires s.worker.batch[0].row.status == Retrying || (s.worker.batch[0].row.blob in s.blobs && allowed)
    ensures Begin(s, now, allowed, prep) == Dispatch(AtDispatch(s), s.worker.batch[0], s.worker.batch[1..], now, prep)
  {
    hide Dispatch, WriteJob;
  }

  lemma AtDispatchTally(s: State, b: BlobId)
    requires s.worker.Looping? && s.worker.batch != [] && PickAgrees(s, s.worker.batch[0])
    ensures TallyOf(AtDispatch(s), b) == TallyOf(s, b)
  {
    hide TallyOf, WriteJob;
    var p, s0 := s.worker.batch[0], s.(worker := Looping(s.worker.batch[1..]));
    WorkerTally(s, s.worker, b);
    WorkerTally(s, s0.worker, b);
    if p.row.status == Estimated { WriteTally(s0, p.id, s.jobs[p.id].(status := Pending), b); }
  }

  lemma BeginKeeps(s: State, now: int, allowed: bool, prep: Preparation, b: BlobId)
    requires s.worker.Looping? && s.worker.batch != [] && PickAgrees(s, s.worker.batch[0])
    ensures Keeps(TallyOf(s, b), TallyOf(Begin(s, now, allowed, prep), b))
  {
    hide Begin, Dispatch, AtDispatch, TallyOf, Keeps;
    var p, rest := s.worker.batch[0], s.worker.batch[1..];
    if p.row.status != Retrying && (p.row.blob !in s.blobs || !allowed) {
      RefuseKeeps(s, now, allowed, prep, b);
    } else {
      BeginDispatches(s, now, allowed, prep);
      AtDispatchTally(s, b);
      DispatchKeeps(AtDispatch(s), p, rest, now, prep, b);
    }
  }

  lemma FlagsTally(s: State, b: BlobId)
    ensures var t := TallyOf(s, b);
            && (t.executing <==> ExecutingFor(s, b)) && (t.confirming <==> ConfirmingFor(s, b))
            && (t.renewing <==> b in s.blobs && s.blobs[b] == Renewing)
  {
  }

  /** What a throwing executor call of a row of the blob makes of the tally. */
  predicate ThrownTally(t: Tally, committed: bool, u: Tally) {
    var l0 := t.(executing := false);
    var l := if committed then Bump(Bump(l0, Committed), CommitLost) else l0;
    u == Shift(l, InProgress, Retrying) || u == Shift(l, InProgress, FailedFinal).(renewing := false)
  }

  lemma ThrowTally(s: State, now: int, committed: bool, e: Failure, b: BlobId)
    requires s.worker.Executing? && WorkerAgrees(s)
    ensures var t, u := TallyOf(s, b), TallyOf(ThrowCall(s, now, committed, e), b);
            if t.executing then ThrownTally(t, committed, u) else u == t
  {
    hide TallyOf, HandleError, Shift;
    var p := s.worker.current;
    var s0 := s.(worker := Looping(s.worker.rest));
    WorkerTally(s, s.worker, b);
    WorkerTally(s, Looping(s.worker.rest), b);
    NoteTally(s0, Committed, p.id, b);
    NoteTally(Note(s0, Committed, p.id), CommitLost, p.id, b);
    HandleErrorTally(if committed then Note(Note(s0, Committed, p.id), CommitLost, p.id) else s0, p.id, p.row, now, e, b);
  }

  lemma ThrowKeeps(s: State, now: int, committed: bool, e: Failure, b: BlobId)
    requires s.worker.Executing? && WorkerAgrees(s)
    requires Core(TallyOf(s, b))
    ensures var t, t1 := TallyOf(s, b), TallyOf(ThrowCall(s, now, committed, e), b);
            Core(t1) && (BlobSound(t) ==> BlobSound(t1)) && Accounted(s, ThrowJob(now, committed, e), b, t, t1)
  {
    hide TallyOf, ThrowCall, WorkerAgrees;
    ThrowTally(s, now, committed, e, b);
    FlagsTally(s, b);
  }

  lemma ConfirmKeeps(s: State, now: int, b: BlobId)
    requires s.worker.Executing? && WorkerAgrees(s)
    requires Core(TallyOf(s, b))
    ensures var t, t1 := TallyOf(s, b), TallyOf(Confirm(s, now), b);
            Core(t1) && (BlobSound(t) ==> BlobSound(t1)) && Accounted(s, ConfirmJob(now), b, t, t1)
  {
    hide TallyOf;
    var w := Confirming(s.worker.current, s.worker.rest);
    WorkerTally(s, s.worker, b);
    WorkerTally(s, w, b);
    MarkSucceededTally(s.(worker := w), s.worker.current.id, now, b);
  }

  /** What the end of the try block of a row of the blob makes of the tally. */
  predicate ClosedTally(t: Tally, closing: Closing, u: Tally) {
    match closing
    case Completed(_) => u == t.(confirming := false, renewing := false)
    case LateThrew(progress, _) =>
      var l := Bump(t.(confirming := false, renewing := t.renewing && progress == NotMoved), CommitLost);
      u == Shift(l, Succeeded, Retrying) || u == Shift(l, Succeeded, FailedFinal).(renewing := false)
  }

  lemma CloseTally(s: State, now: int, closing: Closing, b: BlobId)
    requires s.worker.Confirming? && WorkerAgrees(s)
    ensures var t, u := TallyOf(s, b), TallyOf(Close(s, now, closing), b);
            if t.confirming then ClosedTally(t, closing, u) else u == t
  {
    hide TallyOf, Advance, HandleError, Shift;
    var p, x := s.worker.current, s.worker.current.row.blob;
    var s0 := s.(worker := Looping(s.worker.rest));
    WorkerTally(s, s.worker, b);
    WorkerTally(s, Looping(s.worker.rest), b);
    match closing
    case Completed(applies) => AdvanceTally(s0, x, Onward(applies), b);
    case LateThrew(progress, e) =>
      AdvanceTally(s0, x, progress, b);
      var s1 := Advance(s0, x, progress);
      NoteTally(s1, CommitLost, p.id, b);
      HandleErrorTally(Note(s1, CommitLost, p.id), p.id, p.row, now, e, b);
  }

  lemma CloseKeeps(s: State, now: int, closing: Closing, b: BlobId)
    requires s.worker.Confirming? && WorkerAgrees(s)
    requires Core(TallyOf(s, b))
    ensures var t, t1 := TallyOf(s, b), TallyOf(Close(s, now, closing), b);
            Core(t1) && (BlobSound(t) ==> BlobSound(t1)) && Accounted(s, CloseJob(now, closing), b, t, t1)
  {
    hide TallyOf, Close, WorkerAgrees;
    CloseTally(s, now, closing, b);
    FlagsTally(s, b);
  }

  /** The worker dies with a row set to succeeded and the renewing blob not yet moved. */
  ghost predicate Strands(s: State, step: Step, b: BlobId) {
    step == CrashWorker(AfterRowSucceeded(NotMoved)) && ConfirmingFor(s, b) && b in s.blobs && s.blobs[b] == Renewing
  }

  /** What a crash makes of the tally. */
  function CrashedTally(t: Tally, at: CrashPoint): Tally {
    match at
    case BetweenJobs => t
    case InFlight(committed) =>
      if t.executing then t.(executing := false, crashed := t.crashed + 1, committed := t.committed + One(committed)) else t
    case AfterRowSucceeded(progress) =>
      if t.confirming
      then t.(confirming := false, crashed := t.crashed + 1, renewing := t.renewing && progress == NotMoved) else t
  }

  lemma CrashTally(s: State, at: CrashPoint, b: BlobId)
    requires WorkerAgrees(s) && Enabled(s, CrashWorker(at))
    ensures TallyOf(Crash(s, at), b) == CrashedTally(TallyOf(s, b), at)
  {
    hide TallyOf, Advance;
    var s0 := s.(worker := Idle);
    WorkerTally(s, s.worker, b);
    WorkerTally(s, Idle, b);
    match at
    case BetweenJobs =>
    case InFlight(_) =>
      var j := s.worker.current.id;
      NoteTally(s0, Crashed, j, b);
      NoteTally(Note(s0, Crashed, j), Committed, j, b);
    case AfterRowSucceeded(progress) =>
      var j, x := s.worker.current.id, s.worker.current.row.blob;
      AdvanceTally(s0, x, progress, b);
      NoteTally(Advance(s0, x, progress), Crashed, j, b);
  }

  /** Of all crashes exactly that one leaves the blob in a state it should not be in. */
  lemma CrashKeeps(s: State, at: CrashPoint, b: BlobId)
    requires WorkerAgrees(s) && Enabled(s, CrashWorker(at))
    requires Core(TallyOf(s, b))
    ensures Core(TallyOf(Crash(s, at), b))
    ensures BlobSound(TallyOf(s, b)) ==> (BlobSound(TallyOf(Crash(s, at), b)) <==> !Strands(s, CrashWorker(at), b))
    ensures Accounted(s, CrashWorker(at), b, TallyOf(s, b), TallyOf(Crash(s, at), b))
  {
    hide TallyOf, Crash, WorkerAgrees;
    CrashTally(s, at, b);
    FlagsTally(s, b);
  }

  lemma BesideTally(s: State, b: BlobId)
    ensures Beside(s, b) <==> TallyOf(s, b).inProgress > 0 || TallyOf(s, b).confirming
  {
    CountRowsWitness(s.jobs, b, InProgress);
  }

  lemma EnqueueKeeps(s: State, rec: JobRecord, existing: Option<JobId>, now: int, b: BlobId)
    requires Enabled(s, EnqueueJob(rec, existing, now))
    requires Core(TallyOf(s, b))
    ensures var t, t1 := TallyOf(s, b), TallyOf(Enqueue(s, rec, existing, now), b);
            Core(t1) && (BlobSound(t) ==> BlobSound(t1)) && Accounted(s, EnqueueJob(rec, existing, now), b, t, t1)
  {
    hide TallyOf, Insert;
    match existing
    case Some(j) => RefreshTally(s, j, rec, b);
    case None =>
      InsertTally(s, rec, now, b);
      NoExistingTally(s, rec.blob);
      BesideTally(s, b);
  }

  lemma StepKeeps(s: State, step: Step, b: BlobId)
    requires WorkerAgrees(s) && Enabled(s, step) && Core(TallyOf(s, b))
    ensures var t, t1 := TallyOf(s, b), TallyOf(Apply(s, step), b);
            && Core(t1) && (BlobSound(t) ==> (BlobSound(t1) <==> !Strands(s, step, b)))
            && Accounted(s, step, b, t, t1)
  {
    hide TallyOf, RecoverFirst, Begin, ThrowCall, Confirm, Close, Crash, Enqueue;
    match step
    case StartBatch(now, ids) =>
      RecoverKeeps(s, now, |s.jobs|, b);
      var s1 := RecoverFirst(s, now, |s.jobs|);
      WorkerTally(s1, s1.worker, b);
      WorkerTally(s1, Looping(PickRows(s1.jobs, ids)), b);
    case BeginJob(now, allowed, prep) => BeginKeeps(s, now, allowed, prep, b);
    case ThrowJob(now, committed, e) => ThrowKeeps(s, now, committed, e, b);
    case ConfirmJob(now) => ConfirmKeeps(s, now, b);
    case CloseJob(now, closing) => CloseKeeps(s, now, closing, b);
    case CrashWorker(at) => CrashKeeps(s, at, b);
    case EnqueueJob(rec, existing, now) => EnqueueKeeps(s, rec, existing, now, b);
    case ChangeBlob(x, status) => ChangeTally(s, x, status, b);
  }
}
