/**
 Safety of whole runs of the renewal queue, and the two places where the code falls short
 of what its documentation promises: a failure after the row is marked succeeded, and a
 crash between the two success updates.
 */
module RenewalTheorems {
  import opened Common
  import opened StateMachines
  import opened RenewalModel
  import opened RenewalTally
  import opened RenewalSafety

  /** The rest of the try block throws after the row was set to succeeded. */
  ghost predicate LateFailure(step: Step) {
    step.CloseJob? && step.closing.LateThrew?
  }

  lemma InitialTally(s: State, b: BlobId)
    requires Initial(s)
    ensures TallyOf(s, b) == Tally(0, 0, 0, 0, 0, 0, 0, 0, 0, false, false, false, s.unique)
  {
  }

  lemma {:induction false} RunKeeps(states: seq<State>, steps: seq<Step>, b: BlobId, i: nat)
    requires IsRun(states, steps) && i < |states|
    ensures WorkerAgrees(states[i]) && Core(TallyOf(states[i], b))
    ensures (forall k :: 0 <= k < i ==> !Strands(states[k], steps[k], b)) ==> BlobSound(TallyOf(states[i], b))
  {
    hide TallyOf, Enabled, Apply, Strands;
    if i == 0 {
      InitialTally(states[0], b);
    } else {
      RunKeeps(states, steps, b, i - 1);
      WorkerAgreesStep(states[i - 1], steps[i - 1]);
      StepKeeps(states[i - 1], steps[i - 1], b);
    }
  }

  ghost function Last(states: seq<State>): State
    requires states != []
  {
    states[|states| - 1]
  }

  lemma Extend(states: seq<State>, steps: seq<Step>, step: Step)
    requires IsRun(states, steps) && Enabled(Last(states), step)
    ensures IsRun(states + [Apply(Last(states), step)], steps + [step])
  {
    hide Enabled, Apply, Initial;
    var states1, steps1 := states + [Apply(Last(states), step)], steps + [step];
    forall i | 0 <= i < |steps1|
      ensures Enabled(states1[i], steps1[i]) && states1[i + 1] == Apply(states1[i], steps1[i])
    {
      if i < |steps| {
        assert states1[i] == states[i] && states1[i + 1] == states[i + 1] && steps1[i] == steps[i];
      }
    }
  }

  ghost predicate NoCrash(steps: seq<Step>) { forall k :: 0 <= k < |steps| ==> !steps[k].CrashWorker? }

  /** One more step of a run. */
  lemma Go(states: seq<State>, steps: seq<Step>, step: Step, next: State)
    returns (states1: seq<State>, steps1: seq<Step>)
    requires IsRun(states, steps) && Enabled(Last(states), step) && Apply(Last(states), step) == next
    ensures IsRun(states1, steps1) && Last(states1) == next && states1 == states + [next] && steps1 == steps + [step]
    ensures NoCrash(steps) && !step.CrashWorker? ==> NoCrash(steps1)
  {
    Extend(states, steps, step);
    hide Enabled, Apply, IsRun;
    states1, steps1 := states + [next], steps + [step];
  }

  // ---------- At-most-once renewal ----------

  /** At every point of every run, whatever crashes and failures it contains. */
  lemma CommittedCallsBounded(states: seq<State>, steps: seq<Step>, i: nat, b: BlobId)
    requires IsRun(states, steps) && i < |states|
    ensures var s := states[i];
            CountLog(s.log, Committed, b)
            <= CountLog(s.log, EventKind.Recovered, b)   // stale recoveries of its rows
               + CountLog(s.log, CommitLost, b)          // transactions whose row did not end as succeeded
               + One(exists k :: 0 <= k < |s.jobs| && s.jobs[k].blob == b && s.jobs[k].status == Succeeded)
               + CountRows(s.jobs, b, InProgress)
  {
    RunKeeps(states, steps, b, i);
    CountRowsWitness(states[i].jobs, b, Succeeded);
  }

  lemma RunStep(states: seq<State>, steps: seq<Step>, b: BlobId, k: nat)
    requires IsRun(states, steps) && k < |steps|
    ensures Core(TallyOf(states[k], b)) && Core(TallyOf(states[k + 1], b))
    ensures Accounted(states[k], steps[k], b, TallyOf(states[k], b), TallyOf(states[k + 1], b))
  {
    hide TallyOf, Enabled, Apply, Strands, Core, Accounted;
    RunKeeps(states, steps, b, k);
    assert Enabled(states[k], steps[k]) && states[k + 1] == Apply(states[k], steps[k]);
    StepKeeps(states[k], steps[k], b);
  }

  /** An executor call takes effect although an earlier one of the blob had, and that was lost. */
  ghost predicate CommitsAfterLoss(s: State, step: Step, b: BlobId) {
    Commits(s, step, b) && CountLog(s.log, CommitLost, b) > 0
  }

  /** Of a blob without a crash, the effects of all calls but the latest have been lost, and of that one too when the next is in flight. */
  lemma CrashFreeCounts(t: Tally)
    requires Core(t) && t.crashed == 0
    ensures t.lost <= t.committed <= t.lost + 1
    ensures t.executing ==> t.committed == t.lost
    ensures t.recovered == 0 && t.inProgress == One(t.executing)
  {
  }

  lemma {:induction false} RenewedTwiceExactlyAfterLoss(states: seq<State>, steps: seq<Step>, i: nat, b: BlobId)
    requires IsRun(states, steps) && i < |states| && TallyOf(states[i], b).crashed == 0
    ensures TallyOf(states[i], b).committed >= 2 <==> exists k :: 0 <= k < i && CommitsAfterLoss(states[k], steps[k], b)
  {
    if i == 0 {
      InitialTally(states[0], b);
    } else {
      var k := i - 1;
      var t := TallyOf(states[k], b);
      hide IsRun, CountRows, CountLog;
      RunStep(states, steps, b, k);
      RenewedTwiceExactlyAfterLoss(states, steps, k, b);
      CrashFreeCounts(t);
    }
  }

  /**
   A blob without a crash is renewed at most once exactly as long as no executor call of it takes
   effect after the effect of an earlier one was lost. Lost effects trail the effects by at most
   one, so this cannot fail without a loss; nothing of such a blob is ever recovered or attached.
   */
  lemma CrashFreeRenewedAtMostOnceExactly(states: seq<State>, steps: seq<Step>, i: nat, b: BlobId)
    requires IsRun(states, steps) && i < |states|
    requires CountLog(states[i].log, Crashed, b) == 0
    ensures CountLog(states[i].log, Committed, b) <= 1 <==> forall k :: 0 <= k < i ==> !CommitsAfterLoss(states[k], steps[k], b)
    ensures var committed, lost := CountLog(states[i].log, Committed, b), CountLog(states[i].log, CommitLost, b);
            lost <= committed <= lost + 1 && (ExecutingFor(states[i], b) ==> committed == lost)
    ensures CountLog(states[i].log, EventKind.Recovered, b) == 0
    ensures CountRows(states[i].jobs, b, InProgress) == One(ExecutingFor(states[i], b))
  {
    RunKeeps(states, steps, b, i);
    hide IsRun, CommitsAfterLoss;
    RenewedTwiceExactlyAfterLoss(states, steps, i, b);
    CrashFreeCounts(TallyOf(states[i], b));
  }

  /** And it is renewed again by just such a call. */
  lemma CrashFreeRenewedAgainExactly(states: seq<State>, steps: seq<Step>, k: nat, b: BlobId)
    requires IsRun(states, steps) && k < |steps|
    requires CountLog(states[k].log, Crashed, b) == 0 && Commits(states[k], steps[k], b)
    ensures CountLog(states[k + 1].log, Committed, b) >= 2 <==> CountLog(states[k].log, CommitLost, b) > 0
  {
    RunStep(states, steps, b, k);
    CrashFreeCounts(TallyOf(states[k], b));
  }

  /** Waiting, retrying, in-progress and closing rows of a blob. */
  function OpenRows(t: Tally): int { t.waiting + t.retrying + t.inProgress + One(t.confirming) }

  /** One open row, plus one for each row inserted beside a running or closing one. */
  lemma OneOpenRowPerBlob(states: seq<State>, steps: seq<Step>, i: nat, b: BlobId)
    requires IsRun(states, steps) && i < |states|
    ensures CountRows(states[i].jobs, b, Estimated) + CountRows(states[i].jobs, b, Pending)
            + CountRows(states[i].jobs, b, Retrying) + CountRows(states[i].jobs, b, InProgress)
            + One(ConfirmingFor(states[i], b))
            <= 1 + CountLog(states[i].log, InsertedBeside, b)
  {
    RunKeeps(states, steps, b, i);
  }

  lemma {:induction false} NoneBeside(states: seq<State>, steps: seq<Step>, i: nat, b: BlobId)
    requires IsRun(states, steps) && i < |states|
    requires forall k :: 0 <= k < i ==> !InsertsBeside(states[k], steps[k], b)
    ensures TallyOf(states[i], b).beside == 0
  {
    if i == 0 {
      InitialTally(states[0], b);
    } else {
      hide TallyOf, IsRun, Core, InsertsBeside, Commits, LosesCommit;
      NoneBeside(states, steps, i - 1, b);
      RunStep(states, steps, b, i - 1);
    }
  }

  /** A row inserted beside another makes two open ones. */
  lemma InsertedBesideMakesTwo(s: State, step: Step, b: BlobId)
    requires Enabled(s, step) && Core(TallyOf(s, b)) && InsertsBeside(s, step, b)
    ensures OpenRows(TallyOf(Apply(s, step), b)) >= 2
  {
    hide TallyOf, Insert, Beside;
    InsertTally(s, step.rec, step.now, b);
    BesideTally(s, b);
  }

  /** A blob has at most one open row throughout a run exactly when the run inserts no row of it beside a running or closing one. */
  lemma OneOpenRowExactly(states: seq<State>, steps: seq<Step>, b: BlobId)
    requires IsRun(states, steps)
    ensures (forall i :: 0 <= i < |states| ==> OpenRows(TallyOf(states[i], b)) <= 1)
            <==> forall k :: 0 <= k < |steps| ==> !InsertsBeside(states[k], steps[k], b)
  {
    hide TallyOf, InsertsBeside, Enabled, Apply, OpenRows, Core;
    if forall k :: 0 <= k < |steps| ==> !InsertsBeside(states[k], steps[k], b) {
      forall i | 0 <= i < |states| ensures OpenRows(TallyOf(states[i], b)) <= 1 {
        RunKeeps(states, steps, b, i);
        NoneBeside(states, steps, i, b);
        OpenBounded(TallyOf(states[i], b));
      }
    } else {
      var k :| 0 <= k < |steps| && InsertsBeside(states[k], steps[k], b);
      RunKeeps(states, steps, b, k);
      assert Enabled(states[k], steps[k]) && states[k + 1] == Apply(states[k], steps[k]);
      InsertedBesideMakesTwo(states[k], steps[k], b);
    }
  }

  lemma OpenBounded(t: Tally)
    requires Core(t)
    ensures OpenRows(t) <= 1 + t.beside
  {
  }

  /** With the index of migration 0022 no blob ever has two rows in progress: only the attaching UPDATE runs into it. */
  lemma UniqueIndexKept(states: seq<State>, steps: seq<Step>, i: nat, b: BlobId)
    requires IsRun(states, steps) && i < |states| && states[i].unique
    ensures CountRows(states[i].jobs, b, InProgress) <= 1
  {
    RunKeeps(states, steps, b, i);
  }

  // ---------- Blob rows ----------

  /** Until some crash strands it, a renewing blob has an open job and no success, but while a success of it is being recorded. */
  lemma RenewingBlobHasOpenJob(states: seq<State>, steps: seq<Step>, i: nat, b: BlobId)
    requires IsRun(states, steps) && i < |states|
    requires forall k :: 0 <= k < i ==> !Strands(states[k], steps[k], b)
    requires b in states[i].blobs && states[i].blobs[b] == Renewing && !ConfirmingFor(states[i], b)
    ensures exists j :: 0 <= j < |states[i].jobs| && states[i].jobs[j].blob == b
                        && (states[i].jobs[j].status == InProgress || states[i].jobs[j].status == Retrying)
    ensures forall j :: 0 <= j < |states[i].jobs| && states[i].jobs[j].blob == b ==> states[i].jobs[j].status != Succeeded
  {
    RunKeeps(states, steps, b, i);
    CountRowsWitness(states[i].jobs, b, InProgress);
    CountRowsWitness(states[i].jobs, b, Retrying);
    CountRowsWitness(states[i].jobs, b, Succeeded);
  }

  /** And no other step ever breaks this: the blob is sound in a whole run exactly when no step of the run strands it. */
  lemma BlobSoundExactlyUnlessStranded(states: seq<State>, steps: seq<Step>, b: BlobId)
    requires IsRun(states, steps)
    ensures (forall i :: 0 <= i < |states| ==> BlobSound(TallyOf(states[i], b)))
            <==> forall k :: 0 <= k < |steps| ==> !Strands(states[k], steps[k], b)
  {
    hide TallyOf, BlobSound, Strands, Enabled, Apply;
    if forall k :: 0 <= k < |steps| ==> !Strands(states[k], steps[k], b) {
      forall i | 0 <= i < |states| ensures BlobSound(TallyOf(states[i], b)) { RunKeeps(states, steps, b, i); }
    } else {
      var k :| 0 <= k < |steps| && Strands(states[k], steps[k], b);
      RunKeeps(states, steps, b, k);
      assert Enabled(states[k], steps[k]) && states[k + 1] == Apply(states[k], steps[k]);
      StepKeeps(states[k], steps[k], b);
    }
  }

  /** Renewing, already succeeded, and no row left that recovery could reset. */
  predicate Stranded(t: Tally) {
    t.renewing && t.succeeded > 0 && t.inProgress == 0 && !t.executing && !t.confirming
  }

  lemma {:induction false} StrandedRecover(s: State, now: int, n: nat, b: BlobId)
    requires n <= |s.jobs| && Stranded(TallyOf(s, b))
    ensures Stranded(TallyOf(RecoverFirst(s, now, n), b))
  {
    hide TallyOf, RecoverRow;
    if n > 0 {
      StrandedRecover(s, now, n - 1, b);
      var t := RecoverFirst(s, now, n - 1);
      if Stale(t.jobs[n - 1], now) {
        RecoverRowTally(t, n - 1, b);
        RowTally(t, n - 1, t.jobs[n - 1].blob);
      }
    }
  }

  lemma StrandedDispatch(s: State, p: Picked, rest: seq<Picked>, now: int, prep: Preparation, b: BlobId)
    requires p.id < |s.jobs| && s.jobs[p.id].blob == p.row.blob && Waiting(s.jobs[p.id].status)
    requires s.worker.Looping? && Stranded(TallyOf(s, b))
    ensures Stranded(TallyOf(Dispatch(s, p, rest, now, prep), b))
  {
    hide TallyOf, MoveBlob, Note, WriteJob, HandleError;
    var row := s.jobs[p.id];
    OtherRowTally(s, p.id, row.blob);
    WriteTally(s, p.id, row.(status := Succeeded), b);
    WorkerTally(s, Idle, b);
    if row.blob != b {
      WriteTally(s, p.id, row.(status := InProgress, startedAt := Some(now)), b);
      var locked := row.(status := InProgress, startedAt := Some(now), heartbeatAt := Some(now));
      WriteTally(s, p.id, locked, b);
      WriteShape(s, p.id, locked);
      StrandedPrepare(WriteJob(s, p.id, locked), p, rest, now, prep, b);
    }
  }

  lemma WriteShape(s: State, j: JobId, row: Job)
    requires j < |s.jobs| && row.blob == s.jobs[j].blob
    ensures WriteJob(s, j, row).jobs == s.jobs[j := row]
  {
  }

  lemma StrandedPrepare(s: State, p: Picked, rest: seq<Picked>, now: int, prep: Preparation, b: BlobId)
    requires p.id < |s.jobs| && s.jobs[p.id].blob == p.row.blob && p.row.blob != b
    requires Stranded(TallyOf(s, b))
    ensures Stranded(TallyOf(Prepare(s, p, rest, now, prep), b))
  {
    hide TallyOf, MoveBlob, Note, WriteJob, HandleError;
    var x := p.row.blob;
    MoveTally(s, x, Expiring, Renewing, b);
    MoveBlobRows(s, x, Expiring, Renewing);
    var s1 := MoveBlob(s, x, Expiring, Renewing);
    match prep
    case Ready =>
      NoteTally(s1, Called, p.id, b);
      WorkerTally(Note(s1, Called, p.id), Executing(p, rest), b);
    case PrepareThrew(e) => HandleErrorTally(s1, p.id, p.row, now, e, b);
    case _ =>
      MoveTally(s1, x, Renewing, Expiring, b);
      MoveBlobRows(s1, x, Renewing, Expiring);
      var s2 := MoveBlob(s1, x, Renewing, Expiring);
      WriteTally(s2, p.id, s2.jobs[p.id].(status := if prep.PolicyDisabled? then BlockedByBudget else FailedFinal), b);
  }

  lemma StrandedBegin(s: State, now: int, allowed: bool, prep: Preparation, b: BlobId)
    requires s.worker.Looping? && s.worker.batch != [] && PickAgrees(s, s.worker.batch[0])
    requires Stranded(TallyOf(s, b))
    ensures Stranded(TallyOf(Begin(s, now, allowed, prep), b))
  {
    hide TallyOf, Dispatch, ValidateTransition;
    var p, rest := s.worker.batch[0], s.worker.batch[1..];
    var s0 := s.(worker := Looping(rest));
    var row := s.jobs[p.id];
    WorkerTally(s, Looping(rest), b);
    WorkerTally(s, Idle, b);
    WriteTally(s0, p.id, row.(status := FailedFinal), b);
    WriteTally(s0, p.id, row.(status := BlockedByBudget), b);
    WriteTally(s0, p.id, row.(status := Pending), b);
    StrandedDispatch(if p.row.status == Estimated then SetStatus(s0, p.id, Pending) else s0, p, rest, now, prep, b);
  }

  lemma StrandedThrow(s: State, now: int, committed: bool, e: Failure, b: BlobId)
    requires s.worker.Executing? && WorkerAgrees(s) && Stranded(TallyOf(s, b))
    ensures Stranded(TallyOf(ThrowCall(s, now, committed, e), b))
  {
    hide TallyOf, HandleError;
    var p := s.worker.current;
    var s0 := s.(worker := Looping(s.worker.rest));
    WorkerTally(s, s.worker, b);
    WorkerTally(s, Looping(s.worker.rest), b);
    NoteTally(s0, Committed, p.id, b);
    NoteTally(Note(s0, Committed, p.id), CommitLost, p.id, b);
    HandleErrorTally(if committed then Note(Note(s0, Committed, p.id), CommitLost, p.id) else s0, p.id, p.row, now, e, b);
  }

  lemma StrandedConfirm(s: State, now: int, b: BlobId)
    requires s.worker.Executing? && WorkerAgrees(s) && Stranded(TallyOf(s, b))
    ensures Stranded(TallyOf(Confirm(s, now), b))
  {
    hide TallyOf;
    var w := Confirming(s.worker.current, s.worker.rest);
    WorkerTally(s, s.worker, b);
    WorkerTally(s, w, b);
    MarkSucceededTally(s.(worker := w), s.worker.current.id, now, b);
  }

  lemma StrandedClose(s: State, now: int, closing: Closing, b: BlobId)
    requires s.worker.Confirming? && WorkerAgrees(s) && Stranded(TallyOf(s, b))
    ensures Stranded(TallyOf(Close(s, now, closing), b))
  {
    hide TallyOf, Advance, HandleError;
    var p, x := s.worker.current, s.worker.current.row.blob;
    var s0 := s.(worker := Looping(s.worker.rest));
    WorkerTally(s, s.worker, b);
    WorkerTally(s, Looping(s.worker.rest), b);
    match closing
    case Completed(applies) => AdvanceTally(s0, x, Onward(applies), b);
    case LateThrew(progress, e) =>
      AdvanceTally(s0, x, progress, b);
      var s1 := Advance(s0, x, progress);
      NoteTally(s1, CommitLost, p.id, b);
      HandleErrorTally(Note(s1, CommitLost, p.id), p.id, p.row, now, e, b);
  }

  lemma StrandedStep(s: State, step: Step, b: BlobId)
    requires WorkerAgrees(s) && Enabled(s, step) && Stranded(TallyOf(s, b))
    requires !(step.ChangeBlob? && step.blob == b)
    ensures Stranded(TallyOf(Apply(s, step), b))
  {
    hide TallyOf, RecoverFirst, Begin, ThrowCall, Confirm, Close, Crash, Enqueue;
    match step
    case StartBatch(now, ids) =>
      StrandedRecover(s, now, |s.jobs|, b);
      var s1 := RecoverFirst(s, now, |s.jobs|);
      WorkerTally(s1, Looping(PickRows(s1.jobs, ids)), b);
    case BeginJob(now, allowed, prep) => StrandedBegin(s, now, allowed, prep, b);
    case ThrowJob(now, committed, e) => StrandedThrow(s, now, committed, e, b);
    case ConfirmJob(now) => StrandedConfirm(s, now, b);
    case CloseJob(now, closing) => StrandedClose(s, now, closing, b);
    case CrashWorker(at) => StrandedCrash(s, at, b);
    case EnqueueJob(rec, existing, now) => StrandedEnqueue(s, rec, existing, now, b);
    case ChangeBlob(x, status) => ChangeTally(s, x, status, b);
  }

  lemma StrandedCrash(s: State, at: CrashPoint, b: BlobId)
    requires WorkerAgrees(s) && Enabled(s, CrashWorker(at)) && Stranded(TallyOf(s, b))
    ensures Stranded(TallyOf(Crash(s, at), b))
  {
    hide TallyOf, Advance;
    var s0 := s.(worker := Idle);
    WorkerTally(s, s.worker, b);
    WorkerTally(s, Idle, b);
    match at
    case BetweenJobs =>
    case InFlight(_) =>
      var j := s.worker.current.id;
      NoteTally(s0, Crashed, j, b);
      NoteTally(Note(s0, Crashed, j), Committed, j, b);
    case AfterRowSucceeded(progress) =>
      var j, x := s.worker.current.id, s.worker.current.row.blob;
      AdvanceTally(s0, x, progress, b);
      NoteTally(Advance(s0, x, progress), Crashed, j, b);
  }

  lemma StrandedEnqueue(s: State, rec: JobRecord, existing: Option<JobId>, now: int, b: BlobId)
    requires Enabled(s, EnqueueJob(rec, existing, now)) && Stranded(TallyOf(s, b))
    ensures Stranded(TallyOf(Enqueue(s, rec, existing, now), b))
  {
    hide TallyOf, Insert;
    match existing
    case Some(j) => RefreshTally(s, j, rec, b);
    case None => InsertTally(s, rec, now, b);
  }

  /**
   A crash leaves a sound blob stranded exactly when it comes between the two success updates of
   that blob and no attached row is left in progress for recovery to reset.
   */
  lemma CrashStrandsExactly(s: State, at: CrashPoint, b: BlobId)
    requires WorkerAgrees(s) && Enabled(s, CrashWorker(at))
    requires Core(TallyOf(s, b)) && BlobSound(TallyOf(s, b))
    ensures Stranded(TallyOf(Crash(s, at), b)) <==> Strands(s, CrashWorker(at), b) && CountRows(s.jobs, b, InProgress) == 0
  {
    CrashKeeps(s, at, b);
  }

  /**
   So the promise that no crash needs manual cleanup is not kept: a stranded blob stays
   `renewing` through every later recovery, batch and enqueue, until some other component
   writes its row.
   */
  lemma {:induction false} StrandedForever(states: seq<State>, steps: seq<Step>, i: nat, k: nat, b: BlobId)
    requires IsRun(states, steps) && i <= k < |states|
    requires Stranded(TallyOf(states[i], b))
    requires forall l :: i <= l < k ==> !(steps[l].ChangeBlob? && steps[l].blob == b)
    ensures Stranded(TallyOf(states[k], b))
    ensures b in states[k].blobs && states[k].blobs[b] == Renewing
    decreases k - i
  {
    hide TallyOf, Enabled, Apply, WorkerAgrees, Strands;
    if i < k {
      StrandedForever(states, steps, i, k - 1, b);
      RunKeeps(states, steps, b, k - 1);
      StrandedStep(states[k - 1], steps[k - 1], b);
    }
    MoveTally(states[k], b, Renewing, Renewing, b);
  }
}
