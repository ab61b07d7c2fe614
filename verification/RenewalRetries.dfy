/**
 What becomes of a `retrying` row. The lock accepts only `pending`, so such a row is not executed
 when it falls due; it waits until another row of its blob succeeds, or attaches to one in progress.
 */
module RenewalRetries {
  import opened Common
  import opened StateMachines
  import opened RenewalModel
  import opened RenewalTally
  import opened RenewalSafety
  import opened RenewalTheorems
  import opened RenewalHistory

  /** The worker is executing the row or recording its success. */
  predicate Held(s: State, j: JobId) {
    (s.worker.Executing? || s.worker.Confirming?) && s.worker.current.id == j
  }

  /**
   A due `retrying` row in the batch: the iteration changes nothing exactly when no other row of
   the blob has succeeded or is in progress, and in no case is the executor called.
   */
  lemma DueRetryPassedOverExactly(s: State, now: int, allowed: bool, prep: Preparation)
    requires s.worker.Looping? && s.worker.batch != [] && PickAgrees(s, s.worker.batch[0])
    requires s.worker.batch[0].row.status == Retrying
    ensures var p, r := s.worker.batch[0], Begin(s, now, allowed, prep);
            var b := s.jobs[p.id].blob;
            && (r == s.(worker := Looping(s.worker.batch[1..]))
                <==> !OtherRow(s.jobs, p.id, b, Succeeded) && !OtherRow(s.jobs, p.id, b, InProgress))
            && (OtherRow(s.jobs, p.id, b, Succeeded) ==> r.jobs == s.jobs[p.id := s.jobs[p.id].(status := Succeeded)])
            && !r.worker.Executing?
  {
    var p := s.worker.batch[0];
    var r := Begin(s, now, allowed, prep);
    if OtherRow(s.jobs, p.id, s.jobs[p.id].blob, Succeeded) {
      assert r.jobs[p.id].status == Succeeded;
    }
  }

  // ---------- One step ----------

  lemma RetryingBegin(s: State, now: int, allowed: bool, prep: Preparation, j: JobId)
    requires s.worker.Looping? && s.worker.batch != [] && PickAgrees(s, s.worker.batch[0])
    requires CallsBounded(s, j) && s.worker.batch[0].row.blob in s.blobs
    requires j < |s.jobs| && s.jobs[j].status !in {Estimated, Pending}
    ensures var r := Begin(s, now, allowed, prep);
            && Calls(r, j) == Calls(s, j)
            && (r.worker.Executing? ==> r.worker.current.id != j)
            && (r.jobs[j].status == s.jobs[j].status
                || (s.jobs[j].status == Retrying && (r.jobs[j].status == Succeeded || (r.jobs[j].status == InProgress && !s.unique))))
  {
    hide Calls, Recoveries;
    var p, rest := s.worker.batch[0], s.worker.batch[1..];
    if p.id != j {
      BeginCalls(s, now, allowed, prep, j, true);
      hide Begin;
    } else {
      var s0 := s.(worker := Looping(rest));
      var row := s.jobs[j];
      hide WriteJob;
      QuietWrite(s0, j, row.(status := Succeeded), j, true);
      QuietWrite(s0, j, row.(status := InProgress, startedAt := Some(now)), j, true);
      SameLogQuiet(s, s0, j, true);
      SameLogQuiet(s, s.(worker := Idle), j, true);
    }
  }

  /** Not waiting to be picked and not held by the worker: only three things can happen to such a row. */
  lemma IdleRowStep(s: State, step: Step, j: JobId)
    requires WorkerAgrees(s) && Registered(s) && Enabled(s, step) && CallsBounded(s, j)
    requires j < |s.jobs| && !Held(s, j) && s.jobs[j].status in {Retrying, Succeeded, InProgress}
    ensures var r, from := Apply(s, step), s.jobs[j].status;
            && j < |r.jobs| && !Held(r, j) && Calls(r, j) == Calls(s, j) && r.unique == s.unique
            && (r.jobs[j].status == from
                || (from == Retrying && r.jobs[j].status == Succeeded)
                || (from == Retrying && r.jobs[j].status == InProgress && step.BeginJob? && !s.unique)
                || (from == InProgress && r.jobs[j].status == Pending && step.StartBatch? && Recoveries(r, j) == Recoveries(s, j) + 1))
  {
    hide Calls, Recoveries, RecoverFirst, Begin, ThrowCall, Confirm, Close, Crash, Enqueue, IsBatch, Registered, CallsBounded;
    match step
    case StartBatch(now, ids) =>
      RecoverCalls(s, now, |s.jobs|, j, true);
      RecoverKeepsShape(s, now, |s.jobs|);
      SameLogQuiet(RecoverFirst(s, now, |s.jobs|), Apply(s, step), j, true);
    case BeginJob(now, allowed, prep) =>
      assert PickAgrees(s, s.worker.batch[0]);
      FirstRegistered(s);
      RetryingBegin(s, now, allowed, prep, j);
    case ThrowJob(now, committed, e) => ThrowCalls(s, now, committed, e, j, true);
    case ConfirmJob(now) => ConfirmCalls(s, now, j, true);
    case CloseJob(now, closing) => CloseCalls(s, now, closing, j, true);
    case CrashWorker(at) => CrashCalls(s, at, j, true);
    case EnqueueJob(rec, existing, now) => EnqueueCalls(s, rec, existing, now, j, true); EnqueueShape(s, rec, existing, now);
    case ChangeBlob(_, _) => SameLogQuiet(s, Apply(s, step), j, true);
  }

  lemma FirstRegistered(s: State)
    requires Registered(s) && s.worker.Looping? && s.worker.batch != [] && PickAgrees(s, s.worker.batch[0])
    ensures s.worker.batch[0].row.blob in s.blobs
  {
  }

  lemma EnqueueShape(s: State, rec: JobRecord, existing: Option<JobId>, now: int)
    requires Enabled(s, EnqueueJob(rec, existing, now))
    ensures var r := Enqueue(s, rec, existing, now);
            |s.jobs| <= |r.jobs| && r.worker == s.worker && r.unique == s.unique
  {
  }

  // ---------- Whole runs ----------

  /** Step `a` attaches the retrying row to another row in progress. */
  predicate Attached(states: seq<State>, steps: seq<Step>, a: nat, j: JobId)
    requires |states| == |steps| + 1
  {
    && a < |steps| && steps[a].BeginJob? && j < |states[a].jobs| && j < |states[a + 1].jobs|
    && states[a].jobs[j].status == Retrying && states[a + 1].jobs[j].status == InProgress
  }

  /** Step `r` resets the row as stale. */
  ghost predicate Reset(states: seq<State>, steps: seq<Step>, r: nat, j: JobId)
    requires |states| == |steps| + 1
  {
    && r < |steps| && steps[r].StartBatch? && j < |states[r].jobs| && j < |states[r + 1].jobs|
    && states[r].jobs[j].status == InProgress && states[r + 1].jobs[j].status == Pending
    && Recoveries(states[r + 1], j) == Recoveries(states[r], j) + 1
  }

  ghost predicate AttachedBetween(states: seq<State>, steps: seq<Step>, i: nat, k: nat, j: JobId)
    requires |states| == |steps| + 1
  {
    exists a :: i <= a < k && Attached(states, steps, a, j)
  }

  ghost predicate ResetAfterAttachment(states: seq<State>, steps: seq<Step>, i: nat, k: nat, j: JobId)
    requires |states| == |steps| + 1
  {
    exists a, r :: i <= a < r < k && Attached(states, steps, a, j) && Reset(states, steps, r, j)
  }

  /** A row that was `retrying` at state `i` and, at state `k`, has not been attached and reset since. */
  ghost predicate StillOut(states: seq<State>, steps: seq<Step>, i: nat, k: nat, j: JobId)
    requires |states| == |steps| + 1 && k < |states| && i < |states|
  {
    && j < |states[k].jobs| && !Held(states[k], j) && Calls(states[k], j) == Calls(states[i], j)
    && (states[k].jobs[j].status in {Retrying, Succeeded}
        || (states[k].jobs[j].status == InProgress && AttachedBetween(states, steps, i, k, j)))
  }

  lemma StillOutStep(states: seq<State>, steps: seq<Step>, i: nat, k: nat, j: JobId)
    requires IsRun(states, steps) && i <= k < |steps| && StillOut(states, steps, i, k, j)
    ensures StillOut(states, steps, i, k + 1, j) || (!states[k].unique && ResetAfterAttachment(states, steps, i, k + 1, j))
            || (states[k].unique && AttachedBetween(states, steps, i, k, j))
  {
    hide Enabled, Apply, CallsBounded, Registered, WorkerAgrees;
    RunKeeps(states, steps, 0, k);
    RunRegistered(states, steps, k);
    RunHistory(states, steps, k, j);
    var s, t := states[k], states[k + 1];
    IdleRowStep(s, steps[k], j);
    if s.jobs[j].status == Retrying && t.jobs[j].status == InProgress {
      assert Attached(states, steps, k, j);
    }
    if s.jobs[j].status == InProgress {
      var a :| i <= a < k && Attached(states, steps, a, j);
      if t.jobs[j].status == Pending {
        assert Reset(states, steps, k, j);
      }
    }
  }

  lemma {:induction false} UniqueStays(states: seq<State>, steps: seq<Step>, i: nat, k: nat)
    requires IsRun(states, steps) && i <= k < |states|
    ensures states[k].unique == states[i].unique
    decreases k - i
  {
    if i < k { UniqueStays(states, steps, i, k - 1); }
  }

  lemma {:induction false} RetryingThrough(states: seq<State>, steps: seq<Step>, i: nat, k: nat, j: JobId)
    requires IsRun(states, steps) && i <= k < |states|
    requires j < |states[i].jobs| && states[i].jobs[j].status == Retrying
    ensures StillOut(states, steps, i, k, j) || (!states[i].unique && ResetAfterAttachment(states, steps, i, k, j))
    ensures states[i].unique ==> !AttachedBetween(states, steps, i, k, j)
    decreases k - i
  {
    hide Enabled, Apply, Calls, Recoveries;
    if i == k {
      RunKeeps(states, steps, 0, i);
    } else {
      RetryingThrough(states, steps, i, k - 1, j);
      UniqueStays(states, steps, i, k - 1);
      if StillOut(states, steps, i, k - 1, j) {
        StillOutStep(states, steps, i, k - 1, j);
        NoAttachmentUnderIndex(states, steps, i, k, j);
      } else {
        ResetStays(states, steps, i, k - 1, j);
      }
    }
  }

  lemma NoAttachmentUnderIndex(states: seq<State>, steps: seq<Step>, i: nat, k: nat, j: JobId)
    requires IsRun(states, steps) && i < k < |states| && StillOut(states, steps, i, k - 1, j)
    ensures states[k - 1].unique && !AttachedBetween(states, steps, i, k - 1, j) ==> !AttachedBetween(states, steps, i, k, j)
  {
    hide Enabled, Apply, CallsBounded, Registered, WorkerAgrees;
    RunKeeps(states, steps, 0, k - 1);
    RunRegistered(states, steps, k - 1);
    RunHistory(states, steps, k - 1, j);
    IdleRowStep(states[k - 1], steps[k - 1], j);
  }

  lemma ResetStays(states: seq<State>, steps: seq<Step>, i: nat, k: nat, j: JobId)
    requires |states| == |steps| + 1 && ResetAfterAttachment(states, steps, i, k, j)
    ensures ResetAfterAttachment(states, steps, i, k + 1, j)
  {
  }

  /**
   A row that was `retrying` is called later only after it attached to another row in progress
   and recovery then reset it as stale; under the index of migration 0022 it is never called again.
   */
  lemma RetryingCalledOnlyAfterAttachmentAndReset(states: seq<State>, steps: seq<Step>, i: nat, k: nat, j: JobId)
    requires IsRun(states, steps) && i <= k < |states|
    requires j < |states[i].jobs| && states[i].jobs[j].status == Retrying
    requires CountJobLog(states[k].log, Called, j) != CountJobLog(states[i].log, Called, j)
    ensures !states[i].unique
    ensures exists a, r :: i <= a < r < k && Attached(states, steps, a, j) && Reset(states, steps, r, j)
  {
    hide IsRun;
    RetryingThrough(states, steps, i, k, j);
  }
}
