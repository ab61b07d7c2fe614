/**
 The catch block of an iteration and the limit on retries: what a failure makes of its row and blob,
 spelled out, and how often a row can be sent into another retry.
 */
module RenewalAttempts {
  import opened Common
  import opened StateMachines
  import opened RenewalModel
  import opened RenewalSafety
  import opened RenewalTheorems

  /** No other row of the blob has succeeded or is in progress. */
  predicate AloneInBlob(jobs: seq<Job>, p: Picked) {
    forall k :: 0 <= k < |jobs| && k != p.id && jobs[k].blob == p.row.blob ==> jobs[k].status != Succeeded && jobs[k].status != InProgress
  }

  /**
   At this step the catch block of the iteration on batch copy `p` handles error `e` at time `now`:
   the executor call threw, the try block threw after the row was set to succeeded, or the
   preparations threw once the row was locked.
   */
  predicate Catches(s: State, step: Step, p: Picked, now: int, e: Failure) {
    match step
    case ThrowJob(at, _, failure) => s.worker.Executing? && s.worker.current == p && at == now && failure == e
    case CloseJob(at, LateThrew(_, failure)) => s.worker.Confirming? && s.worker.current == p && at == now && failure == e
    case BeginJob(at, allowed, PrepareThrew(failure)) =>
      && s.worker.Looping? && s.worker.batch != [] && s.worker.batch[0] == p && at == now && failure == e
      && (p.row.status == Estimated || p.row.status == Pending) && p.row.blob in s.blobs && allowed && AloneInBlob(s.jobs, p)
    case _ => false
  }

  /** The error is retried: it is retryable, and with this attempt the row has not used up its attempts, 5 when none are given. */
  predicate Retries(p: Picked, e: Failure) {
    e.retryable && p.row.attempt + 1 < if p.row.maxAttempts == 0 then 5 else p.row.maxAttempts
  }

  /** What the catch block leaves: a row to be retried after the jitter, its blob untouched; or a final failure, its blob not renewing. */
  ghost predicate Caught(s: State, t: State, p: Picked, now: int, e: Failure) {
    && p.id < |s.jobs| == |t.jobs|
    && var before, row, b := s.jobs[p.id], t.jobs[p.id], p.row.blob;
    && row.attempt == p.row.attempt + 1 && row.maxAttempts == before.maxAttempts && row.blob == b
    && (Retries(p, e) ==> row.status == Retrying && row.scheduledFor == Some(now + e.jitter))
    && (!Retries(p, e) ==> row.status == FailedFinal && row.scheduledFor == before.scheduledFor && (b in t.blobs ==> t.blobs[b] != Renewing))
  }

  lemma HandleErrorCaught(s: State, j: JobId, p: Picked, now: int, e: Failure)
    requires j == p.id < |s.jobs| && s.jobs[j].blob == p.row.blob
    ensures Caught(s, HandleError(s, j, p.row, now, e), p, now, e)
    ensures Retries(p, e) ==> HandleError(s, j, p.row, now, e).blobs == s.blobs
  {
  }

  /** Only fields that `Caught` does not read differ. */
  lemma CaughtFrom(s: State, s1: State, t: State, t1: State, p: Picked, now: int, e: Failure)
    requires Caught(s1, t1, p, now, e) && t1.jobs == t.jobs && t1.blobs == t.blobs
    requires |s.jobs| == |s1.jobs| && p.id < |s.jobs|
    requires s.jobs[p.id].maxAttempts == s1.jobs[p.id].maxAttempts && s.jobs[p.id].scheduledFor == s1.jobs[p.id].scheduledFor
    ensures Caught(s, t, p, now, e)
  {
  }

  lemma ThrowCaught(s: State, now: int, committed: bool, e: Failure)
    requires s.worker.Executing? && WorkerAgrees(s)
    ensures Caught(s, ThrowCall(s, now, committed, e), s.worker.current, now, e)
    ensures Retries(s.worker.current, e) ==> ThrowCall(s, now, committed, e).blobs == s.blobs
  {
    hide HandleError, Caught, Retries;
    var p, s0 := s.worker.current, s.(worker := Looping(s.worker.rest));
    var s1 := if committed then Note(Note(s0, Committed, p.id), CommitLost, p.id) else s0;
    HandleErrorCaught(s1, p.id, p, now, e);
    CaughtFrom(s, s1, ThrowCall(s, now, committed, e), HandleError(s1, p.id, p.row, now, e), p, now, e);
  }

  lemma AdvanceRows(s: State, b: BlobId, progress: BlobProgress)
    ensures Advance(s, b, progress).jobs == s.jobs
  {
  }

  lemma LateCaught(s: State, now: int, progress: BlobProgress, e: Failure)
    requires s.worker.Confirming? && WorkerAgrees(s)
    ensures Caught(s, Close(s, now, LateThrew(progress, e)), s.worker.current, now, e)
  {
    hide HandleError, Caught, Retries, Advance;
    var p := s.worker.current;
    var b, s0 := s.jobs[p.id].blob, s.(worker := Looping(s.worker.rest));
    AdvanceRows(s0, b, progress);
    var s1 := Note(Advance(s0, b, progress), CommitLost, p.id);
    HandleErrorCaught(s1, p.id, p, now, e);
    CaughtFrom(s, s1, Close(s, now, LateThrew(progress, e)), HandleError(s1, p.id, p.row, now, e), p, now, e);
  }

  /** The row locked by the iteration, and its blob moved to renewing. */
  ghost function LockedFor(s: State, p: Picked, now: int): State
    requires p.id < |s.jobs|
  {
    var row := s.jobs[p.id].(status := InProgress, startedAt := Some(now), heartbeatAt := Some(now));
    MoveBlob(WriteJob(s, p.id, row), s.jobs[p.id].blob, Expiring, Renewing)
  }

  lemma DispatchThrows(s: State, p: Picked, rest: seq<Picked>, now: int, e: Failure)
    requires p.id < |s.jobs| && s.jobs[p.id].blob == p.row.blob && s.jobs[p.id].status == Pending && AloneInBlob(s.jobs, p)
    ensures Dispatch(s, p, rest, now, PrepareThrew(e)) == HandleError(LockedFor(s, p, now), p.id, p.row, now, e)
  {
    hide HandleError, MoveBlob;
  }

  lemma PreparationCaught(s: State, now: int, e: Failure)
    requires s.worker.Looping? && s.worker.batch != [] && PickAgrees(s, s.worker.batch[0])
    requires Catches(s, BeginJob(now, true, PrepareThrew(e)), s.worker.batch[0], now, e)
    ensures Caught(s, Begin(s, now, true, PrepareThrew(e)), s.worker.batch[0], now, e)
  {
    var p, rest := s.worker.batch[0], s.worker.batch[1..];
    BeginDispatches(s, now, true, PrepareThrew(e));
    var s0 := AtDispatch(s);
    assert s0.jobs[p.id].status == Pending && s0.jobs[p.id] == s.jobs[p.id].(status := Pending);
    hide HandleError, Caught, Retries, Begin, Dispatch, AtDispatch;
    DispatchThrows(s0, p, rest, now, e);
    var s1 := LockedFor(s0, p, now);
    HandleErrorCaught(s1, p.id, p, now, e);
    CaughtFrom(s, s1, Begin(s, now, true, PrepareThrew(e)), HandleError(s1, p.id, p.row, now, e), p, now, e);
  }

  lemma StepCaught(s: State, step: Step, p: Picked, now: int, e: Failure)
    requires WorkerAgrees(s) && Enabled(s, step) && Catches(s, step, p, now, e)
    ensures Caught(s, Apply(s, step), p, now, e)
    ensures step.ThrowJob? && Retries(p, e) ==> Apply(s, step).blobs == s.blobs
  {
    hide Caught, Retries, Begin, ThrowCall, Close;
    match step
    case ThrowJob(at, committed, failure) => ThrowCaught(s, at, committed, failure);
    case CloseJob(at, LateThrew(progress, failure)) => LateCaught(s, at, progress, failure);
    case BeginJob(at, allowed, PrepareThrew(failure)) =>
      assert PickAgrees(s, s.worker.batch[0]);
      PreparationCaught(s, at, failure);
    case _ =>
  }

  /**
   At every step of every run whose catch block handles an error: the row becomes `retrying` if and only
   if the error is retryable and the batch copy's attempt counter, plus one, is below its maximum (5 when
   that is 0), and then its blob stays as it is while the executor call was in flight. Otherwise the row
   fails for good and its blob does not stay renewing.
   */
  lemma CatchEndsExactly(states: seq<State>, steps: seq<Step>, k: nat, p: Picked, now: int, e: Failure)
    requires IsRun(states, steps) && k < |steps| && Catches(states[k], steps[k], p, now, e)
    ensures p.id < |states[k].jobs| == |states[k + 1].jobs|
    ensures var row, b := states[k + 1].jobs[p.id], p.row.blob;
            var retried := e.retryable && p.row.attempt + 1 < if p.row.maxAttempts == 0 then 5 else p.row.maxAttempts;
            && row.attempt == p.row.attempt + 1
            && (row.status == Retrying <==> retried) && (row.status == FailedFinal <==> !retried)
            && (retried ==> row.scheduledFor == Some(now + e.jitter))
            && (retried && steps[k].ThrowJob? ==> states[k + 1].blobs == states[k].blobs)
            && (!retried && b in states[k + 1].blobs ==> states[k + 1].blobs[b] != Renewing)
  {
    hide Enabled, Apply, Catches, WorkerAgrees;
    RunKeeps(states, steps, 0, k);
    assert Enabled(states[k], steps[k]) && states[k + 1] == Apply(states[k], steps[k]);
    StepCaught(states[k], steps[k], p, now, e);
  }

  // ---------- How often a row is retried ----------

  /** At step `k` the row goes into a retry. */
  predicate GoesToRetry(states: seq<State>, k: nat, j: JobId)
    requires k + 1 < |states|
  {
    && j < |states[k].jobs| && j < |states[k + 1].jobs|
    && states[k].jobs[j].status != Retrying && states[k + 1].jobs[j].status == Retrying
  }

  /** How often that happened in the first `n` steps. */
  function RetriesSoFar(states: seq<State>, n: nat, j: JobId): nat
    requires n < |states|
  {
    if n == 0 then 0 else RetriesSoFar(states, n - 1, j) + if GoesToRetry(states, n - 1, j) then 1 else 0
  }

  /** A check-then-upsert overwrites the attempt counter and the limit of a waiting row. */
  predicate Refreshes(step: Step, j: JobId) { step.EnqueueJob? && step.existing == Some(j) }

  predicate CopyAgrees(s: State, p: Picked, j: JobId) {
    p.id == j && j < |s.jobs| ==> p.row.attempt == s.jobs[j].attempt && p.row.maxAttempts == s.jobs[j].maxAttempts
  }

  /** The worker's copies of the row have its attempt counter and limit. */
  ghost predicate CopiesAgree(s: State, j: JobId) {
    match s.worker
    case Idle => true
    case Looping(batch) => forall k :: 0 <= k < |batch| ==> CopyAgrees(s, batch[k], j)
    case Executing(p, rest) => CopyAgrees(s, p, j) && forall k :: 0 <= k < |rest| ==> CopyAgrees(s, rest[k], j)
    case Confirming(p, rest) => CopyAgrees(s, p, j) && forall k :: 0 <= k < |rest| ==> CopyAgrees(s, rest[k], j)
  }

  /** The row either keeps its limit and at least its attempts, or goes into a retry that its copy still allows. */
  ghost predicate RowMoves(s: State, t: State, j: JobId) {
    j < |s.jobs| ==>
      && j < |t.jobs| && t.jobs[j].maxAttempts == s.jobs[j].maxAttempts
      && (if s.jobs[j].status != Retrying && t.jobs[j].status == Retrying
          then t.jobs[j].attempt == s.jobs[j].attempt + 1 < (if s.jobs[j].maxAttempts == 0 then 5 else s.jobs[j].maxAttempts)
          else t.jobs[j].attempt >= s.jobs[j].attempt)
  }

  lemma RecoverMoves(s: State, now: int, j: JobId)
    ensures RowMoves(s, RecoverFirst(s, now, |s.jobs|), j)
  {
    hide RecoverFirst, Stale;
    RecoverRows(s, now, |s.jobs|);
  }

  /** An iteration on another row, or one that does not reach the catch block, leaves the counter alone. */
  lemma BeginRowMoves(s: State, now: int, allowed: bool, prep: Preparation, j: JobId)
    requires s.worker.Looping? && s.worker.batch != [] && PickAgrees(s, s.worker.batch[0]) && CopyAgrees(s, s.worker.batch[0], j)
    ensures var t := Begin(s, now, allowed, prep);
            RowMoves(s, t, j) && (t.worker.Executing? ==> CopyAgrees(t, s.worker.batch[0], j))
  {
    var p := s.worker.batch[0];
    if p.id != j {
      hide Begin;
    } else if prep.PrepareThrew? && Catches(s, BeginJob(now, allowed, prep), p, now, prep.failure) {
      PreparationCaught(s, now, prep.failure);
      hide Begin;
    } else {
      hide Begin;
      BeginElsewhere(s, now, allowed, prep);
    }
  }

  lemma BeginElsewhere(s: State, now: int, allowed: bool, prep: Preparation)
    requires s.worker.Looping? && s.worker.batch != [] && PickAgrees(s, s.worker.batch[0])
    requires prep.PrepareThrew? ==> !Catches(s, BeginJob(now, allowed, prep), s.worker.batch[0], now, prep.failure)
    ensures var p, t := s.worker.batch[0], Begin(s, now, allowed, prep);
            && t.jobs[p.id].attempt == s.jobs[p.id].attempt && t.jobs[p.id].maxAttempts == s.jobs[p.id].maxAttempts
            && (t.jobs[p.id].status == Retrying ==> s.jobs[p.id].status == Retrying)
  {
    var p := s.worker.batch[0];
    if p.row.status == Retrying || (p.row.blob in s.blobs && allowed) {
      BeginDispatches(s, now, allowed, prep);
      assert AtDispatch(s).jobs[p.id] == s.jobs[p.id].(status := AtDispatch(s).jobs[p.id].status);
      hide Begin;
      DispatchElsewhere(AtDispatch(s), p, s.worker.batch[1..], now, prep);
    } else {
      hide ValidateTransition, Dispatch;
    }
  }

  lemma DispatchElsewhere(s: State, p: Picked, rest: seq<Picked>, now: int, prep: Preparation)
    requires p.id < |s.jobs| && s.jobs[p.id].blob == p.row.blob
    requires prep.PrepareThrew? && s.jobs[p.id].status == Pending ==> !AloneInBlob(s.jobs, p)
    ensures var t := Dispatch(s, p, rest, now, prep);
            && t.jobs[p.id].attempt == s.jobs[p.id].attempt && t.jobs[p.id].maxAttempts == s.jobs[p.id].maxAttempts
            && (t.jobs[p.id].status == Retrying ==> s.jobs[p.id].status == Retrying)
  {
    hide Prepare;
    if !prep.PrepareThrew? && s.jobs[p.id].status == Pending {
      var row := s.jobs[p.id].(status := InProgress, startedAt := Some(now), heartbeatAt := Some(now));
      PrepareElsewhere(WriteJob(s, p.id, row), p, rest, now, prep);
    }
  }

  lemma PrepareElsewhere(s: State, p: Picked, rest: seq<Picked>, now: int, prep: Preparation)
    requires p.id < |s.jobs| && s.jobs[p.id].status == InProgress && !prep.PrepareThrew?
    ensures var t := Prepare(s, p, rest, now, prep);
            && t.jobs[p.id].attempt == s.jobs[p.id].attempt && t.jobs[p.id].maxAttempts == s.jobs[p.id].maxAttempts
            && t.jobs[p.id].status != Retrying
  {
    hide HandleError;
  }

  lemma StepMovesRow(s: State, step: Step, j: JobId)
    requires WorkerAgrees(s) && Enabled(s, step) && CopiesAgree(s, j) && !Refreshes(step, j)
    ensures RowMoves(s, Apply(s, step), j)
  {
    hide RecoverFirst, Begin, ThrowCall, Confirm, Close, Crash;
    match step
    case StartBatch(now, ids) => RecoverMoves(s, now, j);
    case BeginJob(now, allowed, prep) =>
      assert PickAgrees(s, s.worker.batch[0]);
      BeginRowMoves(s, now, allowed, prep, j);
    case ThrowJob(now, committed, e) => ThrowCaught(s, now, committed, e);
    case ConfirmJob(now) => ConfirmKeepsCounter(s, now);
    case CloseJob(now, closing) =>
      if closing.LateThrew? { LateCaught(s, now, closing.progress, closing.failure); } else { CloseKeepsRows(s, now, closing.policyApplies); }
    case _ =>
  }

  lemma ConfirmKeepsCounter(s: State, now: int)
    requires s.worker.Executing? && s.worker.current.id < |s.jobs|
    ensures var j, t := s.worker.current.id, Confirm(s, now);
            t.jobs[j].attempt == s.jobs[j].attempt && t.jobs[j].maxAttempts == s.jobs[j].maxAttempts
  {
  }

  lemma CloseKeepsRows(s: State, now: int, applies: bool)
    requires s.worker.Confirming? && s.worker.current.id < |s.jobs|
    ensures Close(s, now, Completed(applies)).jobs == s.jobs
  {
  }

  /** Rows other than the one worked on do not change, so the copies still waiting stay right. */
  lemma RestAgrees(s: State, t: State, at: JobId, rest: seq<Picked>, j: JobId)
    requires OnlyRow(s, t, at) && (forall k :: 0 <= k < |rest| ==> rest[k].id != at && CopyAgrees(s, rest[k], j))
    ensures forall k :: 0 <= k < |rest| ==> CopyAgrees(t, rest[k], j)
  {
  }

  lemma CopiesStep(s: State, step: Step, j: JobId)
    requires WorkerAgrees(s) && Enabled(s, step) && CopiesAgree(s, j) && !Refreshes(step, j)
    ensures CopiesAgree(Apply(s, step), j)
  {
    hide RecoverFirst, Begin, ThrowCall, Confirm, Close, Crash, IsBatch;
    var t := Apply(s, step);
    match step
    case BeginJob(now, allowed, prep) =>
      var p, rest := s.worker.batch[0], s.worker.batch[1..];
      assert PickAgrees(s, p);
      BeginRowMoves(s, now, allowed, prep, j);
      RestAgrees(s, t, p.id, rest, j);
    case ThrowJob(_, _, _) => RestApart(s); RestAgrees(s, t, s.worker.current.id, s.worker.rest, j);
    case ConfirmJob(now) => RestApart(s); ConfirmKeepsCounter(s, now); RestAgrees(s, t, s.worker.current.id, s.worker.rest, j);
    case CloseJob(_, _) => RestApart(s); RestAgrees(s, t, s.worker.current.id, s.worker.rest, j);
    case _ =>
  }

  lemma RestApart(s: State)
    requires WorkerAgrees(s) && (s.worker.Executing? || s.worker.Confirming?)
    ensures forall k :: 0 <= k < |s.worker.rest| ==> s.worker.rest[k].id != s.worker.current.id
  {
    forall k | 0 <= k < |s.worker.rest| ensures s.worker.rest[k].id != s.worker.current.id {
      assert PickAgrees(s, s.worker.rest[k]);
    }
  }

  /** Retries are covered by the attempt counter, and the last of them was below the limit. */
  ghost predicate RetriesCovered(s: State, n: nat, j: JobId) {
    if j < |s.jobs| then n <= s.jobs[j].attempt && (n > 0 ==> n < if s.jobs[j].maxAttempts == 0 then 5 else s.jobs[j].maxAttempts)
    else n == 0
  }

  lemma {:induction false} RunCovered(states: seq<State>, steps: seq<Step>, n: nat, j: JobId)
    requires IsRun(states, steps) && n < |states|
    requires forall k :: 0 <= k < n ==> !Refreshes(steps[k], j)
    ensures CopiesAgree(states[n], j) && RetriesCovered(states[n], RetriesSoFar(states, n, j), j)
  {
    hide Enabled, Apply, WorkerAgrees;
    if n > 0 {
      RunCovered(states, steps, n - 1, j);
      RunKeeps(states, steps, 0, n - 1);
      var s, step := states[n - 1], steps[n - 1];
      assert Enabled(s, step) && states[n] == Apply(s, step);
      CopiesStep(s, step, j);
      StepMovesRow(s, step, j);
      hide CopiesAgree;
    }
  }

  /** A row that no upsert refreshes goes into a retry less often than it has attempts: at most four times by default. */
  lemma RetriesBelowLimit(states: seq<State>, steps: seq<Step>, n: nat, j: JobId)
    requires IsRun(states, steps) && n < |states| && j < |states[n].jobs|
    requires forall k :: 0 <= k < n ==> !(steps[k].EnqueueJob? && steps[k].existing == Some(j))
    ensures RetriesSoFar(states, n, j) == 0
            || RetriesSoFar(states, n, j) < if states[n].jobs[j].maxAttempts == 0 then 5 else states[n].jobs[j].maxAttempts
    ensures RetriesSoFar(states, n, j) <= states[n].jobs[j].attempt
  {
    RunCovered(states, steps, n, j);
  }
}
