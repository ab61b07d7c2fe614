/**
 What each step of a run leaves in the tables, case by case and in plain values: recovery and batch
 selection, the iteration up to the executor call, and what follows the call. The catch block is in
 `RenewalAttempts`.
 */
module RenewalOutcomes {
  import opened Common
  import opened StateMachines
  import opened RenewalModel
  import opened RenewalSafety
  import opened RenewalTheorems
  import opened RenewalAttempts
  import opened RenewalQueue

  // ---------- A new batch ----------

  /** In progress, and not heard of for more than ten minutes. */
  predicate Silent(row: Job, now: int) {
    && row.status == InProgress
    && (row.heartbeatAt.Some? ==> row.heartbeatAt.value + 600_000 < now)
    && (row.heartbeatAt.None? ==> row.startedAt.Some? && row.startedAt.value + 600_000 < now)
  }

  lemma SilentIsStale(row: Job, now: int)
    ensures Silent(row, now) <==> Stale(row, now)
  {
  }

  /** Every poll first resets the silent rows, counting an attempt, and takes their renewing blobs back to expiring; nothing else changes. */
  lemma PollRecoversSilentRows(states: seq<State>, steps: seq<Step>, k: nat)
    requires IsRun(states, steps) && k < |steps| && steps[k].StartBatch?
    ensures var s, t, now := states[k], states[k + 1], steps[k].now;
            && |t.jobs| == |s.jobs| && t.blobs.Keys == s.blobs.Keys
            && (forall j :: 0 <= j < |s.jobs| ==>
                  t.jobs[j] == if Silent(s.jobs[j], now) then s.jobs[j].(status := Pending, attempt := s.jobs[j].attempt + 1) else s.jobs[j])
            && (forall b :: b in s.blobs ==>
                  t.blobs[b] == if s.blobs[b] == Renewing && exists j :: 0 <= j < |s.jobs| && s.jobs[j].blob == b && Silent(s.jobs[j], now)
                                then Expiring else s.blobs[b])
  {
    var s, now := states[k], steps[k].now;
    assert Enabled(s, steps[k]) && states[k + 1] == Apply(s, steps[k]);
    RecoverEffect(s, now, |s.jobs|);
    forall j | 0 <= j < |s.jobs| ensures Silent(s.jobs[j], now) <==> Stale(s.jobs[j], now) { SilentIsStale(s.jobs[j], now); }
    hide RecoverFirst, Silent, Stale, IsBatch;
  }

  predicate IsDue(row: Job, now: int) {
    (row.status == Estimated || row.status == Pending || row.status == Retrying) && (row.scheduledFor.Some? ==> row.scheduledFor.value <= now)
  }

  /** Ascending priority number, then schedule with unscheduled rows first, then age. */
  predicate Precedes(a: Job, b: Job) {
    && a.priority <= b.priority
    && (a.priority == b.priority && b.scheduledFor.None? ==> a.scheduledFor.None?)
    && (a.priority == b.priority && a.scheduledFor.Some? && b.scheduledFor.Some? ==> a.scheduledFor.value <= b.scheduledFor.value)
    && (a.priority == b.priority && a.scheduledFor == b.scheduledFor ==> a.createdAt <= b.createdAt)
  }

  lemma PrecedesExactly(a: Job, b: Job)
    ensures Precedes(a, b) <==> MayPrecede(a, b)
  {
  }

  /** Then it takes copies of the at most twenty foremost rows that are due. */
  lemma PollTakesForemostDueRows(states: seq<State>, steps: seq<Step>, k: nat)
    requires IsRun(states, steps) && k < |steps| && steps[k].StartBatch?
    ensures var t, now, ids := states[k + 1], steps[k].now, steps[k].ids;
            && t.worker.Looping? && |t.worker.batch| == |ids| <= 20
            && (forall i :: 0 <= i < |ids| ==> ids[i] < |t.jobs| && t.worker.batch[i] == Picked(ids[i], t.jobs[ids[i]]) && IsDue(t.jobs[ids[i]], now))
            && (forall i, j :: 0 <= i < j < |ids| ==> ids[i] != ids[j] && Precedes(t.jobs[ids[i]], t.jobs[ids[j]]))
            && (forall j :: 0 <= j < |t.jobs| && IsDue(t.jobs[j], now) && j !in ids ==>
                  |ids| == 20 && forall i :: 0 <= i < |ids| ==> Precedes(t.jobs[ids[i]], t.jobs[j]))
  {
    var s, now, ids := states[k], steps[k].now, steps[k].ids;
    assert Enabled(s, steps[k]) && states[k + 1] == Apply(s, steps[k]);
    var t := states[k + 1];
    assert forall j :: 0 <= j < |t.jobs| ==> (IsDue(t.jobs[j], now) <==> Due(t.jobs[j], now));
    forall i, j | 0 <= i < |t.jobs| && 0 <= j < |t.jobs| ensures Precedes(t.jobs[i], t.jobs[j]) <==> MayPrecede(t.jobs[i], t.jobs[j]) {
      PrecedesExactly(t.jobs[i], t.jobs[j]);
    }
    hide RecoverFirst, Precedes, MayPrecede, IsDue, Due;
  }

  /** The due rows among `ids`, foremost first, each once. */
  ghost predicate InOrder(jobs: seq<Job>, now: int, ids: seq<JobId>) {
    && (forall i :: 0 <= i < |ids| ==> ids[i] < |jobs| && Due(jobs[ids[i]], now))
    && (forall i, j :: 0 <= i < j < |ids| ==> ids[i] != ids[j] && MayPrecede(jobs[ids[i]], jobs[ids[j]]))
  }

  lemma OrderIsTotal(a: Job, b: Job, c: Job)
    ensures MayPrecede(a, b) || MayPrecede(b, a)
    ensures MayPrecede(a, b) && MayPrecede(b, c) ==> MayPrecede(a, c)
  {
  }

  /** Insert a due row into an ordered list. */
  lemma {:induction false} InsertRow(jobs: seq<Job>, now: int, ids: seq<JobId>, id: JobId) returns (r: seq<JobId>)
    requires InOrder(jobs, now, ids) && id < |jobs| && Due(jobs[id], now) && id !in ids
    ensures InOrder(jobs, now, r) && forall x :: x in r <==> x == id || x in ids
  {
    hide MayPrecede, Due;
    if ids == [] || MayPrecede(jobs[id], jobs[ids[0]]) {
      r := [id] + ids;
      forall i, j | 0 <= i < j < |r| ensures r[i] != r[j] && MayPrecede(jobs[r[i]], jobs[r[j]]) {
        if i == 0 {
          assert r[j] == ids[j - 1] && r[j] in ids;
          OrderIsTotal(jobs[id], jobs[ids[0]], jobs[ids[j - 1]]);
        }
      }
    } else {
      OrderIsTotal(jobs[id], jobs[ids[0]], jobs[id]);
      var rest := InsertRow(jobs, now, ids[1..], id);
      r := [ids[0]] + rest;
      forall i, j | 0 <= i < j < |r| ensures r[i] != r[j] && MayPrecede(jobs[r[i]], jobs[r[j]]) {
        if i == 0 {
          assert r[j] in rest;
          if r[j] != id { var k :| 1 <= k < |ids| && ids[k] == r[j]; }
        }
      }
      forall x ensures x in r <==> x == id || x in ids {
        if x in ids && x != ids[0] { assert x in ids[1..]; }
      }
    }
  }

  lemma {:induction false} OrderRows(jobs: seq<Job>, now: int, n: nat) returns (ids: seq<JobId>)
    requires n <= |jobs|
    ensures InOrder(jobs, now, ids) && forall x :: x in ids <==> 0 <= x < n && Due(jobs[x], now)
  {
    hide MayPrecede, Due;
    ids := [];
    if n > 0 {
      ids := OrderRows(jobs, now, n - 1);
      if Due(jobs[n - 1], now) { ids := InsertRow(jobs, now, ids, n - 1); }
    }
  }

  lemma InPrefix(ids: seq<JobId>, k: nat, n: nat)
    requires n <= |ids| && k < |ids|
    ensures k < n ==> ids[k] in ids[..n]
  {
    if k < n { assert ids[..n][k] == ids[k]; }
  }

  /** Whatever the tables hold, there is a batch to take, and it has all due rows unless there are more than twenty. */
  lemma PollCanAlwaysStart(s: State, now: int) returns (ids: seq<JobId>)
    requires s.worker.Idle? || s.worker == Looping([])
    ensures Enabled(s, StartBatch(now, ids))
  {
    hide RecoverFirst, MayPrecede, Due;
    var jobs := RecoverFirst(s, now, |s.jobs|).jobs;
    var all := OrderRows(jobs, now, |jobs|);
    ids := if |all| <= 20 then all else all[..20];
    forall j | 0 <= j < |jobs| && Due(jobs[j], now) && j !in ids
      ensures |ids| == 20 && forall i :: 0 <= i < |ids| ==> MayPrecede(jobs[ids[i]], jobs[j])
    {
      assert j in all;
      var k :| 0 <= k < |all| && all[k] == j;
      InPrefix(all, k, |ids|);
    }
  }

  // ---------- An iteration up to the executor call ----------

  /** Another row of the blob has this status. */
  predicate Sibling(jobs: seq<Job>, id: JobId, b: BlobId, st: RenewalStatus) {
    exists k :: 0 <= k < |jobs| && k != id && jobs[k].blob == b && jobs[k].status == st
  }

  /** The tables with one row, and the status of one registered blob, replaced. */
  ghost predicate Leaves(s: State, t: State, id: JobId, row: Job, blob: BlobStatus, w: Worker) {
    && id < |s.jobs| && t.jobs == s.jobs[id := row] && t.worker == w && t.unique == s.unique
    && t.blobs == (if s.jobs[id].blob in s.blobs then s.blobs[s.jobs[id].blob := blob] else s.blobs)
  }

  function StatusOf(s: State, b: BlobId): BlobStatus { if b in s.blobs then s.blobs[b] else Expiring }

  function Taken(status: BlobStatus): BlobStatus { if status == Expiring then Renewing else status }

  function GivenBack(status: BlobStatus): BlobStatus { if status == Renewing then Expiring else status }

  lemma SameRow(s: State, id: JobId)
    requires id < |s.jobs|
    ensures s.jobs[id := s.jobs[id]] == s.jobs
    ensures s.jobs[id].blob in s.blobs ==> s.blobs[s.jobs[id].blob := s.blobs[s.jobs[id].blob]] == s.blobs
  {
  }

  predicate OthersStay(jobs: seq<Job>, after: seq<Job>, id: JobId) {
    |after| == |jobs| && forall j :: 0 <= j < |jobs| && j != id ==> after[j] == jobs[j]
  }

  /** What an iteration on a row past the budget check leaves, whether a sibling row finished or runs, or the row is locked. */
  ghost predicate DispatchLeaves(s: State, p: Picked, rest: seq<Picked>, now: int, prep: Preparation, from: RenewalStatus, t: State) {
    p.id < |s.jobs| &&
    var row, b, on := s.jobs[p.id], s.jobs[p.id].blob, Looping(rest);
    var status, locked := StatusOf(s, b), row.(status := InProgress, startedAt := Some(now), heartbeatAt := Some(now));
    if Sibling(s.jobs, p.id, b, Succeeded) then Leaves(s, t, p.id, row.(status := Succeeded), status, on)
    else if Sibling(s.jobs, p.id, b, InProgress) then
      if s.unique then Leaves(s, t, p.id, row.(status := from), status, Idle)
      else Leaves(s, t, p.id, row.(status := InProgress, startedAt := Some(now)), status, on)
    else if from == Retrying then Leaves(s, t, p.id, row, status, on)
    else
      match prep
      case Ready => Leaves(s, t, p.id, locked, Taken(status), Executing(p, rest))
      case PolicyDisabled => Leaves(s, t, p.id, locked.(status := BlockedByBudget), GivenBack(Taken(status)), on)
      case VaultMissing => Leaves(s, t, p.id, locked.(status := FailedFinal), GivenBack(Taken(status)), on)
      case NoPublisher => Leaves(s, t, p.id, locked.(status := FailedFinal), GivenBack(Taken(status)), on)
      case PrepareThrew(_) => t.worker == on && OthersStay(s.jobs, t.jobs, p.id)   // and the catch block
  }

  lemma MoveLeaves(s: State, b: BlobId, source: BlobStatus, target: BlobStatus)
    ensures MoveBlob(s, b, source, target).jobs == s.jobs && MoveBlob(s, b, source, target).worker == s.worker
    ensures MoveBlob(s, b, source, target).unique == s.unique
    ensures MoveBlob(s, b, source, target).blobs
            == if b in s.blobs then s.blobs[b := if s.blobs[b] == source then target else s.blobs[b]] else s.blobs
  {
    if b in s.blobs { assert s.blobs[b := s.blobs[b]] == s.blobs; }
  }

  lemma PrepareLeaves(s: State, p: Picked, rest: seq<Picked>, now: int, prep: Preparation)
    requires p.id < |s.jobs| && s.worker == Looping(rest)
    ensures var row, status, t := s.jobs[p.id], StatusOf(s, s.jobs[p.id].blob), Prepare(s, p, rest, now, prep);
            match prep
            case Ready => Leaves(s, t, p.id, row, Taken(status), Executing(p, rest))
            case PolicyDisabled => Leaves(s, t, p.id, row.(status := BlockedByBudget), GivenBack(Taken(status)), Looping(rest))
            case VaultMissing => Leaves(s, t, p.id, row.(status := FailedFinal), GivenBack(Taken(status)), Looping(rest))
            case NoPublisher => Leaves(s, t, p.id, row.(status := FailedFinal), GivenBack(Taken(status)), Looping(rest))
            case PrepareThrew(_) => t.worker == Looping(rest)
  {
    var b := s.jobs[p.id].blob;
    var s1 := MoveBlob(s, b, Expiring, Renewing);
    MoveLeaves(s, b, Expiring, Renewing);
    MoveLeaves(s1, b, Renewing, Expiring);
    SameRow(s, p.id);
    hide MoveBlob, HandleError;
  }

  lemma DispatchSpelled(s: State, p: Picked, rest: seq<Picked>, now: int, prep: Preparation)
    requires p.id < |s.jobs| && s.worker == Looping(rest) && (s.jobs[p.id].status == Pending || s.jobs[p.id].status == Retrying)
    ensures DispatchLeaves(s, p, rest, now, prep, s.jobs[p.id].status, Dispatch(s, p, rest, now, prep))
  {
    var row := s.jobs[p.id];
    SameRow(s, p.id);
    assert forall st :: Sibling(s.jobs, p.id, row.blob, st) <==> OtherRow(s.jobs, p.id, row.blob, st);
    hide Prepare, OtherRow, Sibling;
    if row.status == Pending && !Sibling(s.jobs, p.id, row.blob, Succeeded) && !Sibling(s.jobs, p.id, row.blob, InProgress) {
      var locked := row.(status := InProgress, startedAt := Some(now), heartbeatAt := Some(now));
      PrepareLeaves(WriteJob(s, p.id, locked), p, rest, now, prep);
    }
  }

  /**
   Every iteration up to the executor call, case by case. A row without a registered blob fails; over
   budget, a pending row is blocked and an estimated one ends the batch; otherwise a row of a renewed
   blob is done, a row of a blob in progress attaches (or, under the index, ends the batch), a retrying
   row is passed over, and a pending one is locked, its expiring blob taken to renewing, and either the
   executor called or blob and row put away.
   */
  lemma IterationExactly(states: seq<State>, steps: seq<Step>, k: nat)
    requires IsRun(states, steps) && k < |steps| && steps[k].BeginJob?
    ensures states[k].worker.Looping? && states[k].worker.batch != []
    ensures var s, t, p, rest, now := states[k], states[k + 1], states[k].worker.batch[0], states[k].worker.batch[1..], steps[k].now;
            && p.id < |s.jobs|
            && var row, status := s.jobs[p.id], StatusOf(s, s.jobs[p.id].blob);
            if row.status != Retrying && row.blob !in s.blobs then Leaves(s, t, p.id, row.(status := FailedFinal), status, Looping(rest))
            else if row.status == Estimated && !steps[k].allowed then Leaves(s, t, p.id, row, status, Idle)
            else if row.status == Pending && !steps[k].allowed then Leaves(s, t, p.id, row.(status := BlockedByBudget), status, Looping(rest))
            else DispatchLeaves(s, p, rest, now, steps[k].prep, if row.status == Retrying then Retrying else Pending, t)
  {
    var s, step := states[k], steps[k];
    RunKeeps(states, steps, 0, k);
    assert Enabled(s, step) && states[k + 1] == Apply(s, step);
    BeginSpelled(s, step.now, step.allowed, step.prep);
  }

  lemma BeginSpelled(s: State, now: int, allowed: bool, prep: Preparation)
    requires WorkerAgrees(s) && s.worker.Looping? && s.worker.batch != []
    ensures var t, p, rest := Begin(s, now, allowed, prep), s.worker.batch[0], s.worker.batch[1..];
            && p.id < |s.jobs|
            && var row, status := s.jobs[p.id], StatusOf(s, s.jobs[p.id].blob);
            if row.status != Retrying && row.blob !in s.blobs then Leaves(s, t, p.id, row.(status := FailedFinal), status, Looping(rest))
            else if row.status == Estimated && !allowed then Leaves(s, t, p.id, row, status, Idle)
            else if row.status == Pending && !allowed then Leaves(s, t, p.id, row.(status := BlockedByBudget), status, Looping(rest))
            else DispatchLeaves(s, p, rest, now, prep, if row.status == Retrying then Retrying else Pending, t)
  {
    var p, rest := s.worker.batch[0], s.worker.batch[1..];
    assert PickAgrees(s, p);
    SameRow(s, p.id);
    if p.row.status == Retrying || (p.row.blob in s.blobs && allowed) {
      BeginDispatches(s, now, allowed, prep);
      AtDispatchShape(s);
      hide Begin, Dispatch, AtDispatch;
      DispatchSpelled(AtDispatch(s), p, rest, now, prep);
      AsBeforeDispatch(s, AtDispatch(s), p, rest, now, prep, Begin(s, now, allowed, prep));
    } else {
      RenewalEdges(p.row.status, BlockedByBudget);
      hide ValidateTransition, Dispatch;
    }
  }

  lemma AtDispatchShape(s: State)
    requires s.worker.Looping? && s.worker.batch != [] && PickAgrees(s, s.worker.batch[0])
    ensures var p, t := s.worker.batch[0], AtDispatch(s);
            t.jobs == s.jobs[p.id := s.jobs[p.id].(status := if p.row.status == Retrying then Retrying else Pending)]
            && t.blobs == s.blobs && t.unique == s.unique
  {
    SameRow(s, s.worker.batch[0].id);
  }

  /** Moving an estimated row to pending first makes no difference to what is left. */
  lemma AsBeforeDispatch(s: State, s1: State, p: Picked, rest: seq<Picked>, now: int, prep: Preparation, t: State)
    requires p.id < |s.jobs| && (s.jobs[p.id].status == Retrying || s.jobs[p.id].status == Pending || s.jobs[p.id].status == Estimated)
    requires var from := if s.jobs[p.id].status == Retrying then Retrying else Pending;
             && s1.jobs == s.jobs[p.id := s.jobs[p.id].(status := from)] && s1.blobs == s.blobs && s1.unique == s.unique
             && DispatchLeaves(s1, p, rest, now, prep, from, t)
    ensures DispatchLeaves(s, p, rest, now, prep, if s.jobs[p.id].status == Retrying then Retrying else Pending, t)
  {
    var b := s.jobs[p.id].blob;
    forall st ensures Sibling(s1.jobs, p.id, b, st) <==> Sibling(s.jobs, p.id, b, st) { SiblingsApart(s.jobs, s1.jobs, p.id, b, st); }
    forall row, blob, w | Leaves(s1, t, p.id, row, blob, w) ensures Leaves(s, t, p.id, row, blob, w) {
      assert s1.jobs[p.id := row] == s.jobs[p.id := row];
    }
    hide Sibling, Leaves;
    var from := if s.jobs[p.id].status == Retrying then Retrying else Pending;
    var row, row1 := s.jobs[p.id], s1.jobs[p.id];
    assert row1 == row.(status := from) && row1.blob == b && StatusOf(s1, b) == StatusOf(s, b);
    assert row1.(status := Succeeded) == row.(status := Succeeded) && row1.(status := from) == row.(status := from);
    if Sibling(s.jobs, p.id, b, Succeeded) {
    } else if Sibling(s.jobs, p.id, b, InProgress) {
    } else if from == Retrying {
      assert row1 == row;
    } else {
      assert row1.(status := InProgress, startedAt := Some(now), heartbeatAt := Some(now))
             == row.(status := InProgress, startedAt := Some(now), heartbeatAt := Some(now));
      match prep
      case PrepareThrew(_) =>
        assert OthersStay(s.jobs, t.jobs, p.id);
      case Ready =>
      case PolicyDisabled =>
      case VaultMissing =>
      case NoPublisher =>
    }
  }

  lemma SiblingsApart(jobs: seq<Job>, jobs1: seq<Job>, id: JobId, b: BlobId, st: RenewalStatus)
    requires |jobs| == |jobs1| && forall k :: 0 <= k < |jobs| && k != id ==> jobs1[k] == jobs[k]
    ensures Sibling(jobs1, id, b, st) <==> Sibling(jobs, id, b, st)
  {
  }

  // ---------- After the executor call, and the other writers ----------

  /** What the remaining steps leave. */
  lemma OtherStepsExactly(states: seq<State>, steps: seq<Step>, k: nat)
    requires IsRun(states, steps) && k < |steps|
    ensures var s, t := states[k], states[k + 1];
            match steps[k]
            case ConfirmJob(now) =>   // the row is done and its heartbeat refreshed; the blob waits
              && s.worker.Executing? && s.worker.current.id < |s.jobs| && t.blobs == s.blobs
              && t.jobs == s.jobs[s.worker.current.id := s.jobs[s.worker.current.id].(status := Succeeded, heartbeatAt := Some(now))]
              && t.worker == Confirming(s.worker.current, s.worker.rest)
            case CloseJob(_, Completed(applies)) =>   // the renewing blob goes on to protected or tracked
              && s.worker.Confirming? && s.worker.current.id < |s.jobs| && t.jobs == s.jobs && t.worker == Looping(s.worker.rest)
              && var b := s.jobs[s.worker.current.id].blob;
              t.blobs == if b in s.blobs && s.blobs[b] in {Renewing, Renewed} then s.blobs[b := if applies then Protected else Tracked] else s.blobs
            case CrashWorker(BetweenJobs) => t.jobs == s.jobs && t.blobs == s.blobs && t.worker == Idle
            case CrashWorker(InFlight(_)) => t.jobs == s.jobs && t.blobs == s.blobs && t.worker == Idle && s.worker.Executing?
            case CrashWorker(AfterRowSucceeded(progress)) =>   // the blob stays, or has been moved to renewed, or all the way
              && t.jobs == s.jobs && t.worker == Idle && s.worker.Confirming? && s.worker.current.id < |s.jobs|
              && (progress.NotMoved? ==> t.blobs == s.blobs)
              && var b := s.jobs[s.worker.current.id].blob;
              && (progress.ToRenewed? ==> t.blobs == if b in s.blobs && s.blobs[b] == Renewing then s.blobs[b := Renewed] else s.blobs)
              && (progress.Onward? ==>
                    t.blobs == if b in s.blobs && s.blobs[b] in {Renewing, Renewed}
                               then s.blobs[b := if progress.policyApplies then Protected else Tracked] else s.blobs)
            case EnqueueJob(rec, Some(j), _) =>
              && j < |s.jobs| && t.blobs == s.blobs && t.worker == s.worker
              && t.jobs == s.jobs[j := s.jobs[j].(attempt := rec.attempt, maxAttempts := rec.maxAttempts,
                                                  scheduledFor := if rec.scheduledFor.None? then s.jobs[j].scheduledFor else rec.scheduledFor)]
            case EnqueueJob(rec, None, now) =>
              && t.blobs == s.blobs && t.worker == s.worker
              && t.jobs == s.jobs + [Job(rec.blob, rec.status, rec.attempt, rec.maxAttempts, rec.priority, rec.scheduledFor, now, None, None)]
            case ChangeBlob(b, status) => t.jobs == s.jobs && t.worker == s.worker && t.blobs == s.blobs[b := status]
            case _ => true
  {
    var s, step := states[k], steps[k];
    assert Enabled(s, step) && states[k + 1] == Apply(s, step);
    hide RecoverFirst, Begin, ThrowCall, IsBatch, IsExisting;
    if step.CloseJob? && step.closing.Completed? {
      var b := s.jobs[s.worker.current.id].blob;
      AdvanceRows(s.(worker := Looping(s.worker.rest)), b, Onward(step.closing.policyApplies));
    }
  }
}
