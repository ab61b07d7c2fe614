/** Concrete runs showing that the side conditions of the renewal theorems are needed, and what ends a batch. */
module RenewalWitnesses {
  import opened Common
  import opened StateMachines
  import opened RenewalModel
  import opened RenewalTally
  import opened RenewalSafety
  import opened RenewalTheorems
  import opened RenewalHistory
  import opened RenewalRetries

  const B: BlobId := 7

  function Rec(priority: int): JobRecord { JobRecord(B, Pending, 0, 5, priority, None) }

  function Fresh(priority: int): Job { Job(B, Pending, 0, 5, priority, None, 0, None, None) }

  /** The row once locked at `now`. */
  function Locked(row: Job, now: int): Job { row.(status := InProgress, startedAt := Some(now), heartbeatAt := Some(now)) }

  function Written(from: RenewalStatus, to: RenewalStatus, j: JobId): Event { Event(Wrote(from, to), j, B) }

  // ---------- One pending row ----------

  /** Between polls: one pending row of an expiring blob, every other row terminal. */
  ghost predicate OneToDo(s: State) {
    && s.worker in {Idle, Looping([])} && s.blobs == map[B := Expiring]
    && |s.jobs| > 0 && s.jobs[|s.jobs| - 1] == Fresh(50)
    && forall k :: 0 <= k < |s.jobs| - 1 ==> s.jobs[k].status == FailedFinal
  }

  function Selected(s: State): State
    requires |s.jobs| > 0
  {
    s.(worker := Looping([Picked(|s.jobs| - 1, Fresh(50))]))
  }

  function CallStarted(s: State): State
    requires |s.jobs| > 0
  {
    var j := |s.jobs| - 1;
    State(s.jobs[j := Locked(Fresh(50), 0)], map[B := Renewing], Executing(Picked(j, Fresh(50)), []),
          s.log + [Written(Pending, InProgress, j), Event(Called, j, B)], s.unique)
  }

  lemma {:induction false} NothingStale(s: State, now: int, n: nat)
    requires n <= |s.jobs|
    requires forall k :: 0 <= k < |s.jobs| ==> !Stale(s.jobs[k], now)
    ensures RecoverFirst(s, now, n) == s
  {
    if n > 0 {
      NothingStale(s, now, n - 1);
    }
  }

  lemma SelectOne(s: State)
    requires OneToDo(s)
    ensures var start := StartBatch(0, [|s.jobs| - 1]);
            Enabled(s, start) && Apply(s, start) == Selected(s)
  {
    var j := |s.jobs| - 1;
    NothingStale(s, 0, |s.jobs|);
    assert PickRows(s.jobs, [j]) == [Picked(j, Fresh(50))];
  }

  lemma BeginOne(s: State)
    requires OneToDo(s)
    ensures Enabled(Selected(s), BeginJob(0, true, Ready))
    ensures Apply(Selected(s), BeginJob(0, true, Ready)) == CallStarted(s)
  {
    var m := Selected(s);
    assert m.worker.batch[1..] == [];
    var r := Apply(m, BeginJob(0, true, Ready));
    assert r.log == CallStarted(s).log;
    assert r.blobs == CallStarted(s).blobs;
  }

  /** From such a state to the executor call of the row. */
  lemma RunToCall(states: seq<State>, steps: seq<Step>) returns (states1: seq<State>, steps1: seq<Step>)
    requires IsRun(states, steps) && OneToDo(Last(states))
    ensures IsRun(states1, steps1) && Last(states1) == CallStarted(Last(states))
    ensures NoCrash(steps) ==> NoCrash(steps1)
  {
    var s := Last(states);
    hide Enabled, Apply, IsRun;
    SelectOne(s);
    BeginOne(s);
    states1, steps1 := Go(states, steps, StartBatch(0, [|s.jobs| - 1]), Selected(s));
    states1, steps1 := Go(states1, steps1, BeginJob(0, true, Ready), CallStarted(s));
  }

  function Empty(unique: bool): State { State([], map[B := Expiring], Idle, [], unique) }

  /** A run that enqueues one row. */
  lemma OneEnqueued(unique: bool) returns (states: seq<State>, steps: seq<Step>)
    ensures IsRun(states, steps) && NoCrash(steps)
    ensures Last(states) == Empty(unique).(jobs := [Fresh(50)]) && OneToDo(Last(states))
  {
    var s := Empty(unique);
    states, steps := [s], [];
    states, steps := Go(states, steps, EnqueueJob(Rec(50), None, 0), s.(jobs := [Fresh(50)]));
  }

  /** A reachable state in which the executor has been called once for the first row. */
  lemma FirstCall(unique: bool) returns (states: seq<State>, steps: seq<Step>)
    ensures IsRun(states, steps) && NoCrash(steps)
    ensures Last(states) == CallStarted(Empty(unique).(jobs := [Fresh(50)]))
  {
    hide IsRun;
    states, steps := OneEnqueued(unique);
    states, steps := RunToCall(states, steps);
  }

  function Closing1(unique: bool): State {
    var s := CallStarted(Empty(unique).(jobs := [Fresh(50)]));
    s.(jobs := [Locked(Fresh(50), 0).(status := Succeeded)], worker := Confirming(Picked(0, Fresh(50)), []),
       log := s.log + [Written(InProgress, Succeeded, 0), Event(Committed, 0, B)])
  }

  /** And then the row is set to succeeded. */
  lemma FirstConfirmed(unique: bool) returns (states: seq<State>, steps: seq<Step>)
    ensures IsRun(states, steps) && NoCrash(steps) && Last(states) == Closing1(unique)
  {
    hide IsRun;
    states, steps := FirstCall(unique);
    ConfirmFirst(unique);
    states, steps := Go(states, steps, ConfirmJob(0), Closing1(unique));
  }

  lemma ConfirmFirst(unique: bool)
    ensures var s := CallStarted(Empty(unique).(jobs := [Fresh(50)]));
            Enabled(s, ConfirmJob(0)) && Apply(s, ConfirmJob(0)) == Closing1(unique)
  {
    var s := CallStarted(Empty(unique).(jobs := [Fresh(50)]));
    assert Apply(s, ConfirmJob(0)).log == Closing1(unique).log;
  }

  // ---------- Stranding ----------

  /** The stranding crash is reachable, with or without the index, and it leaves the blob stranded. */
  lemma StrandingReachable(unique: bool) returns (states: seq<State>, steps: seq<Step>)
    ensures IsRun(states, steps) && Stranded(TallyOf(Last(states), B))
  {
    states, steps := FirstConfirmed(unique);
    var s, crash := Last(states), CrashWorker(AfterRowSucceeded(NotMoved));
    hide IsRun;
    RunKeeps(states, steps, B, |states| - 1);
    assert CountRows(s.jobs[..0], B, InProgress) == 0;
    assert BlobSound(TallyOf(s, B));
    CrashStrandsExactly(s, crash.at, B);
    states, steps := Go(states, steps, crash, Apply(s, crash));
  }

  // ---------- A late failure ----------

  /** The state after a late failure of the first row, at the point before the blob is moved. */
  function LateState(unique: bool, retryable: bool): State {
    Close(Closing1(unique), 0, LateThrew(NotMoved, Failure(retryable, 0)))
  }

  lemma FirstFailsLate(unique: bool, retryable: bool) returns (states: seq<State>, steps: seq<Step>)
    ensures IsRun(states, steps) && NoCrash(steps) && Last(states) == LateState(unique, retryable)
  {
    states, steps := FirstConfirmed(unique);
    states, steps := Go(states, steps, CloseJob(0, LateThrew(NotMoved, Failure(retryable, 0))), LateState(unique, retryable));
  }

  lemma LateStateShape(unique: bool)
    ensures var r := LateState(unique, false);
            && r.worker == Looping([]) && r.blobs == map[B := Expiring] && |r.jobs| == 1 && r.jobs[0].status == FailedFinal
            && r.log == Closing1(unique).log + [Event(CommitLost, 0, B), Written(Succeeded, FailedFinal, 0)]
  {
  }

  /** Committed and crash events among two appended ones. */
  lemma TwoMore(log: seq<Event>, e0: Event, e1: Event)
    ensures forall kind | kind == Committed || kind == Crashed ::
              CountLog(log + [e0, e1], kind, B)
              == CountLog(log, kind, B) + One(e0.kind == kind && e0.blob == B) + One(e1.kind == kind && e1.blob == B)
  {
    forall kind | kind == Committed || kind == Crashed
      ensures CountLog(log + [e0, e1], kind, B)
              == CountLog(log, kind, B) + One(e0.kind == kind && e0.blob == B) + One(e1.kind == kind && e1.blob == B)
    {
      CountLogAppend(log, e0, kind, B);
      CountLogAppend(log + [e0], e1, kind, B);
      assert log + [e0, e1] == log + [e0] + [e1];
    }
  }

  ghost predicate Commits(s: State, n: nat) {
    CountLog(s.log, Committed, B) == n && CountLog(s.log, Crashed, B) == 0
  }

  lemma OneCommit(unique: bool)
    ensures Commits(LateState(unique, false), 1)
  {
    LateStateShape(unique);
    TwoMore([], Written(Pending, InProgress, 0), Event(Called, 0, B));
    var log0 := [] + [Written(Pending, InProgress, 0), Event(Called, 0, B)];
    TwoMore(log0, Written(InProgress, Succeeded, 0), Event(Committed, 0, B));
    assert Closing1(unique).log == log0 + [Written(InProgress, Succeeded, 0), Event(Committed, 0, B)];
    TwoMore(Closing1(unique).log, Event(CommitLost, 0, B), Written(Succeeded, FailedFinal, 0));
  }

  /** The next scan enqueues the blob again. */
  lemma EnqueuedAgain(unique: bool) returns (states: seq<State>, steps: seq<Step>)
    ensures IsRun(states, steps) && NoCrash(steps) && OneToDo(Last(states)) && |Last(states).jobs| == 2
    ensures Commits(Last(states), 1)
  {
    states, steps := FirstFailsLate(unique, false);
    LateStateShape(unique);
    OneCommit(unique);
    var s := LateState(unique, false);
    hide IsRun, Commits, LateState;
    var next := s.(jobs := s.jobs + [Fresh(50)]);
    assert Enabled(s, EnqueueJob(Rec(50), None, 0)) && Apply(s, EnqueueJob(Rec(50), None, 0)) == next;
    SameCommits(s, next);
    states, steps := Go(states, steps, EnqueueJob(Rec(50), None, 0), next);
  }

  lemma SameCommits(s: State, r: State)
    ensures r.log == s.log ==> forall n: nat :: Commits(r, n) == Commits(s, n)
  {
  }

  /**
   A late failure renews a blob twice with no crash at all: the succeeded row is overwritten,
   so the idempotency check no longer sees it.
   */
  lemma LateFailureRenewsTwice(unique: bool) returns (states: seq<State>, steps: seq<Step>)
    ensures IsRun(states, steps) && NoCrash(steps)
    ensures CountLog(Last(states).log, Crashed, B) == 0
    ensures CountLog(Last(states).log, Committed, B) == 2
  {
    states, steps := EnqueuedAgain(unique);
    var s := Last(states);
    var r := CallStarted(s);
    hide IsRun, CountLog;
    states, steps := RunToCall(states, steps);
    TwoMore(s.log, Written(Pending, InProgress, 1), Event(Called, 1, B));
    var done := Confirm(r, 0);
    TwoMore(r.log, Written(InProgress, Succeeded, 1), Event(Committed, 1, B));
    assert done.log == r.log + [Written(InProgress, Succeeded, 1), Event(Committed, 1, B)];
    hide Confirm;
    states, steps := Go(states, steps, ConfirmJob(0), done);
  }

  // ---------- What ends a batch ----------

  /** The iteration gets past the budget check. */
  predicate Dispatched(s: State, p: Picked, allowed: bool) {
    p.row.status == Retrying || (p.row.blob in s.blobs && allowed)
  }

  /**
   An iteration ends the whole batch exactly when it picked an `estimated` row that the budget
   refuses, or, with the index in place, a row that would attach.
   */
  lemma BatchEndsExactly(s: State, now: int, allowed: bool, prep: Preparation)
    requires s.worker.Looping? && s.worker.batch != [] && PickAgrees(s, s.worker.batch[0])
    ensures var p := s.worker.batch[0];
            Begin(s, now, allowed, prep).worker == Idle
            <==> (p.row.status == Estimated && p.row.blob in s.blobs && !allowed)
                 || (s.unique && Dispatched(s, p, allowed)
                     && !OtherRow(s.jobs, p.id, p.row.blob, Succeeded) && OtherRow(s.jobs, p.id, p.row.blob, InProgress))
  {
    var p, rest := s.worker.batch[0], s.worker.batch[1..];
    RenewalEdges(p.row.status, BlockedByBudget);
    hide ValidateTransition, Dispatch, OtherRow;
    var s0 := s.(worker := Looping(rest));
    var s1 := if p.row.status == Estimated then SetStatus(s0, p.id, Pending) else s0;
    DispatchEndsExactly(s1, p, rest, now, prep);
    OthersUntouched(s.jobs, p.id, s.jobs[p.id].(status := Pending), p.row.blob);
  }

  lemma DispatchEndsExactly(s: State, p: Picked, rest: seq<Picked>, now: int, prep: Preparation)
    requires p.id < |s.jobs| && s.worker == Looping(rest)
    ensures var b := s.jobs[p.id].blob;
            Dispatch(s, p, rest, now, prep).worker == Idle
            <==> s.unique && !OtherRow(s.jobs, p.id, b, Succeeded) && OtherRow(s.jobs, p.id, b, InProgress)
  {
    hide Prepare, OtherRow;
  }

  lemma OthersUntouched(jobs: seq<Job>, id: JobId, row: Job, b: BlobId)
    requires id < |jobs|
    ensures forall st :: OtherRow(jobs[id := row], id, b, st) == OtherRow(jobs, id, b, st)
  {
    forall st ensures OtherRow(jobs[id := row], id, b, st) == OtherRow(jobs, id, b, st) {
      if k :| 0 <= k < |jobs| && k != id && jobs[k].blob == b && jobs[k].status == st {
        assert jobs[id := row][k] == jobs[k];
      }
    }
  }

  /** Nothing that is waiting or can be recovered may precede the row. */
  predicate Foremost(jobs: seq<Job>, head: JobId)
    requires head < |jobs|
  {
    forall k :: 0 <= k < |jobs| && k != head && (Waiting(jobs[k].status) || jobs[k].status == InProgress)
                ==> !MayPrecede(jobs[k], jobs[head])
  }

  /**
   An over-budget `estimated` row that every waiting or recoverable row sorts behind: any poll
   does nothing but recovery, and leaves all other rows untried, however often it is repeated.
   */
  lemma OverBudgetEstimateBlocksQueue(s: State, head: JobId, now: int, ids: seq<JobId>, prep: Preparation)
    requires Enabled(s, StartBatch(now, ids))
    requires head < |s.jobs| && s.jobs[head].status == Estimated && s.jobs[head].blob in s.blobs && Due(s.jobs[head], now)
    requires Foremost(s.jobs, head)
    ensures var m := Apply(s, StartBatch(now, ids));
            && Enabled(m, BeginJob(now, false, prep))
            && Apply(m, BeginJob(now, false, prep)) == RecoverFirst(s, now, |s.jobs|).(worker := Idle)
  {
    hide RecoverFirst, Begin, IsBatch, RowsReset, Foremost;
    var t := RecoverFirst(s, now, |s.jobs|);
    RecoverRows(s, now, |s.jobs|);
    StaysForemost(s, t, head, now);
    FirstOfBatch(t.jobs, now, ids, head);
    var m := Apply(s, StartBatch(now, ids));
    assert m.worker.batch[0] == Picked(head, t.jobs[head]);
    RefusedEstimate(m, now, prep);
  }

  /** Recovery leaves the row alone, and leaves it foremost. */
  lemma StaysForemost(s: State, t: State, head: JobId, now: int)
    requires RowsReset(s, t, now, |s.jobs|) && head < |s.jobs| && s.jobs[head].status == Estimated && Foremost(s.jobs, head)
    ensures |t.jobs| == |s.jobs| && t.jobs[head] == s.jobs[head] && Foremost(t.jobs, head)
  {
    hide MayPrecede, ResetRow, Stale;
    ResetKeepsOrder(s.jobs[head], s.jobs[head], now);
    forall k | 0 <= k < |t.jobs| && k != head && (Waiting(t.jobs[k].status) || t.jobs[k].status == InProgress)
      ensures !MayPrecede(t.jobs[k], t.jobs[head])
    {
      ResetKeepsOrder(s.jobs[k], s.jobs[head], now);
    }
  }

  /** A due row that no other waiting row may precede heads the batch. */
  lemma FirstOfBatch(jobs: seq<Job>, now: int, ids: seq<JobId>, head: JobId)
    requires IsBatch(jobs, now, ids) && head < |jobs| && Due(jobs[head], now)
    requires Foremost(jobs, head)
    ensures ids != [] && ids[0] == head
  {
    hide MayPrecede;
    var first := ids[0];
    assert Due(jobs[first], now);
  }

  lemma ResetKeepsOrder(row: Job, head: Job, now: int)
    ensures MayPrecede(ResetRow(row), head) <==> MayPrecede(row, head)
    ensures Stale(row, now) ==> row.status == InProgress
  {
  }

  lemma RefusedEstimate(s: State, now: int, prep: Preparation)
    requires s.worker.Looping? && s.worker.batch != [] && s.worker.batch[0].id < |s.jobs|
    requires s.worker.batch[0].row.status == Estimated && s.jobs[s.worker.batch[0].id].blob in s.blobs
    ensures Begin(s, now, false, prep) == s.(worker := Idle)
  {
    RenewalEdges(Estimated, BlockedByBudget);
    hide ValidateTransition, Dispatch;
  }
}
