/** Row-level history of renewal runs: terminal rows, executor calls per row, and every status write. */
module RenewalHistory {
  import opened Common
  import opened StateMachines
  import opened RenewalModel
  import opened RenewalTally
  import opened RenewalSafety
  import opened RenewalTheorems

  // ---------- Terminal rows ----------

  lemma TerminalExactly(st: RenewalStatus)
    ensures RenewalTerminal(st) <==> st == Succeeded || st == FailedFinal || st == BlockedByBudget
  {
    var ts := RENEWAL.terminal;
    assert ts[0] in ts && ts[1] in ts && ts[2] in ts;
    if st in ts {
      var i :| 0 <= i < |ts| && ts[i] == st;
      assert i == 0 || i == 1 || i == 2;
    }
  }

  /** The rest of the try block of row `j` throws after the row was set to succeeded. */
  ghost predicate FailsLate(s: State, step: Step, j: JobId) {
    LateFailure(step) && s.worker.Confirming? && s.worker.current.id == j
  }

  lemma TerminalStep(s: State, step: Step, j: JobId)
    requires WorkerAgrees(s) && Enabled(s, step)
    requires j < |s.jobs| && s.jobs[j].status in {Succeeded, FailedFinal, BlockedByBudget}
    ensures j < |Apply(s, step).jobs| && Apply(s, step).jobs[j].blob == s.jobs[j].blob
    ensures Apply(s, step).jobs[j].status == s.jobs[j].status <==> !FailsLate(s, step, j)
  {
    hide Begin, ThrowCall, Confirm, IsBatch, Advance;
    match step
    case StartBatch(now, ids) => RecoverKeepsShape(s, now, |s.jobs|);
    case BeginJob(now, allowed, prep) => assert PickAgrees(s, s.worker.batch[0]);
    case CloseJob(now, closing) => CloseStatus(s, now, closing);
    case _ =>
  }

  lemma CloseStatus(s: State, now: int, closing: Closing)
    requires s.worker.Confirming? && WorkerAgrees(s)
    ensures closing.Completed? ==> Close(s, now, closing).jobs == s.jobs
    ensures closing.LateThrew? ==> Close(s, now, closing).jobs[s.worker.current.id].status in {Retrying, FailedFinal}
  {
    var s0 := s.(worker := Looping(s.worker.rest));
    hide WorkerAgrees, Advance;
    if closing.Completed? {
      AdvanceTally(s0, s.jobs[s.worker.current.id].blob, Onward(closing.policyApplies), 0);
    } else {
      AdvanceTally(s0, s.jobs[s.worker.current.id].blob, closing.progress, 0);
    }
  }

  /** A terminal row keeps its status and blob through every later step, unless its own try block fails late. */
  lemma {:induction false} TerminalRowsStay(states: seq<State>, steps: seq<Step>, i: nat, k: nat, j: JobId)
    requires IsRun(states, steps) && i <= k < |states|
    requires j < |states[i].jobs| && RenewalTerminal(states[i].jobs[j].status)
    requires forall l :: i <= l < k ==> !FailsLate(states[l], steps[l], j)
    ensures j < |states[k].jobs| && states[k].jobs[j].status == states[i].jobs[j].status
    ensures states[k].jobs[j].blob == states[i].jobs[j].blob
    decreases k - i
  {
    hide Apply, Enabled, Initial, RenewalTerminal, FailsLate, WorkerAgrees, TallyOf, Core, BlobSound, Strands;
    TerminalExactly(states[i].jobs[j].status);
    if i < k {
      TerminalRowsStay(states, steps, i, k - 1, j);
      RunKeeps(states, steps, 0, k - 1);
      TerminalStep(states[k - 1], steps[k - 1], j);
    }
  }

  /** And that is what changes it: a terminal status gives way at a step exactly when the row's try block fails late there. */
  lemma TerminalStatusChangesExactlyOnLateFailure(states: seq<State>, steps: seq<Step>, k: nat, j: JobId)
    requires IsRun(states, steps) && k < |steps|
    requires j < |states[k].jobs| && RenewalTerminal(states[k].jobs[j].status)
    ensures j < |states[k + 1].jobs|
    ensures states[k + 1].jobs[j].status != states[k].jobs[j].status <==> FailsLate(states[k], steps[k], j)
  {
    TerminalExactly(states[k].jobs[j].status);
    hide RenewalTerminal, FailsLate;
    RunKeeps(states, steps, 0, k);
    TerminalStep(states[k], steps[k], j);
  }

  // ---------- Status writes ----------

  /** Status writes of the code that the registered machine does not allow. */
  predicate OffMachine(source: RenewalStatus, target: RenewalStatus) {
    || (source == InProgress && target == Pending)             // stale recovery
    || (source == Pending && target == Succeeded)              // blob already renewed
    || (source == Retrying && target == Succeeded)             // blob already renewed
    || (source == InProgress && target == BlockedByBudget)     // auto-renewal disabled by policy
    || LateWrite(source, target)
  }

  /** The catch block after a late failure overwrites a succeeded row. */
  predicate LateWrite(source: RenewalStatus, target: RenewalStatus) {
    source == Succeeded && (target == Retrying || target == FailedFinal)
  }

  predicate Permitted(source: RenewalStatus, target: RenewalStatus, late: bool) {
    RenewalEdge(source, target) || (OffMachine(source, target) && (LateWrite(source, target) ==> late))
  }

  /** Every status write is permitted; on row `j` a late write only if `late`. */
  ghost predicate LogPermitted(log: seq<Event>, j: JobId, late: bool) {
    forall e :: e in log && e.kind.Wrote? ==> Permitted(e.kind.source, e.kind.target, e.job != j || late)
  }

  // ---------- Executor calls of one row ----------

  predicate Unstarted(s: State, j: JobId) {
    j >= |s.jobs| || s.jobs[j].status == Estimated || s.jobs[j].status == Pending
  }

  ghost function Calls(s: State, j: JobId): nat { CountJobLog(s.log, Called, j) }

  ghost function Recoveries(s: State, j: JobId): nat { CountJobLog(s.log, EventKind.Recovered, j) }

  ghost predicate CallsBounded(s: State, j: JobId) {
    Calls(s, j) <= Recoveries(s, j) + (if Unstarted(s, j) then 0 else 1)
  }

  /** From `s` to `r` the log only grew, by permitted events. */
  ghost predicate Grows(s: State, r: State, j: JobId, late: bool) {
    && (forall e :: e in s.log ==> e in r.log)
    && (LogPermitted(s.log, j, late) ==> LogPermitted(r.log, j, late))
  }

  /** The log grew without an executor call or a recovery of row `j`. */
  ghost predicate Quiet(s: State, r: State, j: JobId, late: bool) {
    Grows(s, r, j, late) && Calls(r, j) == Calls(s, j) && Recoveries(r, j) == Recoveries(s, j)
  }

  lemma AppendGrows(s: State, e: Event, j: JobId, late: bool)
    requires e.kind.Wrote? ==> Permitted(e.kind.source, e.kind.target, e.job != j || late)
    ensures Grows(s, s.(log := s.log + [e]), j, late)
    ensures Calls(s.(log := s.log + [e]), j) == Calls(s, j) + One(e.kind == Called && e.job == j)
    ensures Recoveries(s.(log := s.log + [e]), j) == Recoveries(s, j) + One(e.kind == EventKind.Recovered && e.job == j)
  {
    CountJobLogAppend(s.log, e, Called, j);
    CountJobLogAppend(s.log, e, EventKind.Recovered, j);
  }

  lemma QuietWrite(s: State, k: JobId, row: Job, j: JobId, late: bool)
    requires k < |s.jobs| && row.blob == s.jobs[k].blob && Permitted(s.jobs[k].status, row.status, k != j || late)
    ensures Quiet(s, WriteJob(s, k, row), j, late) && WriteJob(s, k, row).jobs == s.jobs[k := row]
    ensures Event(Wrote(s.jobs[k].status, row.status), k, row.blob) in WriteJob(s, k, row).log
  {
    AppendGrows(s.(jobs := s.jobs[k := row]), Event(Wrote(s.jobs[k].status, row.status), k, row.blob), j, late);
  }

  lemma NoteGrows(s: State, kind: EventKind, k: JobId, j: JobId, late: bool)
    requires k < |s.jobs| && !kind.Wrote?
    ensures Grows(s, Note(s, kind, k), j, late) && Note(s, kind, k).jobs == s.jobs
    ensures Calls(Note(s, kind, k), j) == Calls(s, j) + One(kind == Called && k == j)
    ensures Recoveries(Note(s, kind, k), j) == Recoveries(s, j) + One(kind == EventKind.Recovered && k == j)
  {
    AppendGrows(s, Event(kind, k, s.jobs[k].blob), j, late);
  }

  lemma QuietMove(s: State, x: BlobId, source: BlobStatus, target: BlobStatus, j: JobId, late: bool)
    ensures Quiet(s, MoveBlob(s, x, source, target), j, late) && MoveBlob(s, x, source, target).jobs == s.jobs
  {
  }

  lemma SameLogQuiet(s: State, r: State, j: JobId, late: bool)
    requires r.log == s.log
    ensures Quiet(s, r, j, late)
  {
  }

  lemma QuietHandleError(s: State, k: JobId, snap: Job, now: int, e: Failure, j: JobId, late: bool)
    requires k < |s.jobs|
    requires s.jobs[k].status == InProgress || (s.jobs[k].status == Succeeded && (k != j || late))
    ensures Quiet(s, HandleError(s, k, snap, now, e), j, late)
    ensures HandleError(s, k, snap, now, e).jobs[k].status in {Retrying, FailedFinal}
    ensures exists w :: w in HandleError(s, k, snap, now, e).log && WroteOver(w, k, s.jobs[k].status)
  {
    hide Calls, Recoveries;
    var row := HandleError(s, k, snap, now, e).jobs[k];
    QuietMove(s, s.jobs[k].blob, Renewing, Expiring, j, late);
    QuietWrite(if row.status == Retrying then s else MoveBlob(s, s.jobs[k].blob, Renewing, Expiring), k, row, j, late);
  }

  lemma GrowsTransitively(s: State, t: State, r: State, j: JobId, late: bool)
    requires Grows(s, t, j, late) && Grows(t, r, j, late)
    ensures Grows(s, r, j, late)
  {
  }

  lemma RecoverRowCalls(s: State, k: JobId, j: JobId, late: bool)
    requires k < |s.jobs| && s.jobs[k].status == InProgress
    ensures Grows(s, RecoverRow(s, k), j, late)
    ensures Calls(RecoverRow(s, k), j) == Calls(s, j)
    ensures Recoveries(RecoverRow(s, k), j) == Recoveries(s, j) + One(k == j)
    ensures RecoverRow(s, k).jobs == s.jobs[k := s.jobs[k].(status := Pending, attempt := s.jobs[k].attempt + 1)]
  {
    hide Calls, Recoveries, Grows, WriteJob, Note, MoveBlob;
    var row := s.jobs[k].(status := Pending, attempt := s.jobs[k].attempt + 1);
    var t1 := WriteJob(s, k, row);
    QuietWrite(s, k, row, j, late);
    var t2 := Note(t1, EventKind.Recovered, k);
    NoteGrows(t1, EventKind.Recovered, k, j, late);
    QuietMove(t2, s.jobs[k].blob, Renewing, Expiring, j, late);
    GrowsTransitively(s, t1, t2, j, late);
    GrowsTransitively(s, t2, RecoverRow(s, k), j, late);
  }

  lemma {:induction false} RecoverCalls(s: State, now: int, n: nat, j: JobId, late: bool)
    requires n <= |s.jobs| && CallsBounded(s, j)
    ensures CallsBounded(RecoverFirst(s, now, n), j) && Grows(s, RecoverFirst(s, now, n), j, late)
    ensures Calls(RecoverFirst(s, now, n), j) == Calls(s, j)
    ensures Recoveries(RecoverFirst(s, now, n), j) == Recoveries(s, j) + One(j < n && Stale(s.jobs[j], now))
  {
    hide Calls, Recoveries, Grows, RecoverRow;
    SameLogQuiet(s, s, j, late);
    if n > 0 {
      RecoverCalls(s, now, n - 1, j, late);
      var t := RecoverFirst(s, now, n - 1);
      if Stale(t.jobs[n - 1], now) {
        RecoverRowCalls(t, n - 1, j, late);
        GrowsTransitively(s, t, RecoverRow(t, n - 1), j, late);
      }
    }
  }

  /** Only the `Ready` branch, taken with the row locked, calls the executor. */
  lemma PrepareCalls(s: State, p: Picked, rest: seq<Picked>, now: int, prep: Preparation, j: JobId, late: bool)
    requires p.id < |s.jobs| && s.jobs[p.id].status == InProgress
    ensures var r := Prepare(s, p, rest, now, prep);
            && Grows(s, r, j, late)
            && Recoveries(r, j) == Recoveries(s, j)
            && Calls(r, j) == Calls(s, j) + One(prep == Ready && p.id == j)
            && !Unstarted(r, p.id)
  {
    hide Calls, Recoveries, MoveBlob, Note, WriteJob, HandleError;
    var x := s.jobs[p.id].blob;
    var s1 := MoveBlob(s, x, Expiring, Renewing);
    QuietMove(s, x, Expiring, Renewing, j, late);
    match prep
    case Ready =>
      NoteGrows(s1, Called, p.id, j, late);
      SameLogQuiet(Note(s1, Called, p.id), Prepare(s, p, rest, now, prep), j, late);
    case PrepareThrew(e) => QuietHandleError(s1, p.id, p.row, now, e, j, late);
    case _ =>
      QuietMove(s1, x, Renewing, Expiring, j, late);
      var s2 := MoveBlob(s1, x, Renewing, Expiring);
      QuietWrite(s2, p.id, s2.jobs[p.id].(status := if prep.PolicyDisabled? then BlockedByBudget else FailedFinal), j, late);
  }

  lemma DispatchCalls(s: State, p: Picked, rest: seq<Picked>, now: int, prep: Preparation, j: JobId, late: bool)
    requires p.id < |s.jobs| && (s.jobs[p.id].status == Pending || s.jobs[p.id].status == Retrying) && CallsBounded(s, j)
    ensures CallsBounded(Dispatch(s, p, rest, now, prep), j) && Grows(s, Dispatch(s, p, rest, now, prep), j, late)
    ensures j != p.id ==> Calls(Dispatch(s, p, rest, now, prep), j) == Calls(s, j)
  {
    hide Calls, Recoveries, WriteJob, Prepare, Grows;
    var row := s.jobs[p.id];
    QuietWrite(s, p.id, row.(status := Succeeded), j, late);
    QuietWrite(s, p.id, row.(status := InProgress, startedAt := Some(now)), j, late);
    var locked := row.(status := InProgress, startedAt := Some(now), heartbeatAt := Some(now));
    QuietWrite(s, p.id, locked, j, late);
    SameLogQuiet(s, s, j, late);
    SameLogQuiet(s, s.(worker := Idle), j, late);
    var s1 := WriteJob(s, p.id, locked);
    PrepareCalls(s1, p, rest, now, prep, j, late);
    GrowsTransitively(s, s1, Prepare(s1, p, rest, now, prep), j, late);
  }

  lemma BeginCalls(s: State, now: int, allowed: bool, prep: Preparation, j: JobId, late: bool)
    requires s.worker.Looping? && s.worker.batch != [] && PickAgrees(s, s.worker.batch[0])
    requires CallsBounded(s, j) && s.worker.batch[0].row.blob in s.blobs
    ensures CallsBounded(Begin(s, now, allowed, prep), j) && Grows(s, Begin(s, now, allowed, prep), j, late)
    ensures j != s.worker.batch[0].id ==> Calls(Begin(s, now, allowed, prep), j) == Calls(s, j)
  {
    hide Calls, Recoveries, CallsBounded, Begin, Dispatch, Grows, AtDispatch;
    var p, rest := s.worker.batch[0], s.worker.batch[1..];
    if p.row.status == Retrying || allowed {
      BeginDispatches(s, now, allowed, prep);
      AtDispatchCalls(s, j, late);
      DispatchCalls(AtDispatch(s), p, rest, now, prep, j, late);
      GrowsTransitively(s, AtDispatch(s), Begin(s, now, allowed, prep), j, late);
    } else {
      RefuseCalls(s, now, prep, j, late);
    }
  }

  lemma AtDispatchCalls(s: State, j: JobId, late: bool)
    requires s.worker.Looping? && s.worker.batch != [] && PickAgrees(s, s.worker.batch[0])
    ensures Quiet(s, AtDispatch(s), j, late) && (CallsBounded(s, j) ==> CallsBounded(AtDispatch(s), j))
  {
    hide Calls, Recoveries, Grows, WriteJob;
    var p, s0 := s.worker.batch[0], s.(worker := Looping(s.worker.batch[1..]));
    SameLogQuiet(s, s0, j, late);
    if p.row.status == Estimated {
      QuietWrite(s0, p.id, s.jobs[p.id].(status := Pending), j, late);
      GrowsTransitively(s, s0, AtDispatch(s), j, late);
    }
  }

  lemma RefuseCalls(s: State, now: int, prep: Preparation, j: JobId, late: bool)
    requires s.worker.Looping? && s.worker.batch != [] && PickAgrees(s, s.worker.batch[0])
    requires s.worker.batch[0].row.blob in s.blobs && s.worker.batch[0].row.status != Retrying
    ensures Quiet(s, Begin(s, now, false, prep), j, late) && (CallsBounded(s, j) ==> CallsBounded(Begin(s, now, false, prep), j))
  {
    hide Calls, Recoveries, Grows, WriteJob, Dispatch, ValidateTransition;
    var p, s0 := s.worker.batch[0], s.(worker := Looping(s.worker.batch[1..]));
    SameLogQuiet(s, s0, j, late);
    SameLogQuiet(s, s.(worker := Idle), j, late);
    RenewalEdges(p.row.status, BlockedByBudget);
    if p.row.status == Pending {
      QuietWrite(s0, p.id, s.jobs[p.id].(status := BlockedByBudget), j, late);
      GrowsTransitively(s, s0, SetStatus(s0, p.id, BlockedByBudget), j, late);
    }
  }

  lemma MarkCalls(s: State, k: JobId, now: int, j: JobId, late: bool)
    requires k < |s.jobs| && s.jobs[k].status == InProgress
    ensures Quiet(s, MarkSucceeded(s, k, now), j, late)
  {
    hide Calls, Recoveries, Note, WriteJob;
    var row := s.jobs[k].(status := Succeeded, heartbeatAt := Some(now));
    QuietWrite(s, k, row, j, late);
    NoteGrows(WriteJob(s, k, row), Committed, k, j, late);
  }

  lemma QuietTransitively(s: State, t: State, r: State, j: JobId, late: bool)
    requires Quiet(s, t, j, late) && Quiet(t, r, j, late)
    ensures Quiet(s, r, j, late)
  {
  }

  lemma ThrowCalls(s: State, now: int, committed: bool, e: Failure, j: JobId, late: bool)
    requires s.worker.Executing? && WorkerAgrees(s)
    ensures var r := ThrowCall(s, now, committed, e);
            Quiet(s, r, j, late) && !Unstarted(r, s.worker.current.id)
  {
    ThrowEnds(s, now, committed, e);
    var p := s.worker.current;
    var s0 := s.(worker := Looping(s.worker.rest));
    SameLogQuiet(s, s0, j, late);
    hide Quiet, HandleError, Unstarted;
    var s1 := if committed then Note(Note(s0, Committed, p.id), CommitLost, p.id) else s0;
    LostQuiet(s0, p.id, committed, j, late);
    QuietHandleError(s1, p.id, p.row, now, e, j, late);
    QuietTransitively(s, s0, s1, j, late);
    QuietTransitively(s, s1, ThrowCall(s, now, committed, e), j, late);
  }

  lemma ThrowEnds(s: State, now: int, committed: bool, e: Failure)
    requires s.worker.Executing? && WorkerAgrees(s)
    ensures !Unstarted(ThrowCall(s, now, committed, e), s.worker.current.id)
  {
  }

  lemma ConfirmCalls(s: State, now: int, j: JobId, late: bool)
    requires s.worker.Executing? && WorkerAgrees(s)
    ensures Quiet(s, Confirm(s, now), j, late) && !Unstarted(Confirm(s, now), s.worker.current.id)
  {
    var s0 := s.(worker := Confirming(s.worker.current, s.worker.rest));
    SameLogQuiet(s, s0, j, late);
    MarkCalls(s0, s.worker.current.id, now, j, late);
    hide Quiet, MarkSucceeded;
    QuietTransitively(s, s0, Confirm(s, now), j, late);
  }

  lemma AdvanceQuiet(s: State, x: BlobId, progress: BlobProgress, j: JobId, late: bool)
    ensures Quiet(s, Advance(s, x, progress), j, late) && Advance(s, x, progress).jobs == s.jobs
  {
    SameLogQuiet(s, Advance(s, x, progress), j, late);
  }

  /** Only a late failure of the row itself writes over its success. */
  lemma CloseCalls(s: State, now: int, closing: Closing, j: JobId, late: bool)
    requires s.worker.Confirming? && WorkerAgrees(s) && (closing.LateThrew? && s.worker.current.id == j ==> late)
    ensures var r := Close(s, now, closing);
            && Quiet(s, r, j, late) && !Unstarted(r, s.worker.current.id)
            && (closing.LateThrew? ==> exists w :: w in r.log && WroteOver(w, s.worker.current.id, Succeeded))
  {
    var p, x := s.worker.current, s.jobs[s.worker.current.id].blob;
    var s0 := s.(worker := Looping(s.worker.rest));
    SameLogQuiet(s, s0, j, late);
    hide Quiet, HandleError, Advance;
    match closing
    case Completed(applies) =>
      AdvanceQuiet(s0, x, Onward(applies), j, late);
      QuietTransitively(s, s0, Close(s, now, closing), j, late);
    case LateThrew(progress, e) =>
      AdvanceQuiet(s0, x, progress, j, late);
      var s1 := Advance(s0, x, progress);
      NoteQuiet(s1, CommitLost, p.id, j, late);
      var s2 := Note(s1, CommitLost, p.id);
      QuietHandleError(s2, p.id, p.row, now, e, j, late);
      QuietTransitively(s, s0, s1, j, late);
      QuietTransitively(s, s1, s2, j, late);
      QuietTransitively(s, s2, Close(s, now, closing), j, late);
  }

  predicate WroteOver(e: Event, j: JobId, source: RenewalStatus) {
    e.kind.Wrote? && e.job == j && e.kind.source == source
  }

  lemma NoteQuiet(s: State, kind: EventKind, k: JobId, j: JobId, late: bool)
    requires k < |s.jobs| && (kind.Committed? || kind.CommitLost? || kind.Crashed?)
    ensures Quiet(s, Note(s, kind, k), j, late) && Note(s, kind, k).jobs == s.jobs
  {
    NoteGrows(s, kind, k, j, late);
  }

  lemma LostQuiet(s: State, k: JobId, committed: bool, j: JobId, late: bool)
    requires k < |s.jobs|
    ensures var s1 := if committed then Note(Note(s, Committed, k), CommitLost, k) else s;
            Quiet(s, s1, j, late) && s1.jobs == s.jobs
  {
    hide Calls, Recoveries, Grows;
    NoteQuiet(s, Committed, k, j, late);
    NoteQuiet(Note(s, Committed, k), CommitLost, k, j, late);
    SameLogQuiet(s, s, j, late);
    GrowsTransitively(s, s, s, j, late);
    if committed {
      GrowsTransitively(s, Note(s, Committed, k), Note(Note(s, Committed, k), CommitLost, k), j, late);
    }
  }

  lemma CrashCalls(s: State, at: CrashPoint, j: JobId, late: bool)
    requires WorkerAgrees(s) && Enabled(s, CrashWorker(at))
    ensures Quiet(s, Crash(s, at), j, late)
    ensures CallsBounded(s, j) ==> CallsBounded(Crash(s, at), j)
  {
    hide Calls, Recoveries, Advance;
    var s0 := s.(worker := Idle);
    SameLogQuiet(s, s0, j, late);
    match at
    case BetweenJobs =>
    case InFlight(_) =>
      var k := s.worker.current.id;
      NoteGrows(s0, Crashed, k, j, late);
      NoteGrows(Note(s0, Crashed, k), Committed, k, j, late);
    case AfterRowSucceeded(progress) =>
      var k, x := s.worker.current.id, s.jobs[s.worker.current.id].blob;
      AdvanceQuiet(s0, x, progress, j, late);
      NoteGrows(Advance(s0, x, progress), Crashed, k, j, late);
  }

  lemma EnqueueCalls(s: State, rec: JobRecord, existing: Option<JobId>, now: int, j: JobId, late: bool)
    requires Enabled(s, EnqueueJob(rec, existing, now))
    ensures Quiet(s, Enqueue(s, rec, existing, now), j, late)
    ensures forall k :: 0 <= k < |s.jobs| ==> Enqueue(s, rec, existing, now).jobs[k].status == s.jobs[k].status
  {
    var r := Enqueue(s, rec, existing, now);
    if r.log == s.log {
      SameLogQuiet(s, r, j, late);
    } else {
      AppendGrows(s, Event(InsertedBeside, |s.jobs|, rec.blob), j, late);
      SameLogQuiet(s.(log := r.log), r, j, late);
    }
  }

  /** A row not yet inserted has no executor call; otherwise the bound holds. */
  ghost predicate RowHistory(s: State, j: JobId) {
    CallsBounded(s, j) && (j >= |s.jobs| ==> Calls(s, j) == 0)
  }

  /** The foreign key: rows belong to registered blobs. */
  ghost predicate Registered(s: State) {
    forall k :: 0 <= k < |s.jobs| ==> s.jobs[k].blob in s.blobs
  }

  lemma RegisteredStep(s: State, step: Step)
    requires Registered(s) && Enabled(s, step)
    ensures Registered(Apply(s, step))
  {
    hide Begin, ThrowCall, Confirm, Close, Crash, RecoverFirst;
    match step
    case StartBatch(now, ids) => RecoverKeepsShape(s, now, |s.jobs|);
    case _ =>
  }

  lemma StepHistory(s: State, step: Step, j: JobId, late: bool)
    requires WorkerAgrees(s) && Registered(s) && Enabled(s, step) && RowHistory(s, j)
    requires FailsLate(s, step, j) ==> late
    ensures RowHistory(Apply(s, step), j) && Grows(s, Apply(s, step), j, late)
  {
    hide Calls, Recoveries, RecoverFirst, Begin, ThrowCall, Confirm, Close, Crash, Enqueue, Grows, IsBatch;
    match step
    case StartBatch(now, ids) =>
      RecoverCalls(s, now, |s.jobs|, j, late);
      var s1 := RecoverFirst(s, now, |s.jobs|);
      SameLogQuiet(s1, Apply(s, step), j, late);
      GrowsTransitively(s, s1, Apply(s, step), j, late);
    case BeginJob(now, allowed, prep) =>
      assert PickAgrees(s, s.worker.batch[0]);
      BeginCalls(s, now, allowed, prep, j, late);
    case ThrowJob(now, committed, e) => ThrowCalls(s, now, committed, e, j, late);
    case ConfirmJob(now) => ConfirmCalls(s, now, j, late);
    case CloseJob(now, closing) => CloseCalls(s, now, closing, j, late);
    case CrashWorker(at) => CrashCalls(s, at, j, late);
    case EnqueueJob(rec, existing, now) => EnqueueCalls(s, rec, existing, now, j, late); EnqueueLength(s, rec, existing, now);
    case ChangeBlob(_, _) => SameLogQuiet(s, Apply(s, step), j, late);
  }

  lemma EnqueueLength(s: State, rec: JobRecord, existing: Option<JobId>, now: int)
    requires Enabled(s, EnqueueJob(rec, existing, now))
    ensures |s.jobs| <= |Enqueue(s, rec, existing, now).jobs|
    ensures |s.jobs| < |Enqueue(s, rec, existing, now).jobs| ==>
              Enqueue(s, rec, existing, now).jobs[|s.jobs|].status in {Estimated, Pending}
  {
  }

  lemma {:induction false} RunRegistered(states: seq<State>, steps: seq<Step>, i: nat)
    requires IsRun(states, steps) && i < |states|
    ensures Registered(states[i])
  {
    hide Enabled, Apply, Registered;
    if i > 0 {
      RunRegistered(states, steps, i - 1);
      RegisteredStep(states[i - 1], steps[i - 1]);
    } else {
      NoRowsRegistered(states[0]);
    }
  }

  lemma NoRowsRegistered(s: State)
    ensures s.jobs == [] ==> Registered(s)
  {
  }

  lemma {:induction false} RunHistory(states: seq<State>, steps: seq<Step>, i: nat, j: JobId)
    requires IsRun(states, steps) && i < |states|
    ensures RowHistory(states[i], j)
  {
    hide Enabled, Apply, Grows, WorkerAgrees, Registered, FailsLate;
    if i > 0 {
      RunHistory(states, steps, i - 1, j);
      RunKeeps(states, steps, 0, i - 1);
      RunRegistered(states, steps, i - 1);
      StepHistory(states[i - 1], steps[i - 1], j, true);
    }
  }

  ghost predicate FailedLate(states: seq<State>, steps: seq<Step>, i: nat, j: JobId)
    requires i <= |steps| <= |states|
  {
    exists k :: 0 <= k < i && FailsLate(states[k], steps[k], j)
  }

  ghost predicate OverwroteTerminal(log: seq<Event>, j: JobId) {
    exists e :: e in log && e.kind.Wrote? && e.job == j && RenewalTerminal(e.kind.source)
  }

  lemma {:induction false} RunLog(states: seq<State>, steps: seq<Step>, i: nat, j: JobId)
    requires IsRun(states, steps) && i < |states|
    ensures LogPermitted(states[i].log, j, FailedLate(states, steps, i, j))
    ensures FailedLate(states, steps, i, j) ==> OverwroteTerminal(states[i].log, j)
  {
    hide Enabled, Apply, WorkerAgrees, RenewalTerminal, Registered, FailsLate;
    if i > 0 {
      RunLog(states, steps, i - 1, j);
      RunKeeps(states, steps, 0, i - 1);
      RunRegistered(states, steps, i - 1);
      RunHistory(states, steps, i - 1, j);
      StepHistory(states[i - 1], steps[i - 1], j, FailedLate(states, steps, i, j));
      if FailsLate(states[i - 1], steps[i - 1], j) {
        LateOverwrites(states[i - 1], steps[i - 1], j);
      }
    }
  }

  lemma LateOverwrites(s: State, step: Step, j: JobId)
    requires WorkerAgrees(s) && Enabled(s, step) && FailsLate(s, step, j)
    ensures OverwroteTerminal(Apply(s, step).log, j)
  {
    CloseCalls(s, step.now, step.closing, j, true);
    TerminalExactly(Succeeded);
  }

  /** A row is executed once, plus once for each stale recovery of that row. */
  lemma CallsPerJobBounded(states: seq<State>, steps: seq<Step>, i: nat, j: JobId)
    requires IsRun(states, steps) && i < |states|
    ensures CountJobLog(states[i].log, Called, j) <= 1 + CountJobLog(states[i].log, EventKind.Recovered, j)
    ensures j < |states[i].jobs| && states[i].jobs[j].status in {Estimated, Pending} ==>
              CountJobLog(states[i].log, Called, j) <= CountJobLog(states[i].log, EventKind.Recovered, j)
  {
    RunHistory(states, steps, i, j);
  }

  lemma OffMachineExactly(source: RenewalStatus, target: RenewalStatus)
    requires Permitted(source, target, true)
    ensures ValidateTransition(RENEWAL, source, target).Ok? <==> !OffMachine(source, target)
  {
    RenewalEdges(source, target);
    hide ValidateTransition, RENEWAL;
  }

  /** Every status write of a run is a registered edge or one of the listed exceptions, never both. */
  lemma WritesFollowMachine(states: seq<State>, steps: seq<Step>, i: nat, e: Event)
    requires IsRun(states, steps) && i < |states|
    requires e in states[i].log && e.kind.Wrote?
    ensures ValidateTransition(RENEWAL, e.kind.source, e.kind.target).Ok? || OffMachine(e.kind.source, e.kind.target)
    ensures !(ValidateTransition(RENEWAL, e.kind.source, e.kind.target).Ok? && OffMachine(e.kind.source, e.kind.target))
  {
    hide IsRun, ValidateTransition;
    RunLog(states, steps, i, e.job + 1);
    OffMachineExactly(e.kind.source, e.kind.target);
  }

  /** A terminal status of a row is written over in a run exactly when the row's try block fails late. */
  lemma TerminalOverwrittenExactlyByLateFailure(states: seq<State>, steps: seq<Step>, i: nat, j: JobId)
    requires IsRun(states, steps) && i < |states|
    ensures OverwroteTerminal(states[i].log, j) <==> FailedLate(states, steps, i, j)
  {
    RunLog(states, steps, i, j);
    hide IsRun, RenewalTerminal, FailedLate;
    if OverwroteTerminal(states[i].log, j) {
      var e :| e in states[i].log && e.kind.Wrote? && e.job == j && RenewalTerminal(e.kind.source);
      TerminalExactly(e.kind.source);
    }
  }
}
