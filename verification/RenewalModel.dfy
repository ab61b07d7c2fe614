/**
 The renewal queue as a state machine over database rows.

 `renewal_jobs` is an append-only sequence (a row's id is its index), `blob_registrations`
 is a map. One worker runs `processRenewalQueue`; an iteration of its loop is cut where it
 waits for the chain and again between the success updates of job row and blob row, so other
 writers (enqueue, blob lifecycle) may act, and the worker may die, at either point. Every
 status write and executor outcome is appended to `log`, which exists only to state
 properties of whole runs.

 `unique` says whether migration 0022 is in place, which makes the blob of an in-progress row
 unique; the schema file does not declare that index. Results hold for both unless they say so.
 */
module RenewalModel {
  import opened Common
  import opened StateMachines

  type JobId = nat
  type BlobId(==,!new) = nat

  datatype Job = Job(
    blob: BlobId,
    status: RenewalStatus,
    attempt: nat,
    maxAttempts: nat,
    priority: int,
    scheduledFor: Option<int>,
    createdAt: int,
    startedAt: Option<int>,
    heartbeatAt: Option<int>)

  datatype EventKind =
    | Wrote(source: RenewalStatus, target: RenewalStatus)  // a status UPDATE on the row
    | Called          // the executor was called for the row
    | Committed       // that call's transaction took effect on chain
    | CommitLost      // the transaction took effect, but the row did not end as succeeded
    | Recovered       // stale-job recovery reset the row
    | Crashed         // the worker died holding the row
    | InsertedBeside  // a row was inserted while another row of the blob was in progress or being closed

  datatype Event = Event(kind: EventKind, job: JobId, blob: BlobId)

  /** A row as the batch SELECT returned it; the loop keeps using this copy. */
  datatype Picked = Picked(id: JobId, row: Job)

  datatype Worker =
    | Idle
    | Looping(batch: seq<Picked>)
    | Executing(current: Picked, rest: seq<Picked>)
    | Confirming(current: Picked, rest: seq<Picked>)  // row set to succeeded, try block not yet left

  datatype State = State(jobs: seq<Job>, blobs: map<BlobId, BlobStatus>, worker: Worker, log: seq<Event>, unique: bool)

  const STALE_JOB_THRESHOLD_MS := 600_000
  const BATCH_LIMIT := 20
  const DEFAULT_MAX_ATTEMPTS := 5

  // ---------- Single-row updates ----------

  function Note(s: State, kind: EventKind, j: JobId): State
    requires j < |s.jobs|
  {
    s.(log := s.log + [Event(kind, j, s.jobs[j].blob)])
  }

  /** From `s` to `r` at most row `j` changed, and not its blob. */
  ghost predicate OnlyRow(s: State, r: State, j: JobId) {
    && |r.jobs| == |s.jobs|
    && (forall k :: 0 <= k < |s.jobs| && k != j ==> r.jobs[k] == s.jobs[k])
    && (j < |s.jobs| ==> r.jobs[j].blob == s.jobs[j].blob)
  }

  /** `UPDATE renewal_jobs SET ... WHERE id = j`; `row` is the row after the update. */
  function WriteJob(s: State, j: JobId, row: Job): State
    requires j < |s.jobs| && row.blob == s.jobs[j].blob
  {
    s.(jobs := s.jobs[j := row], log := s.log + [Event(Wrote(s.jobs[j].status, row.status), j, row.blob)])
  }

  function SetStatus(s: State, j: JobId, st: RenewalStatus): State
    requires j < |s.jobs|
  {
    WriteJob(s, j, s.jobs[j].(status := st))
  }

  /** `UPDATE blob_registrations SET status = target WHERE id = b AND status = source`. */
  function MoveBlob(s: State, b: BlobId, source: BlobStatus, target: BlobStatus): (r: State)
    ensures r.blobs.Keys == s.blobs.Keys
  {
    if b in s.blobs && s.blobs[b] == source then s.(blobs := s.blobs[b := target]) else s
  }

  // ---------- Stale-job recovery ----------

  predicate Stale(row: Job, now: int) {
    && row.status == InProgress
    && match row.heartbeatAt
       case Some(h) => h < now - STALE_JOB_THRESHOLD_MS
       case None => row.startedAt.Some? && row.startedAt.value < now - STALE_JOB_THRESHOLD_MS
  }

  function RecoverRow(s: State, j: JobId): State
    requires j < |s.jobs|
  {
    var s1 := WriteJob(s, j, s.jobs[j].(status := Pending, attempt := s.jobs[j].attempt + 1));
    MoveBlob(Note(s1, EventKind.Recovered, j), s.jobs[j].blob, Renewing, Expiring)
  }

  /** Recovery of the stale rows among the first `n`. */
  function RecoverFirst(s: State, now: int, n: nat): (r: State)
    requires n <= |s.jobs|
    ensures |r.jobs| == |s.jobs| && r.worker == s.worker && r.unique == s.unique && r.blobs.Keys == s.blobs.Keys
    ensures forall k :: n <= k < |s.jobs| ==> r.jobs[k] == s.jobs[k]
  {
    if n == 0 then s
    else
      var t := RecoverFirst(s, now, n - 1);
      if Stale(t.jobs[n - 1], now) then RecoverRow(t, n - 1) else t
  }

  // ---------- Batch selection ----------

  predicate Waiting(st: RenewalStatus) {
    st == Estimated || st == Pending || st == Retrying
  }

  predicate Due(row: Job, now: int) {
    Waiting(row.status) && (row.scheduledFor.None? || row.scheduledFor.value <= now)
  }

  /** `ORDER BY priority ASC, scheduled_for ASC NULLS FIRST, created_at ASC`: `a` may precede `b`. */
  predicate MayPrecede(a: Job, b: Job) {
    || a.priority < b.priority
    || (a.priority == b.priority &&
        match (a.scheduledFor, b.scheduledFor)
        case (None, Some(_)) => true
        case (Some(_), None) => false
        case (Some(x), Some(y)) => x < y || (x == y && a.createdAt <= b.createdAt)
        case (None, None) => a.createdAt <= b.createdAt)
  }

  /** `ids` is a result the batch SELECT may return (ties may come back in any order). */
  ghost predicate IsBatch(jobs: seq<Job>, now: int, ids: seq<JobId>) {
    && |ids| <= BATCH_LIMIT
    && (forall k :: 0 <= k < |ids| ==> ids[k] < |jobs| && Due(jobs[ids[k]], now))
    && (forall k, l :: 0 <= k < l < |ids| ==> ids[k] != ids[l] && MayPrecede(jobs[ids[k]], jobs[ids[l]]))
    && (forall j :: 0 <= j < |jobs| && Due(jobs[j], now) && j !in ids ==>
          |ids| == BATCH_LIMIT && forall k :: 0 <= k < |ids| ==> MayPrecede(jobs[ids[k]], jobs[j]))
  }

  function PickRows(jobs: seq<Job>, ids: seq<JobId>): (r: seq<Picked>)
    requires forall k :: 0 <= k < |ids| ==> ids[k] < |jobs|
  {
    seq(|ids|, k requires 0 <= k < |ids| => Picked(ids[k], jobs[ids[k]]))
  }

  // ---------- One loop iteration, up to the executor call ----------

  /** How an exception is classified, and the delay `now + jitter` a retry would get. */
  datatype Failure = Failure(retryable: bool, jitter: nat)

  /** What the checks between the lock and the executor call find. */
  datatype Preparation = Ready | PolicyDisabled | VaultMissing | NoPublisher | PrepareThrew(failure: Failure)

  predicate OtherRow(jobs: seq<Job>, id: JobId, b: BlobId, st: RenewalStatus) {
    exists k :: 0 <= k < |jobs| && k != id && jobs[k].blob == b && jobs[k].status == st
  }

  function MaxAttempts(row: Job): nat {
    if row.maxAttempts == 0 then DEFAULT_MAX_ATTEMPTS else row.maxAttempts
  }

  /** The catch block: `snap` is the batch copy of the row, so its attempt counter may be out of date. */
  function HandleError(s: State, j: JobId, snap: Job, now: int, e: Failure): (r: State)
    requires j < |s.jobs|
    ensures OnlyRow(s, r, j) && r.worker == s.worker && r.unique == s.unique && r.blobs.Keys == s.blobs.Keys
  {
    var attempt := snap.attempt + 1;
    if e.retryable && attempt < MaxAttempts(snap) then
      WriteJob(s, j, s.jobs[j].(status := Retrying, attempt := attempt, scheduledFor := Some(now + e.jitter)))
    else
      WriteJob(MoveBlob(s, s.jobs[j].blob, Renewing, Expiring), j, s.jobs[j].(status := FailedFinal, attempt := attempt))
  }

  /** After the row is locked: blob to renewing, then policy, vault and publisher checks. */
  function Prepare(s: State, p: Picked, rest: seq<Picked>, now: int, prep: Preparation): (r: State)
    requires p.id < |s.jobs|
    ensures OnlyRow(s, r, p.id) && r.unique == s.unique && r.blobs.Keys == s.blobs.Keys
    ensures r.worker == s.worker || (r.worker == Executing(p, rest) && r.jobs[p.id] == s.jobs[p.id])
  {
    var b := s.jobs[p.id].blob;
    var s1 := MoveBlob(s, b, Expiring, Renewing);
    match prep
    case Ready => Note(s1, Called, p.id).(worker := Executing(p, rest))
    case PolicyDisabled => SetStatus(MoveBlob(s1, b, Renewing, Expiring), p.id, BlockedByBudget)
    case VaultMissing => SetStatus(MoveBlob(s1, b, Renewing, Expiring), p.id, FailedFinal)
    case NoPublisher => SetStatus(MoveBlob(s1, b, Renewing, Expiring), p.id, FailedFinal)
    case PrepareThrew(e) => HandleError(s1, p.id, p.row, now, e)
  }

  /** From the idempotency check on: finish, attach, lose the lock, or prepare. The index makes attaching throw. */
  function Dispatch(s: State, p: Picked, rest: seq<Picked>, now: int, prep: Preparation): (r: State)
    requires p.id < |s.jobs|
    ensures OnlyRow(s, r, p.id) && r.unique == s.unique && r.blobs.Keys == s.blobs.Keys
    ensures r.worker == s.worker || r.worker == Idle || (r.worker == Executing(p, rest) && r.jobs[p.id].status == InProgress)
  {
    var row := s.jobs[p.id];
    if OtherRow(s.jobs, p.id, row.blob, Succeeded) then SetStatus(s, p.id, Succeeded)
    else if OtherRow(s.jobs, p.id, row.blob, InProgress) then
      if s.unique then s.(worker := Idle) else WriteJob(s, p.id, row.(status := InProgress, startedAt := Some(now)))
    else if row.status != Pending then s
    else
      Prepare(WriteJob(s, p.id, row.(status := InProgress, startedAt := Some(now), heartbeatAt := Some(now))),
              p, rest, now, prep)
  }

  /** The budget refuses: `validateTransition('renewal', job.status, 'blocked_by_budget')` throws for an estimated row. */
  function Refuse(s: State, p: Picked): (r: State)
    requires p.id < |s.jobs|
    ensures OnlyRow(s, r, p.id) && r.unique == s.unique && r.blobs == s.blobs
    ensures r.worker == s.worker || r.worker == Idle
  {
    hide ValidateTransition;
    if ValidateTransition(RENEWAL, p.row.status, BlockedByBudget).Ok? then SetStatus(s, p.id, BlockedByBudget)
    else s.(worker := Idle)
  }

  function Begin(s: State, now: int, allowed: bool, prep: Preparation): (r: State)
    requires s.worker.Looping? && s.worker.batch != [] && s.worker.batch[0].id < |s.jobs|
    ensures OnlyRow(s, r, s.worker.batch[0].id) && r.unique == s.unique && r.blobs.Keys == s.blobs.Keys
    ensures || r.worker == Idle
            || r.worker == Looping(s.worker.batch[1..])
            || (r.worker == Executing(s.worker.batch[0], s.worker.batch[1..]) &&
                r.jobs[s.worker.batch[0].id].status == InProgress)
  {
    var p := s.worker.batch[0];
    var rest := s.worker.batch[1..];
    var s0 := s.(worker := Looping(rest));
    if p.row.status != Estimated && p.row.status != Pending then Dispatch(s0, p, rest, now, prep)
    else if s.jobs[p.id].blob !in s.blobs then SetStatus(s0, p.id, FailedFinal)
    else if !allowed then Refuse(s0, p)
    else
      Dispatch(if p.row.status == Estimated then SetStatus(s0, p.id, Pending) else s0, p, rest, now, prep)
  }

  // ---------- One loop iteration, after the executor call ----------

  function MarkSucceeded(s: State, j: JobId, now: int): State
    requires j < |s.jobs|
  {
    Note(WriteJob(s, j, s.jobs[j].(status := Succeeded, heartbeatAt := Some(now))), Committed, j)
  }

  /** The executor call threw; its transaction may have taken effect all the same. */
  function ThrowCall(s: State, now: int, committed: bool, e: Failure): (r: State)
    requires s.worker.Executing? && s.worker.current.id < |s.jobs|
    ensures OnlyRow(s, r, s.worker.current.id) && r.worker == Looping(s.worker.rest) && r.unique == s.unique && r.blobs.Keys == s.blobs.Keys
  {
    var p := s.worker.current;
    var s0 := s.(worker := Looping(s.worker.rest));
    HandleError(if committed then Note(Note(s0, Committed, p.id), CommitLost, p.id) else s0, p.id, p.row, now, e)
  }

  /** The executor call returned: the row is set to succeeded. */
  function Confirm(s: State, now: int): (r: State)
    requires s.worker.Executing? && s.worker.current.id < |s.jobs|
    ensures OnlyRow(s, r, s.worker.current.id) && r.worker == Confirming(s.worker.current, s.worker.rest) && r.unique == s.unique
    ensures r.jobs[s.worker.current.id].status == Succeeded && r.blobs == s.blobs
  {
    MarkSucceeded(s.(worker := Confirming(s.worker.current, s.worker.rest)), s.worker.current.id, now)
  }

  /** How far the blob row has been moved. */
  datatype BlobProgress = NotMoved | ToRenewed | Onward(policyApplies: bool)

  /** `renewing -> renewed`, then at once on to tracked or protected. */
  function Advance(s: State, b: BlobId, progress: BlobProgress): (r: State)
    ensures r.blobs.Keys == s.blobs.Keys
  {
    match progress
    case NotMoved => s
    case ToRenewed => MoveBlob(s, b, Renewing, Renewed)
    case Onward(applies) => MoveBlob(MoveBlob(s, b, Renewing, Renewed), b, Renewed, if applies then Protected else Tracked)
  }

  /** The rest of the try block runs through, or one of its statements throws. */
  datatype Closing = Completed(policyApplies: bool) | LateThrew(progress: BlobProgress, failure: Failure)

  function Close(s: State, now: int, closing: Closing): (r: State)
    requires s.worker.Confirming? && s.worker.current.id < |s.jobs|
    ensures OnlyRow(s, r, s.worker.current.id) && r.worker == Looping(s.worker.rest) && r.unique == s.unique && r.blobs.Keys == s.blobs.Keys
  {
    var p := s.worker.current;
    var b := s.jobs[p.id].blob;
    var s0 := s.(worker := Looping(s.worker.rest));
    match closing
    case Completed(applies) => Advance(s0, b, Onward(applies))
    case LateThrew(progress, e) => HandleError(Note(Advance(s0, b, progress), CommitLost, p.id), p.id, p.row, now, e)
  }

  // ---------- Crash, enqueue, blob lifecycle ----------

  datatype CrashPoint =
    | BetweenJobs
    | InFlight(committed: bool)
    | AfterRowSucceeded(progress: BlobProgress)  // the row is marked succeeded, the blob moved so far or not at all

  predicate CrashFits(w: Worker, at: CrashPoint) {
    match at
    case BetweenJobs => w.Idle? || w.Looping?
    case InFlight(_) => w.Executing?
    case AfterRowSucceeded(_) => w.Confirming?
  }

  function Crash(s: State, at: CrashPoint): (r: State)
    requires CrashFits(s.worker, at)
    requires s.worker.Executing? || s.worker.Confirming? ==> s.worker.current.id < |s.jobs|
    ensures r.jobs == s.jobs && r.worker == Idle && r.unique == s.unique && r.blobs.Keys == s.blobs.Keys
  {
    var s0 := s.(worker := Idle);
    match at
    case BetweenJobs => s0
    case InFlight(committed) =>
      var s1 := Note(s0, Crashed, s.worker.current.id);
      if committed then Note(s1, Committed, s.worker.current.id) else s1
    case AfterRowSucceeded(progress) =>
      Note(Advance(s0, s.jobs[s.worker.current.id].blob, progress), Crashed, s.worker.current.id)
  }

  datatype JobRecord = JobRecord(
    blob: BlobId, status: RenewalStatus, attempt: nat, maxAttempts: nat, priority: int, scheduledFor: Option<int>)

  /** The row the check-then-upsert SELECT returns: a waiting row of the blob with the latest `created_at`. */
  ghost predicate IsExisting(jobs: seq<Job>, b: BlobId, existing: Option<JobId>) {
    match existing
    case None => forall k :: 0 <= k < |jobs| ==> !(jobs[k].blob == b && Waiting(jobs[k].status))
    case Some(j) =>
      && j < |jobs| && jobs[j].blob == b && Waiting(jobs[j].status)
      && forall k :: 0 <= k < |jobs| && jobs[k].blob == b && Waiting(jobs[k].status) ==>
           jobs[k].createdAt <= jobs[j].createdAt
  }

  function NewRow(rec: JobRecord, now: int): Job {
    Job(rec.blob, rec.status, rec.attempt, rec.maxAttempts, rec.priority, rec.scheduledFor, now, None, None)
  }

  function Refresh(row: Job, rec: JobRecord): Job {
    row.(attempt := rec.attempt, maxAttempts := rec.maxAttempts,
         scheduledFor := if rec.scheduledFor.Some? then rec.scheduledFor else row.scheduledFor)
  }

  /** Another row of the blob is in progress, or its success is being recorded. */
  predicate Beside(s: State, b: BlobId) {
    || (exists k :: 0 <= k < |s.jobs| && s.jobs[k].blob == b && s.jobs[k].status == InProgress)
    || (s.worker.Confirming? && s.worker.current.row.blob == b)
  }

  function Insert(s: State, rec: JobRecord, now: int): State {
    s.(jobs := s.jobs + [NewRow(rec, now)],
       log := if Beside(s, rec.blob) then s.log + [Event(InsertedBeside, |s.jobs|, rec.blob)] else s.log)
  }

  function Enqueue(s: State, rec: JobRecord, existing: Option<JobId>, now: int): State
    requires existing.Some? ==> existing.value < |s.jobs|
  {
    match existing
    case Some(j) => s.(jobs := s.jobs[j := Refresh(s.jobs[j], rec)])
    case None => Insert(s, rec, now)
  }

  // ---------- Runs ----------

  datatype Step =
    | StartBatch(now: int, ids: seq<JobId>)
    | BeginJob(now: int, allowed: bool, prep: Preparation)
    | ThrowJob(now: int, committed: bool, failure: Failure)
    | ConfirmJob(now: int)
    | CloseJob(now: int, closing: Closing)
    | CrashWorker(at: CrashPoint)
    | EnqueueJob(rec: JobRecord, existing: Option<JobId>, now: int)
    | ChangeBlob(blob: BlobId, status: BlobStatus)  // another component; only the queue sets `renewing`

  ghost predicate Enabled(s: State, step: Step) {
    match step
    case StartBatch(now, ids) =>
      (s.worker.Idle? || s.worker == Looping([])) && IsBatch(RecoverFirst(s, now, |s.jobs|).jobs, now, ids)
    case BeginJob(_, _, _) => s.worker.Looping? && s.worker.batch != [] && s.worker.batch[0].id < |s.jobs|
    case ThrowJob(_, _, _) => s.worker.Executing? && s.worker.current.id < |s.jobs|
    case ConfirmJob(_) => s.worker.Executing? && s.worker.current.id < |s.jobs|
    case CloseJob(_, _) => s.worker.Confirming? && s.worker.current.id < |s.jobs|
    case CrashWorker(at) =>
      CrashFits(s.worker, at) && (s.worker.Executing? || s.worker.Confirming? ==> s.worker.current.id < |s.jobs|)
    case EnqueueJob(rec, existing, _) =>  // the foreign key keeps rows to registered blobs
      (rec.status == Estimated || rec.status == Pending) && rec.blob in s.blobs && IsExisting(s.jobs, rec.blob, existing)
    case ChangeBlob(_, status) => status != Renewing
  }

  ghost function Apply(s: State, step: Step): State
    requires Enabled(s, step)
  {
    match step
    case StartBatch(now, ids) =>
      var s1 := RecoverFirst(s, now, |s.jobs|);
      s1.(worker := Looping(PickRows(s1.jobs, ids)))
    case BeginJob(now, allowed, prep) => Begin(s, now, allowed, prep)
    case ThrowJob(now, committed, e) => ThrowCall(s, now, committed, e)
    case ConfirmJob(now) => Confirm(s, now)
    case CloseJob(now, closing) => Close(s, now, closing)
    case CrashWorker(at) => Crash(s, at)
    case EnqueueJob(rec, existing, now) => Enqueue(s, rec, existing, now)
    case ChangeBlob(b, status) => s.(blobs := s.blobs[b := status])
  }

  ghost predicate Initial(s: State) {
    && s.jobs == [] && s.worker == Idle && s.log == []
    && forall b :: b in s.blobs ==> s.blobs[b] != Renewing
  }

  /** `states` are the states passed through when `steps` are performed in order. */
  ghost predicate IsRun(states: seq<State>, steps: seq<Step>) {
    && |states| == |steps| + 1
    && Initial(states[0])
    && forall i :: 0 <= i < |steps| ==> Enabled(states[i], steps[i]) && states[i + 1] == Apply(states[i], steps[i])
  }

  // ---------- One undisturbed poll ----------

  /** How an executor call and what follows it end. */
  datatype Outcome = CallThrew(committed: bool, failure: Failure) | CallReturned(closing: Closing)

  /** What the budget check, the preparations and the executor answer for one batch entry. */
  datatype Decision = Decision(allowed: bool, prep: Preparation, outcome: Outcome)

  /** An executor call in flight and the rest of its iteration, undisturbed. */
  function Finish(s: State, now: int, outcome: Outcome): (r: State)
    requires s.worker.Executing? && s.worker.current.id < |s.jobs|
    ensures |r.jobs| == |s.jobs| && r.worker == Looping(s.worker.rest)
  {
    match outcome
    case CallThrew(committed, e) => ThrowCall(s, now, committed, e)
    case CallReturned(closing) => Close(Confirm(s, now), now, closing)
  }

  function ProcessOne(s: State, now: int, d: Decision): (r: State)
    requires s.worker.Looping? && s.worker.batch != [] && s.worker.batch[0].id < |s.jobs|
    ensures |r.jobs| == |s.jobs|
    ensures r.worker == Idle || r.worker == Looping(s.worker.batch[1..])
  {
    var m := Begin(s, now, d.allowed, d.prep);
    if m.worker.Executing? then Finish(m, now, d.outcome) else m
  }

  /** The loop of `processRenewalQueue`: it stops early when an iteration throws. */
  function ProcessBatch(s: State, now: int, script: seq<Decision>): (r: State)
    requires s.worker.Looping? ==>
               |script| >= |s.worker.batch| && forall k :: 0 <= k < |s.worker.batch| ==> s.worker.batch[k].id < |s.jobs|
    decreases if s.worker.Looping? then |s.worker.batch| else 0
  {
    if s.worker.Looping? && s.worker.batch != [] then ProcessBatch(ProcessOne(s, now, script[0]), now, script[1..])
    else s
  }

  /** One poll: recover, select, loop. */
  ghost function Poll(s: State, now: int, ids: seq<JobId>, script: seq<Decision>): State
    requires Enabled(s, StartBatch(now, ids)) && |script| >= |ids|
  {
    ProcessBatch(Apply(s, StartBatch(now, ids)), now, script)
  }
}
