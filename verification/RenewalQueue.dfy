/** The renewal queue as the keeper runs it: rows updated in place by `processRenewalQueue` and `createRenewalJob`. */
module RenewalQueue {
  import opened Common
  import opened StateMachines
  import opened RenewalModel
  import opened RenewalTally
  import opened RenewalSafety
  import opened RenewalTheorems

  /** A stale row of `b` among the first `n`. */
  predicate StaleRowOf(jobs: seq<Job>, b: BlobId, now: int, n: nat)
    requires n <= |jobs|
  {
    exists k :: 0 <= k < n && jobs[k].blob == b && Stale(jobs[k], now)
  }

  lemma {:induction false} RecoverBlob(s: State, now: int, n: nat, b: BlobId)
    requires n <= |s.jobs| && b in s.blobs
    ensures RecoverFirst(s, now, n).blobs[b]
            == if s.blobs[b] == Renewing && StaleRowOf(s.jobs, b, now, n) then Expiring else s.blobs[b]
  {
    hide Stale, RecoverFirst;
    if n == 0 {
      RecoverNone(s, now);
    } else {
      RecoverBlob(s, now, n - 1, b);
      RecoverOneMore(s, now, n - 1);
      assert StaleRowOf(s.jobs, b, now, n)
             <==> StaleRowOf(s.jobs, b, now, n - 1) || (s.jobs[n - 1].blob == b && Stale(s.jobs[n - 1], now));
    }
  }

  /**
   Recovery resets exactly the stale rows, and moves back to `expiring` exactly the renewing
   blobs that own one.
   */
  lemma RecoverEffect(s: State, now: int, n: nat)
    requires n <= |s.jobs|
    ensures RowsReset(s, RecoverFirst(s, now, n), now, n)
    ensures forall b :: b in s.blobs ==>
              RecoverFirst(s, now, n).blobs[b]
              == if s.blobs[b] == Renewing && StaleRowOf(s.jobs, b, now, n) then Expiring else s.blobs[b]
  {
    hide StaleRowOf, RowsReset, RecoverFirst;
    RecoverRows(s, now, n);
    forall b | b in s.blobs
      ensures RecoverFirst(s, now, n).blobs[b]
              == if s.blobs[b] == Renewing && StaleRowOf(s.jobs, b, now, n) then Expiring else s.blobs[b]
    {
      RecoverBlob(s, now, n, b);
    }
  }

  /** The renewing blobs among `moved` are expiring again. */
  ghost predicate MovedBack(from: map<BlobId, BlobStatus>, to: map<BlobId, BlobStatus>, moved: seq<BlobId>) {
    && to.Keys == from.Keys
    && forall b :: b in from ==> to[b] == if from[b] == Renewing && b in moved then Expiring else from[b]
  }

  lemma MovedOneMore(from: map<BlobId, BlobStatus>, to: map<BlobId, BlobStatus>, moved: seq<BlobId>, b: BlobId)
    requires MovedBack(from, to, moved)
    ensures MovedBack(from, if b in to && to[b] == Renewing then to[b := Expiring] else to, moved + [b])
  {
  }

  class Database {
    const unique: bool  // the index of migration 0022 is in place
    var jobs: seq<Job>
    var blobs: map<BlobId, BlobStatus>
    var worker: Worker
    ghost var log: seq<Event>

    ghost function View(): State
      reads this
    {
      State(jobs, blobs, worker, log, unique)
    }

    constructor (blobs: map<BlobId, BlobStatus>, unique: bool)
      requires forall b :: b in blobs ==> blobs[b] != Renewing
      ensures Initial(View()) && this.blobs == blobs && this.unique == unique
    {
      this.unique := unique;
      this.jobs, this.blobs, this.worker, this.log := [], blobs, Idle, [];
    }

    method UpdateJob(j: JobId, row: Job)
      requires j < |jobs| && row.blob == jobs[j].blob
      modifies this`jobs, this`log
      ensures View() == WriteJob(old(View()), j, row)
    {
      log := log + [Event(Wrote(jobs[j].status, row.status), j, row.blob)];
      jobs := jobs[j := row];
    }

    method UpdateBlob(b: BlobId, source: BlobStatus, target: BlobStatus)
      modifies this`blobs
      ensures View() == MoveBlob(old(View()), b, source, target)
    {
      if b in blobs && blobs[b] == source {
        blobs := blobs[b := target];
      }
    }

    /** The UPDATE of every stale row; returns the blobs of the recovered rows. */
    method ResetStaleRows(now: int) returns (recovered: seq<BlobId>)
      modifies this`jobs, this`log
      ensures jobs == RecoverFirst(old(View()), now, |old(jobs)|).jobs
      ensures log == RecoverFirst(old(View()), now, |old(jobs)|).log
      ensures forall b :: b in recovered <==> StaleRowOf(old(jobs), b, now, |old(jobs)|)
    {
      hide RecoverFirst, Stale;
      ghost var s := View();
      recovered := [];
      RecoverNone(s, now);
      for k := 0 to |jobs|
        invariant |jobs| == |s.jobs| && jobs[k..] == s.jobs[k..]
        invariant jobs == RecoverFirst(s, now, k).jobs && log == RecoverFirst(s, now, k).log
        invariant forall b :: b in recovered <==> StaleRowOf(s.jobs, b, now, k)
      {
        RecoverOneMore(s, now, k);
        assert jobs[k] == s.jobs[k];
        if Stale(jobs[k], now) {
          recovered := recovered + [jobs[k].blob];
          log := log + [Event(Wrote(jobs[k].status, Pending), k, jobs[k].blob)]
                 + [Event(EventKind.Recovered, k, jobs[k].blob)];
          jobs := jobs[k := jobs[k].(status := Pending, attempt := jobs[k].attempt + 1)];
        }
      }
    }

    /** The recovered rows, then one conditional UPDATE per recovered blob. */
    method RecoverStaleInProgressJobs(now: int)
      modifies this`jobs, this`blobs, this`log
      ensures View() == RecoverFirst(old(View()), now, |old(jobs)|)
    {
      hide RecoverFirst, StaleRowOf;
      ghost var s := View();
      var recovered := ResetStaleRows(now);
      RecoverEffect(s, now, |s.jobs|);
      for i := 0 to |recovered|
        invariant jobs == RecoverFirst(s, now, |s.jobs|).jobs && log == RecoverFirst(s, now, |s.jobs|).log
        invariant MovedBack(s.blobs, blobs, recovered[..i])
      {
        ghost var before := blobs;
        UpdateBlob(recovered[i], Renewing, Expiring);
        assert recovered[..i + 1] == recovered[..i] + [recovered[i]];
        MovedOneMore(s.blobs, before, recovered[..i], recovered[i]);
      }
      assert recovered[..|recovered|] == recovered;
      assert blobs == RecoverFirst(s, now, |s.jobs|).blobs;
    }

    /** The catch block. */
    method FailJob(j: JobId, snap: Job, now: int, e: Failure)
      requires j < |jobs|
      modifies this`jobs, this`blobs, this`log
      ensures View() == HandleError(old(View()), j, snap, now, e)
    {
      var attempt := snap.attempt + 1;
      if !e.retryable || attempt >= MaxAttempts(snap) {
        UpdateBlob(jobs[j].blob, Renewing, Expiring);
        UpdateJob(j, jobs[j].(status := FailedFinal, attempt := attempt));
      } else {
        UpdateJob(j, jobs[j].(status := Retrying, attempt := attempt, scheduledFor := Some(now + e.jitter)));
      }
    }

    /** An iteration up to the executor call, as straight-line code with early exits. */
    method BeginNext(now: int, allowed: bool, prep: Preparation)
      requires worker.Looping? && worker.batch != [] && worker.batch[0].id < |jobs|
      modifies this
      ensures View() == Begin(old(View()), now, allowed, prep)
    {
      var p, rest := worker.batch[0], worker.batch[1..];
      var j, b := p.id, jobs[p.id].blob;
      worker := Looping(rest);
      if p.row.status == Estimated || p.row.status == Pending {
        if b !in blobs {
          UpdateJob(j, jobs[j].(status := FailedFinal));
          return;
        }
        if !allowed {
          if ValidateTransition(RENEWAL, p.row.status, BlockedByBudget).Err? {
            worker := Idle;
            return;
          }
          UpdateJob(j, jobs[j].(status := BlockedByBudget));
          return;
        }
        if p.row.status == Estimated {
          UpdateJob(j, jobs[j].(status := Pending));
        }
      }
      DispatchNext(p, rest, now, prep);
    }

    method DispatchNext(p: Picked, rest: seq<Picked>, now: int, prep: Preparation)
      requires p.id < |jobs|
      modifies this
      ensures View() == Dispatch(old(View()), p, rest, now, prep)
    {
      var j, b := p.id, jobs[p.id].blob;
      if OtherRow(jobs, j, b, Succeeded) {
        UpdateJob(j, jobs[j].(status := Succeeded));
        return;
      }
      if OtherRow(jobs, j, b, InProgress) {
        if unique {
          worker := Idle;
          return;
        }
        UpdateJob(j, jobs[j].(status := InProgress, startedAt := Some(now)));
        return;
      }
      if jobs[j].status != Pending {
        return;
      }
      UpdateJob(j, jobs[j].(status := InProgress, startedAt := Some(now), heartbeatAt := Some(now)));
      UpdateBlob(b, Expiring, Renewing);
      match prep {
        case Ready =>
          log := log + [Event(Called, j, b)];
          worker := Executing(p, rest);
        case PolicyDisabled =>
          UpdateBlob(b, Renewing, Expiring);
          UpdateJob(j, jobs[j].(status := BlockedByBudget));
        case VaultMissing =>
          UpdateBlob(b, Renewing, Expiring);
          UpdateJob(j, jobs[j].(status := FailedFinal));
        case NoPublisher =>
          UpdateBlob(b, Renewing, Expiring);
          UpdateJob(j, jobs[j].(status := FailedFinal));
        case PrepareThrew(e) =>
          FailJob(j, p.row, now, e);
      }
    }

    method ThrowCurrent(now: int, committed: bool, e: Failure)
      requires worker.Executing? && worker.current.id < |jobs|
      modifies this
      ensures View() == ThrowCall(old(View()), now, committed, e)
    {
      var p, rest := worker.current, worker.rest;
      worker := Looping(rest);
      if committed {
        log := log + [Event(Committed, p.id, jobs[p.id].blob)] + [Event(CommitLost, p.id, jobs[p.id].blob)];
      }
      FailJob(p.id, p.row, now, e);
    }

    /** Heartbeat and `succeeded`. */
    method ConfirmCurrent(now: int)
      requires worker.Executing? && worker.current.id < |jobs|
      modifies this
      ensures View() == Confirm(old(View()), now)
    {
      var p, rest := worker.current, worker.rest;
      worker := Confirming(p, rest);
      UpdateJob(p.id, jobs[p.id].(status := Succeeded, heartbeatAt := Some(now)));
      log := log + [Event(Committed, p.id, jobs[p.id].blob)];
    }

    /** The blob updates that follow, or as many of them as run before a statement throws. */
    method CloseCurrent(now: int, closing: Closing)
      requires worker.Confirming? && worker.current.id < |jobs|
      modifies this
      ensures View() == Close(old(View()), now, closing)
    {
      var p, rest := worker.current, worker.rest;
      var b := jobs[p.id].blob;
      worker := Looping(rest);
      var progress := if closing.Completed? then Onward(closing.policyApplies) else closing.progress;
      if !progress.NotMoved? {
        UpdateBlob(b, Renewing, Renewed);
      }
      if progress.Onward? {
        UpdateBlob(b, Renewed, if progress.policyApplies then Protected else Tracked);
      }
      if closing.LateThrew? {
        log := log + [Event(CommitLost, p.id, b)];
        FailJob(p.id, p.row, now, closing.failure);
      }
    }

    /** The rest of the iteration, once the executor call has ended. */
    method FinishCurrent(now: int, outcome: Outcome)
      requires worker.Executing? && worker.current.id < |jobs|
      modifies this
      ensures View() == Finish(old(View()), now, outcome)
    {
      match outcome {
        case CallThrew(committed, e) =>
          ThrowCurrent(now, committed, e);
        case CallReturned(closing) =>
          ConfirmCurrent(now);
          CloseCurrent(now, closing);
      }
    }

    /** One undisturbed iteration. */
    method Iterate(now: int, d: Decision)
      requires worker.Looping? && worker.batch != [] && worker.batch[0].id < |jobs|
      modifies this
      ensures View() == ProcessOne(old(View()), now, d)
    {
      hide Begin, Finish;
      BeginNext(now, d.allowed, d.prep);
      if worker.Executing? {
        FinishCurrent(now, d.outcome);
      }
    }

    /** One poll with nothing else running; `ids` is what the batch SELECT returned. */
    method ProcessRenewalQueue(now: int, ids: seq<JobId>, script: seq<Decision>)
      requires Enabled(View(), StartBatch(now, ids)) && |script| >= |ids|
      modifies this
      ensures View() == Poll(old(View()), now, ids, script)
    {
      assert forall l :: 0 <= l < |ids| ==> ids[l] < |jobs|;
      hide Begin, Finish, RecoverFirst, IsBatch, Enabled, ProcessOne, PickRows;
      ghost var s := View();
      RecoverStaleInProgressJobs(now);
      worker := Looping(PickRows(jobs, ids));
      ghost var start := View();
      assert start == Apply(s, StartBatch(now, ids));
      var k := 0;
      while worker.Looping? && worker.batch != []
        invariant 0 <= k <= |ids| && !worker.Executing?
        invariant worker.Looping? ==>
                    && |worker.batch| == |ids| - k
                    && forall l :: 0 <= l < |worker.batch| ==> worker.batch[l].id < |jobs|
        invariant ProcessBatch(start, now, script) == ProcessBatch(View(), now, script[k..])
        decreases |ids| - k
      {
        Iterate(now, script[k]);
        assert script[k..][1..] == script[k + 1..];
        k := k + 1;
      }
    }

    /** The foreign key, and the index if there is one, refuse this INSERT. */
    predicate Refuses(rec: JobRecord)
      reads this
    {
      rec.blob !in blobs
      || (unique && rec.status == InProgress && exists k :: 0 <= k < |jobs| && jobs[k].blob == rec.blob && jobs[k].status == InProgress)
    }

    /** The INSERT: `None` when the database refuses it. */
    method InsertJob(rec: JobRecord, now: int) returns (id: Option<JobId>)
      modifies this`jobs, this`log
      ensures id == if old(Refuses(rec)) then None else Some(|old(jobs)|)
      ensures View() == if old(Refuses(rec)) then old(View()) else Insert(old(View()), rec, now)
    {
      if Refuses(rec) {
        return None;
      }
      id := Some(|jobs|);
      log := if Beside(View(), rec.blob) then log + [Event(InsertedBeside, |jobs|, rec.blob)] else log;
      jobs := jobs + [NewRow(rec, now)];
    }

    /**
     `createRenewalJob`: check, then update the existing row or insert. Returns the row's id,
     or `None` when the INSERT throws.
     */
    method CreateRenewalJob(rec: JobRecord, now: int) returns (id: Option<JobId>)
      modifies this`jobs, this`log
      ensures id.Some? ==> id.value < |jobs| && jobs[id.value].blob == rec.blob
      ensures rec.status in {Estimated, Pending} ==>
                exists existing: Option<JobId> :: IsExisting(old(jobs), rec.blob, existing)
                                   && (if existing.None? && old(Refuses(rec)) then id == None && View() == old(View())
                                       else View() == Enqueue(old(View()), rec, existing, now)
                                            && id == Some(if existing.Some? then existing.value else |old(jobs)|))
      ensures rec.status == Succeeded && (exists k :: 0 <= k < |old(jobs)| && old(jobs)[k].blob == rec.blob && old(jobs)[k].status == Succeeded)
              ==> View() == old(View()) && id.Some? && jobs[id.value].status == Succeeded
      ensures rec.status !in {Estimated, Pending, Succeeded}
              || (rec.status == Succeeded && forall k :: 0 <= k < |old(jobs)| && old(jobs)[k].blob == rec.blob ==> old(jobs)[k].status != Succeeded)
              ==> if old(Refuses(rec)) then id == None && View() == old(View())
                  else View() == Insert(old(View()), rec, now) && id == Some(|old(jobs)|)
    {
      var existing: Option<JobId> := None;
      if rec.status == Estimated || rec.status == Pending {
        for k := 0 to |jobs|
          invariant existing.None? ==> forall l :: 0 <= l < k ==> !(jobs[l].blob == rec.blob && Waiting(jobs[l].status))
          invariant existing.Some? ==>
                      && existing.value < k && jobs[existing.value].blob == rec.blob && Waiting(jobs[existing.value].status)
                      && forall l :: 0 <= l < k && jobs[l].blob == rec.blob && Waiting(jobs[l].status) ==>
                           jobs[l].createdAt <= jobs[existing.value].createdAt
        {
          if jobs[k].blob == rec.blob && Waiting(jobs[k].status)
             && (existing.None? || jobs[existing.value].createdAt <= jobs[k].createdAt) {
            existing := Some(k);
          }
        }
        assert IsExisting(jobs, rec.blob, existing);
        if existing.Some? {
          jobs := jobs[existing.value := Refresh(jobs[existing.value], rec)];
          return existing;
        }
      }
      if rec.status == Succeeded {
        for k := 0 to |jobs|
          invariant forall l :: 0 <= l < k && jobs[l].blob == rec.blob ==> jobs[l].status != Succeeded
        {
          if jobs[k].blob == rec.blob && jobs[k].status == Succeeded {
            return Some(k);
          }
        }
      }
      id := InsertJob(rec, now);
    }
  }

  /** `steps1` goes on from `steps` without a crash. */
  ghost predicate GoesOn(steps: seq<Step>, steps1: seq<Step>) {
    && |steps| <= |steps1| && steps1[..|steps|] == steps
    && forall k :: |steps| <= k < |steps1| ==> !steps1[k].CrashWorker?
  }

  lemma GoesOnStep(steps: seq<Step>, step: Step)
    requires !step.CrashWorker?
    ensures GoesOn(steps, steps + [step]) && GoesOn(steps, steps)
  {
  }

  lemma GoesOnTransitively(steps: seq<Step>, steps1: seq<Step>, steps2: seq<Step>)
    requires GoesOn(steps, steps1) && GoesOn(steps1, steps2)
    ensures GoesOn(steps, steps2)
  {
    assert steps2[..|steps|] == steps2[..|steps1|][..|steps|];
    forall k | |steps| <= k < |steps2| ensures !steps2[k].CrashWorker? {
      if k < |steps1| { assert steps2[k] == steps2[..|steps1|][k]; }
    }
  }

  /** An undisturbed poll is a run of the state machine, so every theorem about runs covers it. */
  lemma PollIsRun(states: seq<State>, steps: seq<Step>, now: int, ids: seq<JobId>, script: seq<Decision>)
    returns (states1: seq<State>, steps1: seq<Step>)
    requires IsRun(states, steps) && Enabled(Last(states), StartBatch(now, ids)) && |script| >= |ids|
    ensures IsRun(states1, steps1) && GoesOn(steps, steps1) && Last(states1) == Poll(Last(states), now, ids, script)
  {
    var start := StartBatch(now, ids);
    var m := Apply(Last(states), start);
    Selects(Last(states), now, ids);
    hide IsRun, Enabled, Apply, GoesOn, ProcessBatch;
    states1, steps1 := Go(states, steps, start, m);
    GoesOnStep(steps, start);
    var steps0 := steps1;
    states1, steps1 := BatchIsRun(states1, steps1, now, script);
    GoesOnTransitively(steps, steps0, steps1);
  }

  lemma Selects(s: State, now: int, ids: seq<JobId>)
    requires Enabled(s, StartBatch(now, ids))
    ensures var m := Apply(s, StartBatch(now, ids));
            && m.worker.Looping? && |m.worker.batch| == |ids|
            && forall k :: 0 <= k < |ids| ==> m.worker.batch[k].id < |m.jobs|
  {
  }

  lemma Begins(s: State, now: int, d: Decision)
    requires s.worker.Looping? && s.worker.batch != [] && s.worker.batch[0].id < |s.jobs|
    ensures var step, m := BeginJob(now, d.allowed, d.prep), Begin(s, now, d.allowed, d.prep);
            && Enabled(s, step) && Apply(s, step) == m
            && (if m.worker.Executing? then m.worker.current.id < |m.jobs| && ProcessOne(s, now, d) == Finish(m, now, d.outcome)
                else ProcessOne(s, now, d) == m)
  {
    hide Begin, Finish;
  }

  /** One loop iteration is one, two or three steps of the machine. */
  lemma IterationIsRun(states: seq<State>, steps: seq<Step>, now: int, d: Decision)
    returns (states1: seq<State>, steps1: seq<Step>)
    requires IsRun(states, steps)
    requires var s := Last(states); s.worker.Looping? && s.worker.batch != [] && s.worker.batch[0].id < |s.jobs|
    ensures IsRun(states1, steps1) && GoesOn(steps, steps1) && Last(states1) == ProcessOne(Last(states), now, d)
  {
    assert states != [];
    hide Begin, Finish, IsRun, Enabled, Apply, GoesOn, ProcessOne;
    var s, step := Last(states), BeginJob(now, d.allowed, d.prep);
    Begins(s, now, d);
    states1, steps1 := Go(states, steps, step, Begin(s, now, d.allowed, d.prep));
    GoesOnStep(steps, step);
    if Last(states1).worker.Executing? {
      var steps0 := steps1;
      states1, steps1 := FinishIsRun(states1, steps1, now, d.outcome);
      GoesOnTransitively(steps, steps0, steps1);
    }
  }

  lemma FinishIsRun(states: seq<State>, steps: seq<Step>, now: int, outcome: Outcome)
    returns (states1: seq<State>, steps1: seq<Step>)
    requires IsRun(states, steps)
    requires var s := Last(states); s.worker.Executing? && s.worker.current.id < |s.jobs|
    ensures IsRun(states1, steps1) && GoesOn(steps, steps1) && Last(states1) == Finish(Last(states), now, outcome)
  {
    assert states != [];
    hide ThrowCall, Confirm, Close, IsRun;
    var s := Last(states);
    match outcome
    case CallThrew(committed, e) =>
      states1, steps1 := Go(states, steps, ThrowJob(now, committed, e), ThrowCall(s, now, committed, e));
    case CallReturned(closing) =>
      var m := Confirm(s, now);
      states1, steps1 := Go(states, steps, ConfirmJob(now), m);
      states1, steps1 := Go(states1, steps1, CloseJob(now, closing), Close(m, now, closing));
  }

  lemma {:induction false} BatchIsRun(states: seq<State>, steps: seq<Step>, now: int, script: seq<Decision>)
    returns (states1: seq<State>, steps1: seq<Step>)
    requires IsRun(states, steps)
    requires var s := Last(states); s.worker.Looping? ==>
               |script| >= |s.worker.batch| && forall k :: 0 <= k < |s.worker.batch| ==> s.worker.batch[k].id < |s.jobs|
    ensures IsRun(states1, steps1) && GoesOn(steps, steps1) && Last(states1) == ProcessBatch(Last(states), now, script)
    decreases if Last(states).worker.Looping? then |Last(states).worker.batch| else 0
  {
    assert states != [];
    hide ProcessOne, IsRun, GoesOn;
    var s := Last(states);
    if s.worker.Looping? && s.worker.batch != [] {
      var states2, steps2 := IterationIsRun(states, steps, now, script[0]);
      states1, steps1 := BatchIsRun(states2, steps2, now, script[1..]);
      GoesOnTransitively(steps, steps2, steps1);
    } else {
      states1, steps1 := states, steps;
      GoesOnStep(steps, StartBatch(now, []));
    }
  }
}
