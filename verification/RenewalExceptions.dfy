/** Every status write that the registered machine does not allow does occur: a run for each. */
module RenewalExceptions {
  import opened Common
  import opened StateMachines
  import opened RenewalModel
  import opened RenewalTheorems
  import opened RenewalHistory
  import opened RenewalWitnesses
  import opened RenewalAttachment

  ghost predicate Writes(s: State, from: RenewalStatus, to: RenewalStatus) {
    exists e :: e in s.log && e.kind == Wrote(from, to)
  }

  lemma LastWrite(s: State, from: RenewalStatus, to: RenewalStatus)
    requires s.log != [] && s.log[|s.log| - 1].kind == Wrote(from, to)
    ensures Writes(s, from, to)
  {
    assert s.log[|s.log| - 1] in s.log;
  }

  /** Auto-renewal is switched off between enqueue and execution. */
  lemma DisabledOccurs() returns (states: seq<State>, steps: seq<Step>)
    ensures IsRun(states, steps) && Writes(Last(states), InProgress, BlockedByBudget)
  {
    states, steps := OneEnqueued(false);
    var s := Last(states);
    SelectOne(s);
    states, steps := Go(states, steps, StartBatch(0, [0]), Selected(s));
    var off := BeginJob(0, true, PolicyDisabled);
    var r := Apply(Selected(s), off);
    assert !OtherRow(s.jobs, 0, B, Succeeded) && !OtherRow(s.jobs, 0, B, InProgress);
    LastWrite(r, InProgress, BlockedByBudget);
    hide Apply, IsRun;
    states, steps := Go(states, steps, off, r);
  }

  // ---------- A pending row of a blob that was renewed meanwhile ----------

  const DONE := Closing1(false).(worker := Looping([]), blobs := map[B := Tracked])
  const ANEW := DONE.(jobs := DONE.jobs + [Fresh(50)])
  const PICKED := ANEW.(worker := Looping([Picked(1, Fresh(50))]))
  const SKIPPED := PICKED.(jobs := DONE.jobs + [Fresh(50).(status := Succeeded)], worker := Looping([]), log := PICKED.log + [Written(Pending, Succeeded, 1)])

  lemma RenewedMeanwhile()
    ensures Enabled(Closing1(false), CloseJob(0, Completed(false))) && Apply(Closing1(false), CloseJob(0, Completed(false))) == DONE
    ensures Enabled(DONE, EnqueueJob(Rec(50), None, 0)) && Apply(DONE, EnqueueJob(Rec(50), None, 0)) == ANEW
  {
    assert Apply(Closing1(false), CloseJob(0, Completed(false))).blobs == DONE.blobs;
    assert DONE.jobs == [Locked(Fresh(50), 0).(status := Succeeded)];
  }

  lemma PickAnew()
    ensures Enabled(ANEW, StartBatch(0, [1])) && Apply(ANEW, StartBatch(0, [1])) == PICKED
  {
    NothingStale(ANEW, 0, 2);
    assert PickRows(ANEW.jobs, [1]) == [Picked(1, Fresh(50))];
  }

  lemma SkipRenewed()
    ensures Enabled(PICKED, BeginJob(0, true, Ready)) && Apply(PICKED, BeginJob(0, true, Ready)) == SKIPPED
  {
    assert PICKED.jobs[0].status == Succeeded && OtherRow(PICKED.jobs, 1, B, Succeeded);
    assert PICKED.worker.batch[1..] == [];
    assert Apply(PICKED, BeginJob(0, true, Ready)).jobs == SKIPPED.jobs;
  }

  lemma PendingOccurs() returns (states: seq<State>, steps: seq<Step>)
    ensures IsRun(states, steps) && Writes(Last(states), Pending, Succeeded)
  {
    RenewedMeanwhile();
    PickAnew();
    SkipRenewed();
    LastWrite(SKIPPED, Pending, Succeeded);
    hide Enabled, Apply, IsRun;
    states, steps := FirstConfirmed(false);
    states, steps := Go(states, steps, CloseJob(0, Completed(false)), DONE);
    states, steps := Go(states, steps, EnqueueJob(Rec(50), None, 0), ANEW);
    states, steps := Go(states, steps, StartBatch(0, [1]), PICKED);
    states, steps := Go(states, steps, BeginJob(0, true, Ready), SKIPPED);
  }

  // ---------- A retrying row of a blob that was renewed meanwhile ----------

  const OTHER_CONFIRMED := OTHER_CALLED.(jobs := [X_RETRYING, Locked(Y, 0).(status := Succeeded)], worker := Confirming(Picked(1, Y), []),
                                         log := OTHER_CALLED.log + [Written(InProgress, Succeeded, 1), Event(Committed, 1, B)])
  const OTHER_DONE := OTHER_CONFIRMED.(worker := Looping([]), blobs := map[B := Tracked])
  const RETRY_PICKED := OTHER_DONE.(worker := Looping([Picked(0, X_RETRYING)]))

  lemma OtherSucceeds()
    ensures Enabled(OTHER_CALLED, ConfirmJob(0)) && Apply(OTHER_CALLED, ConfirmJob(0)) == OTHER_CONFIRMED
    ensures Enabled(OTHER_CONFIRMED, CloseJob(0, Completed(false))) && Apply(OTHER_CONFIRMED, CloseJob(0, Completed(false))) == OTHER_DONE
  {
    assert Apply(OTHER_CALLED, ConfirmJob(0)).jobs == OTHER_CONFIRMED.jobs;
    assert Apply(OTHER_CALLED, ConfirmJob(0)).log == OTHER_CONFIRMED.log;
    assert Apply(OTHER_CONFIRMED, CloseJob(0, Completed(false))).blobs == OTHER_DONE.blobs;
  }

  lemma PickRetry()
    ensures Enabled(OTHER_DONE, StartBatch(0, [0])) && Apply(OTHER_DONE, StartBatch(0, [0])) == RETRY_PICKED
  {
    NothingStale(OTHER_DONE, 0, 2);
    assert PickRows(OTHER_DONE.jobs, [0]) == [Picked(0, X_RETRYING)];
  }

  lemma RetryingOccurs() returns (states: seq<State>, steps: seq<Step>)
    ensures IsRun(states, steps) && Writes(Last(states), Retrying, Succeeded)
  {
    OtherSucceeds();
    PickRetry();
    RetrySkipped();
    var r := Apply(RETRY_PICKED, BeginJob(0, true, Ready));
    LastWrite(r, Retrying, Succeeded);
    hide Enabled, Apply, IsRun;
    states, steps := RunToOtherCalled();
    states, steps := Go(states, steps, ConfirmJob(0), OTHER_CONFIRMED);
    states, steps := Go(states, steps, CloseJob(0, Completed(false)), OTHER_DONE);
    states, steps := Go(states, steps, StartBatch(0, [0]), RETRY_PICKED);
    states, steps := Go(states, steps, BeginJob(0, true, Ready), r);
  }

  lemma RetrySkipped()
    ensures Enabled(RETRY_PICKED, BeginJob(0, true, Ready))
    ensures var log := Apply(RETRY_PICKED, BeginJob(0, true, Ready)).log;
            log != [] && log[|log| - 1].kind == Wrote(Retrying, Succeeded)
  {
    assert RETRY_PICKED.jobs[1].status == Succeeded && OtherRow(RETRY_PICKED.jobs, 0, B, Succeeded);
  }

  // ---------- All of them ----------

  lemma LateOccurs(retryable: bool) returns (states: seq<State>, steps: seq<Step>)
    ensures IsRun(states, steps) && Writes(Last(states), Succeeded, if retryable then Retrying else FailedFinal)
  {
    states, steps := FirstFailsLate(false, retryable);
    LastWrite(LateState(false, retryable), Succeeded, if retryable then Retrying else FailedFinal);
  }

  lemma ResetOccurs() returns (states: seq<State>, steps: seq<Step>)
    ensures IsRun(states, steps) && Writes(Last(states), InProgress, Pending)
  {
    states, steps := RetryingRowCalledAgain();
    var log := CALLED_AGAIN.log;
    assert log[|ATTACHED.log|] in log && log[|ATTACHED.log|].kind == Wrote(InProgress, Pending);
  }

  /** So the list of exceptions is exact: each of them is written in some run. */
  lemma EveryExceptionOccurs(from: RenewalStatus, to: RenewalStatus) returns (states: seq<State>, steps: seq<Step>)
    requires OffMachine(from, to)
    ensures IsRun(states, steps) && Writes(Last(states), from, to)
  {
    hide IsRun, Writes;
    match from {
      case Succeeded => states, steps := LateOccurs(to == Retrying);
      case Pending => states, steps := PendingOccurs();
      case Retrying => states, steps := RetryingOccurs();
      case _ => if to == Pending { states, steps := ResetOccurs(); } else { states, steps := DisabledOccurs(); }
    }
  }
}
