/**
 A run, without the index of migration 0022, in which a `retrying` row is executed again: it falls
 due and is passed over, attaches to a row that a crash left in progress, is reset with it as
 stale, and is then called.
 */
module RenewalAttachment {
  import opened Common
  import opened StateMachines
  import opened RenewalModel
  import opened RenewalTally
  import opened RenewalTheorems
  import opened RenewalRetries
  import opened RenewalWitnesses

  const LATER := 700_000

  const X := Fresh(1)
  const Y := Fresh(2)
  const X_RETRYING := Locked(X, 0).(status := Retrying, attempt := 1, scheduledFor := Some(0))
  const X_ATTACHED := X_RETRYING.(status := InProgress, startedAt := Some(1))
  const X_RESET := X_ATTACHED.(status := Pending, attempt := 2)
  const Y_RESET := Locked(Y, 0).(status := Pending, attempt := 1)

  const ENQUEUED := Empty(false).(jobs := [X])
  const SELECTED := ENQUEUED.(worker := Looping([Picked(0, X)]))
  const CALLED := State([Locked(X, 0)], map[B := Renewing], Executing(Picked(0, X), []),
                        [Written(Pending, InProgress, 0), Event(Called, 0, B)], false)
  const BESIDE := CALLED.(jobs := [Locked(X, 0), Y], log := CALLED.log + [Event(InsertedBeside, 1, B)])
  const RETRYING := BESIDE.(jobs := [X_RETRYING, Y], worker := Looping([]), log := BESIDE.log + [Written(InProgress, Retrying, 0)])
  const BOTH := RETRYING.(worker := Looping([Picked(0, X_RETRYING), Picked(1, Y)]))
  const PASSED_OVER := RETRYING.(worker := Looping([Picked(1, Y)]))
  const OTHER_CALLED := PASSED_OVER.(jobs := [X_RETRYING, Locked(Y, 0)], worker := Executing(Picked(1, Y), []),
                                     log := PASSED_OVER.log + [Written(Pending, InProgress, 1), Event(Called, 1, B)])
  const CRASHED := OTHER_CALLED.(worker := Idle, log := OTHER_CALLED.log + [Event(Crashed, 1, B)])
  const DUE := CRASHED.(worker := Looping([Picked(0, X_RETRYING)]))
  const ATTACHED := DUE.(jobs := [X_ATTACHED, Locked(Y, 0)], worker := Looping([]), log := DUE.log + [Written(Retrying, InProgress, 0)])
  const RESET := State([X_RESET, Y_RESET], map[B := Expiring], Looping([Picked(0, X_RESET), Picked(1, Y_RESET)]),
                       ATTACHED.log + [Written(InProgress, Pending, 0), Event(EventKind.Recovered, 0, B),
                                       Written(InProgress, Pending, 1), Event(EventKind.Recovered, 1, B)], false)
  const CALLED_AGAIN := State([Locked(X_RESET, LATER), Y_RESET], map[B := Renewing], Executing(Picked(0, X_RESET), [Picked(1, Y_RESET)]),
                              RESET.log + [Written(Pending, InProgress, 0), Event(Called, 0, B)], false)

  lemma SelectAndCall()
    ensures Enabled(ENQUEUED, StartBatch(0, [0])) && Apply(ENQUEUED, StartBatch(0, [0])) == SELECTED
    ensures Enabled(SELECTED, BeginJob(0, true, Ready)) && Apply(SELECTED, BeginJob(0, true, Ready)) == CALLED
  {
    NothingStale(ENQUEUED, 0, 1);
    assert PickRows(ENQUEUED.jobs, [0]) == [Picked(0, X)];
    assert SELECTED.worker.batch[1..] == [];
    assert Apply(SELECTED, BeginJob(0, true, Ready)).log == CALLED.log;
  }

  lemma ThrowRetryable()
    ensures var e := Failure(true, 0);
            && Enabled(CALLED, EnqueueJob(Rec(2), None, 0)) && Apply(CALLED, EnqueueJob(Rec(2), None, 0)) == BESIDE
            && Enabled(BESIDE, ThrowJob(0, false, e)) && Apply(BESIDE, ThrowJob(0, false, e)) == RETRYING
  {
    assert CALLED.jobs[0].status == InProgress;
    assert Beside(CALLED, B);
    assert Apply(CALLED, EnqueueJob(Rec(2), None, 0)).jobs == BESIDE.jobs;
    assert Apply(BESIDE, ThrowJob(0, false, Failure(true, 0))).jobs == RETRYING.jobs;
  }

  lemma SelectBoth()
    ensures Enabled(RETRYING, StartBatch(0, [0, 1])) && Apply(RETRYING, StartBatch(0, [0, 1])) == BOTH
  {
    NothingStale(RETRYING, 0, 2);
    hide RecoverFirst;
    assert PickRows(RETRYING.jobs, [0, 1]) == [Picked(0, X_RETRYING), Picked(1, Y)];
  }

  lemma PassOver()
    ensures Enabled(BOTH, BeginJob(0, true, Ready)) && Apply(BOTH, BeginJob(0, true, Ready)) == PASSED_OVER
  {
    hide ValidateTransition, Prepare;
    assert BOTH.worker.batch[1..] == [Picked(1, Y)];
  }

  lemma CallOther()
    ensures Enabled(PASSED_OVER, BeginJob(0, true, Ready)) && Apply(PASSED_OVER, BeginJob(0, true, Ready)) == OTHER_CALLED
    ensures Enabled(OTHER_CALLED, CrashWorker(InFlight(false))) && Apply(OTHER_CALLED, CrashWorker(InFlight(false))) == CRASHED
  {
    assert PASSED_OVER.worker.batch[1..] == [];
    var r := Apply(PASSED_OVER, BeginJob(0, true, Ready));
    assert r.jobs == OTHER_CALLED.jobs && r.log == OTHER_CALLED.log;
  }

  lemma FallDue()
    ensures Enabled(CRASHED, StartBatch(1, [0])) && Apply(CRASHED, StartBatch(1, [0])) == DUE
  {
    NothingStale(CRASHED, 1, 2);
    assert PickRows(CRASHED.jobs, [0]) == [Picked(0, X_RETRYING)];
  }

  lemma Attach()
    ensures Enabled(DUE, BeginJob(1, true, Ready)) && Apply(DUE, BeginJob(1, true, Ready)) == ATTACHED
  {
    assert DUE.worker.batch[1..] == [];
    assert DUE.jobs[1].status == InProgress && OtherRow(DUE.jobs, 0, B, InProgress);
    assert Apply(DUE, BeginJob(1, true, Ready)).jobs == ATTACHED.jobs;
  }

  lemma ResetBoth()
    ensures RecoverFirst(ATTACHED, LATER, 2) == RESET.(worker := Looping([]))
    ensures Enabled(ATTACHED, StartBatch(LATER, [0, 1])) && Apply(ATTACHED, StartBatch(LATER, [0, 1])) == RESET
  {
    var r0 := RecoverFirst(ATTACHED, LATER, 0);
    var r1 := RecoverFirst(ATTACHED, LATER, 1);
    assert r0 == ATTACHED && r1 == RecoverRow(ATTACHED, 0);
    assert r1.jobs == [X_RESET, Locked(Y, 0)];
    var r2 := RecoverFirst(ATTACHED, LATER, 2);
    assert r2 == RecoverRow(r1, 1);
    assert r2.jobs == RESET.jobs && r2.log == RESET.log;
    assert PickRows(RESET.jobs, [0, 1]) == [Picked(0, X_RESET), Picked(1, Y_RESET)];
  }

  lemma CallAgain()
    ensures Enabled(RESET, BeginJob(LATER, true, Ready)) && Apply(RESET, BeginJob(LATER, true, Ready)) == CALLED_AGAIN
  {
    assert RESET.worker.batch[1..] == [Picked(1, Y_RESET)];
    var r := Apply(RESET, BeginJob(LATER, true, Ready));
    assert r.jobs == CALLED_AGAIN.jobs && r.log == CALLED_AGAIN.log;
  }

  lemma FirstEnqueued() returns (states: seq<State>, steps: seq<Step>)
    ensures IsRun(states, steps) && states == [Empty(false), ENQUEUED]
  {
    states, steps := [Empty(false)], [];
    states, steps := Go(states, steps, EnqueueJob(Rec(1), None, 0), ENQUEUED);
  }

  lemma RunToRetrying() returns (states: seq<State>, steps: seq<Step>)
    ensures IsRun(states, steps) && |states| == 6 && Last(states) == RETRYING
  {
    SelectAndCall();
    ThrowRetryable();
    hide Enabled, Apply, IsRun;
    states, steps := FirstEnqueued();
    states, steps := Go(states, steps, StartBatch(0, [0]), SELECTED);
    states, steps := Go(states, steps, BeginJob(0, true, Ready), CALLED);
    states, steps := Go(states, steps, EnqueueJob(Rec(2), None, 0), BESIDE);
    states, steps := Go(states, steps, ThrowJob(0, false, Failure(true, 0)), RETRYING);
  }

  lemma RunToOtherCalled() returns (states: seq<State>, steps: seq<Step>)
    ensures IsRun(states, steps) && |states| == 9 && states[5] == RETRYING && Last(states) == OTHER_CALLED
  {
    SelectBoth();
    PassOver();
    CallOther();
    hide Enabled, Apply, IsRun;
    states, steps := RunToRetrying();
    states, steps := Go(states, steps, StartBatch(0, [0, 1]), BOTH);
    states, steps := Go(states, steps, BeginJob(0, true, Ready), PASSED_OVER);
    states, steps := Go(states, steps, BeginJob(0, true, Ready), OTHER_CALLED);
  }

  lemma {:induction false} CountGrows(log: seq<Event>, more: seq<Event>, kind: EventKind, j: JobId)
    ensures CountJobLog(log + more, kind, j) >= CountJobLog(log, kind, j)
  {
    if more == [] {
      assert log + more == log;
    } else {
      var n := |more| - 1;
      CountGrows(log, more[..n], kind, j);
      CountJobLogAppend(log + more[..n], more[n], kind, j);
      assert log + more == log + more[..n] + [more[n]];
    }
  }

  /** So a `retrying` row can be executed again, but only by way of an attachment and a reset. */
  lemma RetryingRowCalledAgain() returns (states: seq<State>, steps: seq<Step>)
    ensures IsRun(states, steps) && |states| == 14 && Last(states) == CALLED_AGAIN
    ensures |states[5].jobs| > 0 && states[5].jobs[0].status == Retrying
    ensures CountJobLog(states[13].log, Called, 0) > CountJobLog(states[5].log, Called, 0)
  {
    CallOther();
    FallDue();
    Attach();
    ResetBoth();
    CallAgain();
    hide Enabled, Apply, IsRun;
    states, steps := RunToOtherCalled();
    states, steps := Go(states, steps, CrashWorker(InFlight(false)), CRASHED);
    states, steps := Go(states, steps, StartBatch(1, [0]), DUE);
    states, steps := Go(states, steps, BeginJob(1, true, Ready), ATTACHED);
    states, steps := Go(states, steps, StartBatch(LATER, [0, 1]), RESET);
    states, steps := Go(states, steps, BeginJob(LATER, true, Ready), CALLED_AGAIN);
    MoreCalls();
  }

  lemma MoreCalls()
    ensures CountJobLog(CALLED_AGAIN.log, Called, 0) > CountJobLog(RETRYING.log, Called, 0)
  {
    var n := |RETRYING.log|;
    var log := RESET.log + [Written(Pending, InProgress, 0)];
    assert log == RETRYING.log + log[n..];
    CountGrows(RETRYING.log, log[n..], Called, 0);
    CountJobLogAppend(log, Event(Called, 0, B), Called, 0);
    assert CALLED_AGAIN.log == log + [Event(Called, 0, B)];
  }
}
