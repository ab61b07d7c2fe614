/** The queue and the blob lifecycle: every step moves every blob along the registered blob machine. */
module RenewalBlobs {
  import opened Common
  import opened StateMachines
  import opened RenewalModel
  import opened RenewalSafety
  import opened RenewalTheorems
  import opened RenewalQueue

  /** The moves the queue makes, each a conditional UPDATE. */
  predicate QueueMove(from: BlobStatus, to: BlobStatus) {
    || (from == Expiring && to == Renewing)
    || (from == Renewing && (to == Expiring || to == Renewed))
    || (from == Renewed && (to == Tracked || to == Protected))
  }

  /** The edge at position `i` of a machine, between the states at `a` and `b`, is accepted. */
  lemma EdgeAt<S>(m: Machine<S>, i: nat, a: nat, b: nat)
    requires i < |m.transitions| && a < |m.states| && b < |m.states|
    requires m.transitions[i].source == m.states[a] && m.transitions[i].target == m.states[b]
    requires m.states[a] !in m.terminal
    ensures ValidateTransition(m, m.states[a], m.states[b]).Ok?
  {
    assert m.transitions[i] in m.transitions && m.states[a] in m.states && m.states[b] in m.states;
    assert HasEdge(m, m.states[a], m.states[b]);
  }

  /** None of the queue's blob transition checks can throw. */
  lemma QueueMovesOnMachine(from: BlobStatus, to: BlobStatus)
    requires QueueMove(from, to)
    ensures ValidateTransition(BLOB, from, to).Ok?
  {
    hide ValidateTransition;
    if from == Expiring {
      EdgeAt(BLOB, 5, 4, 5);
    } else if from == Renewing {
      if to == Renewed { EdgeAt(BLOB, 7, 5, 6); } else { EdgeAt(BLOB, 8, 5, 4); }
    } else {
      if to == Tracked { EdgeAt(BLOB, 9, 6, 2); } else { EdgeAt(BLOB, 10, 6, 3); }
    }
  }

  /** What one step may do to a blob: nothing, one move, or the success path through `renewed`. */
  predicate AtMostOnePath(from: BlobStatus, to: BlobStatus) {
    from == to || QueueMove(from, to) || (QueueMove(from, Renewed) && QueueMove(Renewed, to))
  }

  predicate Moves(s: State, r: State, b: BlobId) {
    b in s.blobs ==> b in r.blobs && AtMostOnePath(s.blobs[b], r.blobs[b])
  }

  lemma FailureMoves(s: State, j: JobId, snap: Job, now: int, e: Failure, b: BlobId)
    requires j < |s.jobs|
    ensures var r := HandleError(s, j, snap, now, e);
            r.blobs == s.blobs || r.blobs == MoveBlob(s, s.jobs[j].blob, Renewing, Expiring).blobs
  {
  }

  lemma PrepareMoves(s: State, p: Picked, rest: seq<Picked>, now: int, prep: Preparation, b: BlobId)
    requires p.id < |s.jobs|
    ensures Moves(s, Prepare(s, p, rest, now, prep), b)
  {
    if prep.PrepareThrew? {
      FailureMoves(MoveBlob(s, s.jobs[p.id].blob, Expiring, Renewing), p.id, p.row, now, prep.failure, b);
      hide HandleError;
    }
  }

  lemma BeginMoves(s: State, now: int, allowed: bool, prep: Preparation, b: BlobId)
    requires s.worker.Looping? && s.worker.batch != [] && s.worker.batch[0].id < |s.jobs|
    ensures Moves(s, Begin(s, now, allowed, prep), b)
  {
    var p, rest := s.worker.batch[0], s.worker.batch[1..];
    hide Prepare, Moves;
    forall t: State | t.blobs == s.blobs && p.id < |t.jobs|
      ensures Moves(s, Dispatch(t, p, rest, now, prep), b)
    {
      DispatchMoves(s, t, p, rest, now, prep, b);
    }
    SameBlobs(s, Begin(s, now, allowed, prep), b);
  }

  lemma SameBlobs(s: State, r: State, b: BlobId)
    ensures r.blobs == s.blobs ==> Moves(s, r, b)
  {
  }

  lemma DispatchMoves(s: State, t: State, p: Picked, rest: seq<Picked>, now: int, prep: Preparation, b: BlobId)
    requires t.blobs == s.blobs && p.id < |t.jobs|
    ensures Moves(s, Dispatch(t, p, rest, now, prep), b)
  {
    hide Prepare;
    var row := t.jobs[p.id].(status := InProgress, startedAt := Some(now), heartbeatAt := Some(now));
    PrepareMoves(WriteJob(t, p.id, row), p, rest, now, prep, b);
  }

  lemma ThrowMoves(s: State, now: int, committed: bool, e: Failure, b: BlobId)
    requires s.worker.Executing? && s.worker.current.id < |s.jobs|
    ensures Moves(s, ThrowCall(s, now, committed, e), b)
  {
    var p := s.worker.current;
    var s0 := s.(worker := Looping(s.worker.rest));
    FailureMoves(if committed then Note(Note(s0, Committed, p.id), CommitLost, p.id) else s0, p.id, p.row, now, e, b);
    hide HandleError;
  }

  lemma CloseMoves(s: State, now: int, closing: Closing, b: BlobId)
    requires s.worker.Confirming? && s.worker.current.id < |s.jobs|
    ensures Moves(s, Close(s, now, closing), b)
  {
    hide HandleError;
    if closing.LateThrew? {
      var p, x := s.worker.current, s.jobs[s.worker.current.id].blob;
      var s1 := Note(Advance(s.(worker := Looping(s.worker.rest)), x, closing.progress), CommitLost, p.id);
      FailureMoves(s1, p.id, p.row, now, closing.failure, b);
    }
  }

  /** In every run, between two states, the queue moves each blob only as the blob machine allows. */
  lemma BlobsFollowMachine(states: seq<State>, steps: seq<Step>, i: nat, b: BlobId)
    requires IsRun(states, steps) && i < |steps| && !steps[i].ChangeBlob? && b in states[i].blobs
    ensures b in states[i + 1].blobs
    ensures var x, y := states[i].blobs[b], states[i + 1].blobs[b];
            || x == y
            || ValidateTransition(BLOB, x, y).Ok?
            || (ValidateTransition(BLOB, x, Renewed).Ok? && ValidateTransition(BLOB, Renewed, y).Ok?)
  {
    var s, step, r := states[i], steps[i], states[i + 1];
    StepMoves(s, step, b);
    hide ValidateTransition, Apply, Enabled;
    var x, y := s.blobs[b], r.blobs[b];
    if QueueMove(x, y) { QueueMovesOnMachine(x, y); }
    if QueueMove(x, Renewed) { QueueMovesOnMachine(x, Renewed); }
    if QueueMove(Renewed, y) { QueueMovesOnMachine(Renewed, y); }
  }

  lemma StepMoves(s: State, step: Step, b: BlobId)
    requires Enabled(s, step) && !step.ChangeBlob?
    ensures Moves(s, Apply(s, step), b)
  {
    hide Begin, ThrowCall, Close, RecoverFirst, Moves;
    match step
    case StartBatch(now, ids) => RecoverMoves(s, now, b);
    case BeginJob(now, allowed, prep) => BeginMoves(s, now, allowed, prep, b);
    case ThrowJob(now, committed, e) => ThrowMoves(s, now, committed, e, b);
    case ConfirmJob(_) => OtherMoves(s, step, b);
    case CloseJob(now, closing) => CloseMoves(s, now, closing, b);
    case CrashWorker(_) => OtherMoves(s, step, b);
    case EnqueueJob(_, _, _) => OtherMoves(s, step, b);
  }

  lemma OtherMoves(s: State, step: Step, b: BlobId)
    requires Enabled(s, step) && (step.ConfirmJob? || step.CrashWorker? || step.EnqueueJob?)
    ensures Moves(s, Apply(s, step), b)
  {
  }

  lemma RecoverMoves(s: State, now: int, b: BlobId)
    ensures forall w :: Moves(s, RecoverFirst(s, now, |s.jobs|).(worker := w), b)
  {
    hide RecoverFirst;
    RecoverEffect(s, now, |s.jobs|);
  }
}
