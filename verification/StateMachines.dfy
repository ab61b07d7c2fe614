/**
 The state-machine table: the generic check `validateTransition` and the three
 machines that the renewal queue and the notification engine must follow.
 */
module StateMachines {
  import opened Common

  datatype TransitionType = Automatic | Manual

  datatype Transition<S> = Transition(source: S, target: S, kind: TransitionType)

  datatype Machine<S> = Machine(states: seq<S>, initial: S, terminal: seq<S>, transitions: seq<Transition<S>>)

  datatype TransitionError = InvalidFrom | InvalidTo | TerminalState | NotDefined

  /** `transitions.find`: the first entry for the edge, if any. */
  function FindTransition<S(==)>(ts: seq<Transition<S>>, from: S, to: S): (r: Option<Transition<S>>)
    ensures r.Some? ==> r.value in ts && r.value.source == from && r.value.target == to
    ensures r.None? ==> forall t :: t in ts ==> t.source != from || t.target != to
  {
    if ts == [] then None
    else if ts[0].source == from && ts[0].target == to then Some(ts[0])
    else FindTransition(ts[1..], from, to)
  }

  ghost predicate HasEdge<S>(m: Machine<S>, from: S, to: S) {
    exists t :: t in m.transitions && t.source == from && t.target == to
  }

  function ValidateTransition<S(==)>(m: Machine<S>, from: S, to: S, allowTerminalOverride: bool := false)
    : (r: Result<Transition<S>, TransitionError>)
    ensures r.Ok? <==>
            && from in m.states && to in m.states
            && (from in m.terminal ==> allowTerminalOverride)
            && HasEdge(m, from, to)
    ensures r.Ok? ==> r.value in m.transitions && r.value.source == from && r.value.target == to
  {
    if from !in m.states then Err(InvalidFrom)
    else if to !in m.states then Err(InvalidTo)
    else if from in m.terminal && !allowTerminalOverride then Err(TerminalState)
    else
      match FindTransition(m.transitions, from, to)
      case Some(t) => Ok(t)
      case None => Err(NotDefined)
  }

  // ---------- Renewal ----------

  datatype RenewalStatus = Estimated | Pending | InProgress | Succeeded | Retrying | FailedFinal | BlockedByBudget

  const RENEWAL: Machine<RenewalStatus> := Machine(
    [Estimated, Pending, InProgress, Succeeded, Retrying, FailedFinal, BlockedByBudget],
    Estimated,
    [Succeeded, FailedFinal, BlockedByBudget],
    [Transition(Estimated, Pending, Automatic),
     Transition(Pending, InProgress, Automatic),
     Transition(Pending, BlockedByBudget, Automatic),
     Transition(InProgress, Succeeded, Automatic),
     Transition(InProgress, Retrying, Automatic),
     Transition(InProgress, FailedFinal, Automatic),
     Transition(Retrying, InProgress, Automatic)])

  predicate RenewalTerminal(st: RenewalStatus) {
    st in RENEWAL.terminal
  }

  predicate RenewalEdge(from: RenewalStatus, to: RenewalStatus) {
    || (from == Estimated && to == Pending)
    || (from == Pending && (to == InProgress || to == BlockedByBudget))
    || (from == InProgress && (to == Succeeded || to == Retrying || to == FailedFinal))
    || (from == Retrying && to == InProgress)
  }

  lemma RenewalTableHas(from: RenewalStatus, to: RenewalStatus)
    requires RenewalEdge(from, to)
    ensures HasEdge(RENEWAL, from, to)
  {
    var ts := RENEWAL.transitions;
    var i := match (from, to)
      case (Estimated, _) => 0
      case (Pending, InProgress) => 1
      case (Pending, _) => 2
      case (InProgress, Succeeded) => 3
      case (InProgress, Retrying) => 4
      case (InProgress, _) => 5
      case _ => 6;
    assert ts[i] in ts && ts[i].source == from && ts[i].target == to;
  }

  lemma RenewalRow(i: nat)
    requires i < |RENEWAL.transitions|
    ensures var t := RENEWAL.transitions[i]; RenewalEdge(t.source, t.target)
  {
    assert i == 0 || i == 1 || i == 2 || i == 3 || i == 4 || i == 5 || i == 6;
  }

  /** Looking an edge up in the table finds it exactly when it is one of the seven registered moves. */
  lemma RenewalTable(from: RenewalStatus, to: RenewalStatus)
    ensures HasEdge(RENEWAL, from, to) <==> RenewalEdge(from, to)
  {
    if RenewalEdge(from, to) { RenewalTableHas(from, to); }
    if HasEdge(RENEWAL, from, to) { RenewalTableOnly(from, to); }
  }

  lemma RenewalTableOnly(from: RenewalStatus, to: RenewalStatus)
    requires HasEdge(RENEWAL, from, to)
    ensures RenewalEdge(from, to)
  {
    hide RENEWAL, RenewalEdge;
    var ts := RENEWAL.transitions;
    var t :| t in ts && t.source == from && t.target == to;
    var i :| 0 <= i < |ts| && ts[i] == t;
    RenewalRow(i);
  }

  /** The machine accepts exactly those seven moves: no terminal check or state check removes one. */
  lemma RenewalEdges(from: RenewalStatus, to: RenewalStatus)
    ensures ValidateTransition(RENEWAL, from, to).Ok? <==> RenewalEdge(from, to)
  {
    RenewalTable(from, to);
    AllRenewalStates(from);
    AllRenewalStates(to);
    var bad := RENEWAL.terminal;
    if from in bad {
      var i :| 0 <= i < |bad| && bad[i] == from;
      assert i == 0 || i == 1 || i == 2;
    }
  }

  lemma AllRenewalStates(st: RenewalStatus)
    ensures st in RENEWAL.states
  {
    var all := RENEWAL.states;
    var i := match st
      case Estimated => 0 case Pending => 1 case InProgress => 2 case Succeeded => 3
      case Retrying => 4 case FailedFinal => 5 case BlockedByBudget => 6;
    assert all[i] == st;
  }

  // ---------- Blob ----------

  datatype BlobStatus =
    | Discovered | Verified | Tracked | Protected | Expiring
    | Renewing | Renewed | Expired | Archived | Deleted

  const BLOB: Machine<BlobStatus> := Machine(
    [Discovered, Verified, Tracked, Protected, Expiring, Renewing, Renewed, Expired, Archived, Deleted],
    Discovered,
    [Deleted],
    [Transition(Discovered, Verified, Automatic),
     Transition(Verified, Tracked, Automatic),
     Transition(Tracked, Protected, Automatic),
     Transition(Protected, Tracked, Automatic),
     Transition(Protected, Expiring, Automatic),
     Transition(Expiring, Renewing, Automatic),
     Transition(Expiring, Renewing, Manual),
     Transition(Renewing, Renewed, Automatic),
     Transition(Renewing, Expiring, Automatic),
     Transition(Renewed, Tracked, Automatic),
     Transition(Renewed, Protected, Automatic),
     Transition(Expiring, Expired, Automatic),
     Transition(Tracked, Archived, Manual),
     Transition(Protected, Archived, Manual),
     Transition(Discovered, Archived, Manual),
     Transition(Verified, Archived, Manual),
     Transition(Expiring, Archived, Manual),
     Transition(Renewing, Archived, Manual),
     Transition(Renewed, Archived, Manual),
     Transition(Expired, Archived, Manual),
     Transition(Tracked, Deleted, Manual),
     Transition(Protected, Deleted, Manual),
     Transition(Archived, Deleted, Manual),
     Transition(Expired, Deleted, Manual)])

  // ---------- Notification ----------

  datatype NotificationStatus = Queued | Sent | Delivered | Failed

  const NOTIFICATION: Machine<NotificationStatus> := Machine(
    [Queued, Sent, Delivered, Failed],
    Queued,
    [Delivered, Failed],
    [Transition(Queued, Sent, Automatic),
     Transition(Sent, Delivered, Automatic),
     Transition(Sent, Failed, Automatic)])
}
