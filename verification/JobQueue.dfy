/**
 The background job queue and its single worker. Handlers are foreign code: each call returns,
 throws, or dies with the process. A query's order among equal rows is left open.
 */
module JobQueue {
  import opened Common

  type Id = nat

  datatype Status = Queued | Processing | Completed | Failed

  datatype Row = Row(kind: string, priority: int, scheduledFor: int, attempts: int, maxAttempts: int, status: Status)

  datatype Worker = Idle | Holding(id: Id) | Running(id: Id)

  datatype Event = Published(id: Id) | Claimed(id: Id) | Handled(id: Id)

  datatype State = State(queue: map<Id, Row>, dlq: map<Id, Row>, worker: Worker, log: seq<Event>)

  datatype Step =
    | Publish(id: Id, kind: string, priority: int, scheduledFor: int, maxAttempts: int)
    | Claim(id: Id)
    | Invoke
    | Reject
    | Settle(ok: bool)
    | Crash

  // ---------- Claiming ----------

  predicate IsQueued(s: State, id: Id) { id in s.queue && s.queue[id].status == Queued }

  /** `ORDER BY priority ASC, scheduled_for ASC` */
  predicate NoLater(a: Row, b: Row) {
    a.priority < b.priority || (a.priority == b.priority && a.scheduledFor <= b.scheduledFor)
  }

  /** A row the claim query may return. Whether it is due is not asked. */
  predicate IsNext(s: State, id: Id) {
    IsQueued(s, id) && forall x :: x in s.queue && IsQueued(s, x) ==> NoLater(s.queue[id], s.queue[x])
  }

  function QueuedIds(s: State): set<Id> { set id | id in s.queue && IsQueued(s, id) }

  lemma NextExists(s: State, ids: set<Id>) returns (next: Id)
    requires ids <= QueuedIds(s) && ids != {}
    ensures next in ids && forall x :: x in ids ==> NoLater(s.queue[next], s.queue[x])
    decreases ids
  {
    next :| next in ids;
    if ids != {next} {
      var other := NextExists(s, ids - {next});
      if !NoLater(s.queue[next], s.queue[other]) { next := other; }
    }
  }

  // ---------- Steps ----------

  predicate Knows(s: State, id: Id) { id in s.queue || id in s.dlq }

  predicate Enabled(handlers: set<string>, s: State, step: Step) {
    match step
    case Publish(id, _, _, _, _) => !Knows(s, id)
    case Claim(id) => s.worker == Idle && IsNext(s, id)
    case Invoke => s.worker.Holding? && s.worker.id in s.queue && s.queue[s.worker.id].kind in handlers
    case Reject => s.worker.Holding? && s.worker.id in s.queue && s.queue[s.worker.id].kind !in handlers
    case Settle(_) => s.worker.Running? && s.worker.id in s.queue
    case Crash => true
  }

  function SetStatus(s: State, id: Id, status: Status): State
    requires id in s.queue
  {
    s.(queue := s.queue[id := s.queue[id].(status := status)])
  }

  function ToDlq(s: State, id: Id): State
    requires id in s.queue
  {
    s.(queue := s.queue - {id}, dlq := s.dlq[id := s.queue[id]])
  }

  function Apply(handlers: set<string>, s: State, step: Step): State
    requires Enabled(handlers, s, step)
  {
    match step
    case Publish(id, kind, priority, at, max) =>
      s.(queue := s.queue[id := Row(kind, priority, at, 0, max, Queued)], log := s.log + [Published(id)])
    case Claim(id) => SetStatus(s, id, Processing).(worker := Holding(id), log := s.log + [Claimed(id)])
    case Invoke => s.(worker := Running(s.worker.id), log := s.log + [Handled(s.worker.id)])
    case Reject => SetStatus(s, s.worker.id, Failed).(worker := Idle)
    case Settle(ok) =>
      var id, row := s.worker.id, s.queue[s.worker.id];
      if ok then SetStatus(s, id, Completed).(worker := Idle)
      else if row.attempts + 1 >= row.maxAttempts then ToDlq(s, id).(worker := Idle)
      else SetStatus(s, id, Failed).(worker := Idle)
    case Crash => s.(worker := Idle)
  }

  // ---------- The store and the worker ----------

  const EMPTY := State(map[], map[], Idle, [])

  class JobStore {
    const handlers: set<string>
    var queue: map<Id, Row>
    var dlq: map<Id, Row>
    ghost var worker: Worker
    ghost var log: seq<Event>

    constructor (handlers: set<string>)
      ensures this.handlers == handlers && View() == EMPTY
    {
      this.handlers, queue, dlq, worker, log := handlers, map[], map[], Idle, [];
    }

    ghost function View(): State
      reads this
    {
      State(queue, dlq, worker, log)
    }

    method PublishJob(id: Id, kind: string, priority: int, scheduledFor: int, maxAttempts: int)
      requires Enabled(handlers, View(), Publish(id, kind, priority, scheduledFor, maxAttempts))
      modifies this
      ensures View() == Apply(handlers, old(View()), Publish(id, kind, priority, scheduledFor, maxAttempts))
    {
      queue := queue[id := Row(kind, priority, scheduledFor, 0, maxAttempts, Queued)];
      log := log + [Published(id)];
    }

    method ClaimNextJob() returns (r: Option<Id>)
      requires worker == Idle
      modifies this
      ensures r.None? ==> QueuedIds(old(View())) == {} && View() == old(View())
      ensures r.Some? ==> Enabled(handlers, old(View()), Claim(r.value)) && View() == Apply(handlers, old(View()), Claim(r.value))
    {
      var queued := set x | x in queue && queue[x].status == Queued;
      assert queued == QueuedIds(View());
      if queued == {} {
        return None;
      }
      ghost var someNext := NextExists(View(), queued);
      assert someNext in queue && IsNext(View(), someNext);
      var id :| id in queue && queue[id].status == Queued
                && forall x :: x in queue && queue[x].status == Queued ==> NoLater(queue[id], queue[x]);
      assert IsNext(View(), id);
      queue := queue[id := queue[id].(status := Processing)];
      worker, log := Holding(id), log + [Claimed(id)];
      return Some(id);
    }

    method CompleteJob(id: Id)
      requires id in queue
      modifies this`queue
      ensures View() == SetStatus(old(View()), id, Completed)
    {
      queue := queue[id := queue[id].(status := Completed)];
    }

    method FailJob(id: Id)
      requires id in queue
      modifies this`queue
      ensures View() == SetStatus(old(View()), id, Failed)
    {
      queue := queue[id := queue[id].(status := Failed)];
    }

    method SendToDlq(id: Id)
      modifies this`queue, this`dlq
      ensures View() == if id in old(queue) then ToDlq(old(View()), id) else old(View())
    {
      if id !in queue {
        return;
      }
      dlq := dlq[id := queue[id]];
      queue := queue - {id};
    }

    /** `processNextJob`; `returnsOk` says whether the handler of a job would return rather than throw. */
    method ProcessNextJob(returnsOk: Id -> bool) returns (ghost claimed: Option<Id>, more: bool)
      requires worker == Idle
      modifies this
      ensures more == claimed.Some? && worker == Idle
      ensures claimed.None? ==> QueuedIds(old(View())) == {} && View() == old(View())
      ensures claimed.Some? ==> IsNext(old(View()), claimed.value)
                                && View() == Processed(handlers, old(View()), claimed.value, returnsOk(claimed.value))
    {
      var job := ClaimNextJob();
      claimed := job;
      if job.None? {
        return job, false;
      }
      var id := job.value;
      var row := queue[id];
      if row.kind !in handlers {
        FailJob(id);
        worker := Idle;
        return job, true;
      }
      worker, log := Running(id), log + [Handled(id)];
      if returnsOk(id) {
        CompleteJob(id);
      } else if row.attempts + 1 >= row.maxAttempts {
        SendToDlq(id);
      } else {
        FailJob(id);
      }
      worker := Idle;
      return job, true;
    }

    /** The worker loop with nothing new published. */
    method Drain(returnsOk: Id -> bool) returns (ghost order: seq<Id>)
      requires worker == Idle
      modifies this
      ensures QueuedIds(View()) == {} && worker == Idle
      ensures DrainedInOrder(handlers, old(View()), order, returnsOk, View())
    {
      order := [];
      var more := true;
      while more
        invariant worker == Idle
        invariant DrainedInOrder(handlers, old(View()), order, returnsOk, View())
        invariant !more ==> QueuedIds(View()) == {}
        decreases QueuedIds(View()), more
      {
        ghost var before := View();
        ghost var claimed: Option<Id>;
        claimed, more := ProcessNextJob(returnsOk);
        if claimed.Some? {
          ProcessedFacts(handlers, before, claimed.value, returnsOk(claimed.value));
          order := order + [claimed.value];
          assert order[..|order| - 1] + [claimed.value] == order;
        }
      }
    }
  }

  /** One iteration as three steps of the machine. */
  function Processed(handlers: set<string>, s: State, id: Id, ok: bool): State
    requires s.worker == Idle && IsNext(s, id)
  {
    var held := Apply(handlers, s, Claim(id));
    if s.queue[id].kind in handlers then Apply(handlers, Apply(handlers, held, Invoke), Settle(ok))
    else Apply(handlers, held, Reject)
  }

  lemma ProcessedFacts(handlers: set<string>, s: State, id: Id, ok: bool)
    requires s.worker == Idle && IsNext(s, id)
    ensures QueuedIds(Processed(handlers, s, id, ok)) == QueuedIds(s) - {id}
    ensures Processed(handlers, s, id, ok).worker == Idle
    ensures var t := Processed(handlers, s, id, ok);
            forall x :: x != id && x in s.queue && x in t.queue ==> t.queue[x] == s.queue[x]
  {
  }

  /** Processing the ids of `order` one after another, each the next at its turn, leads from `s` to `end`. */
  ghost predicate DrainedInOrder(handlers: set<string>, s: State, order: seq<Id>, ok: Id -> bool, end: State)
    decreases |order|
  {
    if order == [] then end == s
    else
      var n := |order| - 1;
      exists mid: State :: mid.worker == Idle && IsNext(mid, order[n]) && DrainedInOrder(handlers, s, order[..n], ok, mid)
                    && end == Processed(handlers, mid, order[n], ok(order[n]))
  }

  /** The claimed ids are distinct and sorted by the claim query, and no later than what is still queued. */
  ghost predicate ClaimedInOrder(s: State, order: seq<Id>, rest: set<Id>) {
    && (forall i :: 0 <= i < |order| ==> order[i] in s.queue)
    && (forall i, j :: 0 <= i < j < |order| ==> order[i] != order[j] && NoLater(s.queue[order[i]], s.queue[order[j]]))
    && (forall i, x :: 0 <= i < |order| && x in rest && x in s.queue ==> NoLater(s.queue[order[i]], s.queue[x]))
  }

  lemma ClaimOneMore(s: State, order: seq<Id>, rest: set<Id>, id: Id)
    requires ClaimedInOrder(s, order, rest) && id in rest && id in s.queue && id !in order
    requires forall x :: x in rest && x in s.queue ==> NoLater(s.queue[id], s.queue[x])
    ensures ClaimedInOrder(s, order + [id], rest - {id})
  {
    forall i, j | 0 <= i < j < |order + [id]|
      ensures (order + [id])[i] != (order + [id])[j] && NoLater(s.queue[(order + [id])[i]], s.queue[(order + [id])[j]])
    {
      if j == |order| { assert order[i] in order; }
    }
  }

  /** Every job queued in `s` and not in `end` was claimed exactly once, in query order; the rest is untouched. */
  ghost predicate ClaimedOnceInOrder(s: State, order: seq<Id>, end: State) {
    && QueuedIds(end) <= QueuedIds(s)
    && (forall x :: x in QueuedIds(end) ==> s.queue[x] == end.queue[x])
    && (forall x :: x in order <==> x in QueuedIds(s) - QueuedIds(end))
    && ClaimedInOrder(s, order, QueuedIds(end))
  }

  /** Draining claims in non-decreasing (priority, scheduledFor) order, no job twice; drained to the end, it claims every queued job. */
  lemma {:induction false} DrainClaimsAllInOrder(handlers: set<string>, s: State, order: seq<Id>, ok: Id -> bool, end: State)
    requires DrainedInOrder(handlers, s, order, ok, end)
    ensures ClaimedOnceInOrder(s, order, end)
    decreases |order|
  {
    hide ClaimedOnceInOrder, Takes, Processed, IsNext;
    if order == [] {
      NothingClaimed(s);
    } else {
      hide DrainedInOrder;
      var n := |order| - 1;
      var mid := BeforeLastClaim(handlers, s, order, ok, end);
      DrainClaimsAllInOrder(handlers, s, order[..n], ok, mid);
      assert order[..n] + [order[n]] == order;
      ClaimStep(s, mid, end, order[..n], order[n]);
    }
  }

  /** So a drained queue was worked off by ascending priority number, and by ascending schedule within one. */
  lemma DrainAscends(handlers: set<string>, s: State, order: seq<Id>, ok: Id -> bool, end: State, i: nat, j: nat)
    requires DrainedInOrder(handlers, s, order, ok, end) && i < j < |order|
    ensures order[i] in s.queue && order[j] in s.queue
    ensures var a, b := s.queue[order[i]], s.queue[order[j]];
            a.priority < b.priority || (a.priority == b.priority && a.scheduledFor <= b.scheduledFor)
  {
    DrainClaimsAllInOrder(handlers, s, order, ok, end);
    hide DrainedInOrder;
  }

  lemma NothingClaimed(s: State)
    ensures ClaimedOnceInOrder(s, [], s)
  {
  }

  lemma BeforeLastClaim(handlers: set<string>, s: State, order: seq<Id>, ok: Id -> bool, end: State) returns (mid: State)
    requires order != [] && DrainedInOrder(handlers, s, order, ok, end)
    ensures var n := |order| - 1;
            DrainedInOrder(handlers, s, order[..n], ok, mid) && Takes(mid, order[n], end)
  {
    var id := order[|order| - 1];
    mid :| mid.worker == Idle && IsNext(mid, id) && DrainedInOrder(handlers, s, order[..|order| - 1], ok, mid)
           && end == Processed(handlers, mid, id, ok(id));
    ProcessedFacts(handlers, mid, id, ok(id));
  }

  /** Processing `id` takes it off the queued rows and leaves the others alone. */
  ghost predicate Takes(mid: State, id: Id, end: State) {
    IsNext(mid, id) && QueuedIds(end) == QueuedIds(mid) - {id}
    && forall x :: x != id && x in mid.queue && x in end.queue ==> end.queue[x] == mid.queue[x]
  }

  lemma ClaimStep(s: State, mid: State, end: State, before: seq<Id>, id: Id)
    requires ClaimedOnceInOrder(s, before, mid) && Takes(mid, id, end)
    ensures ClaimedOnceInOrder(s, before + [id], end)
  {
    hide NoLater, ClaimedInOrder;
    assert id in QueuedIds(mid);
    assert forall x :: x in QueuedIds(mid) ==> NoLater(s.queue[id], s.queue[x]);
    ClaimOneMore(s, before, QueuedIds(mid), id);
  }

  // ---------- Every run ----------

  ghost predicate IsRun(handlers: set<string>, states: seq<State>, steps: seq<Step>) {
    |states| == |steps| + 1 && states[0] == EMPTY
    && forall i :: 0 <= i < |steps| ==> Enabled(handlers, states[i], steps[i]) && states[i + 1] == Apply(handlers, states[i], steps[i])
  }

  function Times(s: State, e: Event): nat { multiset(s.log)[e] }

  /** What the log says about a job, from where its row is. */
  predicate Accounted(s: State, id: Id) {
    && !(id in s.queue && id in s.dlq)
    && Times(s, Published(id)) == (if Knows(s, id) then 1 else 0)
    && Times(s, Claimed(id)) == (if Knows(s, id) && !IsQueued(s, id) then 1 else 0)
    && Times(s, Handled(id)) <= Times(s, Claimed(id))
    && (s.worker == Holding(id) ==> Times(s, Handled(id)) == 0 && id in s.queue && s.queue[id].status == Processing)
    && (s.worker == Running(id) ==> id in s.queue && s.queue[id].status == Processing)
    && (id in s.queue ==> s.queue[id].attempts == 0)
    && (id in s.dlq ==> s.dlq[id].maxAttempts <= 1)
  }

  lemma StepAccounts(handlers: set<string>, s: State, step: Step, id: Id)
    requires Enabled(handlers, s, step) && Accounted(s, id)
    requires step.Settle? || step.Reject? ==> Accounted(s, s.worker.id)
    ensures Accounted(Apply(handlers, s, step), id)
  {
    if step.Publish? || step.Claim? || step.Invoke? {
      LoggedStepAccounts(handlers, s, step, id);
    } else if step.Settle? {
      SettleAccounts(handlers, s, step.ok, id);
    }
  }

  lemma LoggedStepAccounts(handlers: set<string>, s: State, step: Step, id: Id)
    requires Enabled(handlers, s, step) && Accounted(s, id) && (step.Publish? || step.Claim? || step.Invoke?)
    ensures Accounted(Apply(handlers, s, step), id)
  {
    var t := Apply(handlers, s, step);
    LogGrows(s, t, Published(id));
    LogGrows(s, t, Claimed(id));
    LogGrows(s, t, Handled(id));
    hide Times;
  }

  lemma SettleAccounts(handlers: set<string>, s: State, ok: bool, id: Id)
    requires Enabled(handlers, s, Settle(ok)) && Accounted(s, id) && Accounted(s, s.worker.id)
    ensures Accounted(Apply(handlers, s, Settle(ok)), id)
  {
    var t := Apply(handlers, s, Settle(ok));
    assert Times(t, Published(id)) == Times(s, Published(id)) && Times(t, Claimed(id)) == Times(s, Claimed(id))
           && Times(t, Handled(id)) == Times(s, Handled(id));
    hide Times;
  }

  lemma LogGrows(s: State, t: State, e: Event)
    requires t.log == s.log || exists x :: t.log == s.log + [x]
    ensures Times(t, e) == Times(s, e) + if t.log != s.log && t.log[|s.log|] == e then 1 else 0
  {
  }

  lemma EmptyAccounts(id: Id)
    ensures Accounted(EMPTY, id)
  {
  }

  lemma {:induction false} RunAccounts(handlers: set<string>, states: seq<State>, steps: seq<Step>, i: nat, id: Id)
    requires IsRun(handlers, states, steps) && i < |states|
    ensures Accounted(states[i], id)
  {
    hide Accounted, Apply;
    if i == 0 {
      EmptyAccounts(id);
    } else {
      RunAccounts(handlers, states, steps, i - 1, id);
      assert Enabled(handlers, states[i - 1], steps[i - 1]) && states[i] == Apply(handlers, states[i - 1], steps[i - 1]);
      if steps[i - 1].Settle? || steps[i - 1].Reject? { RunAccounts(handlers, states, steps, i - 1, states[i - 1].worker.id); }
      StepAccounts(handlers, states[i - 1], steps[i - 1], id);
    }
  }

  /** In every run, crashes included, the published ids are the disjoint union of the queue's and the dead letters'. */
  lemma IdsAreConserved(handlers: set<string>, states: seq<State>, steps: seq<Step>, i: nat, id: Id)
    requires IsRun(handlers, states, steps) && i < |states|
    ensures Published(id) in states[i].log <==> id in states[i].queue.Keys + states[i].dlq.Keys
    ensures id !in states[i].queue.Keys * states[i].dlq.Keys
    ensures multiset(states[i].log)[Published(id)] <= 1
  {
    RunAccounts(handlers, states, steps, i, id);
  }

  /** What each step does to the row it is about; every other row, and the dead letters but for a job moved there, stay as they are. */
  lemma RowAfterStep(handlers: set<string>, states: seq<State>, steps: seq<Step>, i: nat)
    requires IsRun(handlers, states, steps) && i < |steps|
    ensures var s, t := states[i], states[i + 1];
            match steps[i]
            case Publish(id, kind, priority, at, max) =>
              t.queue == s.queue[id := Row(kind, priority, at, 0, max, Queued)] && t.dlq == s.dlq && t.worker == s.worker && t.log == s.log + [Published(id)]
            case Claim(id) =>   // the lowest priority number first, then the earliest schedule
              && id in s.queue && s.queue[id].status == Queued
              && (forall x :: x in s.queue && s.queue[x].status == Queued ==>
                    s.queue[id].priority <= s.queue[x].priority
                    && (s.queue[id].priority == s.queue[x].priority ==> s.queue[id].scheduledFor <= s.queue[x].scheduledFor))
              && t.queue == s.queue[id := s.queue[id].(status := Processing)] && t.dlq == s.dlq && t.worker == Holding(id)
              && t.log == s.log + [Claimed(id)]
            case Invoke =>
              && s.worker.Holding? && t.worker == Running(s.worker.id) && t.queue == s.queue && t.dlq == s.dlq
              && t.log == s.log + [Handled(s.worker.id)]
              && s.worker.id in s.queue && s.queue[s.worker.id].kind in handlers
            case Reject =>   // no handler
              && s.worker.Holding? && s.worker.id in s.queue && s.queue[s.worker.id].kind !in handlers
              && t.queue == s.queue[s.worker.id := s.queue[s.worker.id].(status := Failed)] && t.dlq == s.dlq && t.worker == Idle
            case Settle(ok) =>
              && s.worker.Running? && s.worker.id in s.queue && t.worker == Idle
              && (ok ==> t.queue == s.queue[s.worker.id := s.queue[s.worker.id].(status := Completed)] && t.dlq == s.dlq)
              && (!ok && s.queue[s.worker.id].maxAttempts <= 1 ==>
                    t.queue == s.queue - {s.worker.id} && t.dlq == s.dlq[s.worker.id := s.queue[s.worker.id]])
              && (!ok && s.queue[s.worker.id].maxAttempts > 1 ==>
                    t.queue == s.queue[s.worker.id := s.queue[s.worker.id].(status := Failed)] && t.dlq == s.dlq)
            case Crash => t.queue == s.queue && t.dlq == s.dlq && t.worker == Idle
  {
    assert Enabled(handlers, states[i], steps[i]) && states[i + 1] == Apply(handlers, states[i], steps[i]);
    if steps[i].Settle? { RunAccounts(handlers, states, steps, i, states[i].worker.id); }
  }

  /** No job is claimed or handed to its handler twice. */
  lemma HandledAtMostOnce(handlers: set<string>, states: seq<State>, steps: seq<Step>, i: nat, id: Id)
    requires IsRun(handlers, states, steps) && i < |states|
    ensures multiset(states[i].log)[Handled(id)] <= multiset(states[i].log)[Claimed(id)] <= 1
  {
    RunAccounts(handlers, states, steps, i, id);
  }

  /** Once a row has left `queued`, no step brings it back: a failed or stranded job is never claimed again. */
  lemma {:induction false} NeverQueuedAgain(handlers: set<string>, states: seq<State>, steps: seq<Step>, i: nat, j: nat, id: Id)
    requires IsRun(handlers, states, steps) && i <= j < |states|
    requires Knows(states[i], id) && !IsQueued(states[i], id)
    ensures Knows(states[j], id) && !IsQueued(states[j], id)
  {
    if i < j {
      NeverQueuedAgain(handlers, states, steps, i, j - 1, id);
      assert Enabled(handlers, states[j - 1], steps[j - 1]) && states[j] == Apply(handlers, states[j - 1], steps[j - 1]);
    }
  }

  /**
   `attempts` is read but never written, so a throwing handler sends its job to the dead letters
   exactly when the job allows at most one attempt; with more allowed it fails for good after one.
   */
  lemma DeadLetteredExactlyWhenOneAttempt(handlers: set<string>, states: seq<State>, steps: seq<Step>, i: nat)
    requires IsRun(handlers, states, steps) && i < |steps| && steps[i] == Settle(false)
    ensures var id, s, t := states[i].worker.id, states[i], states[i + 1];
            && id in s.queue
            && (id in t.dlq <==> s.queue[id].maxAttempts <= 1)
            && (id !in t.dlq ==> id in t.queue && t.queue[id].status == Failed)
  {
    assert Enabled(handlers, states[i], steps[i]) && states[i + 1] == Apply(handlers, states[i], steps[i]);
    RunAccounts(handlers, states, steps, i, states[i].worker.id);
  }

  /** A crash between claim and settlement strands the row in `processing`, whatever runs afterwards. */
  lemma {:induction false} CrashStrands(handlers: set<string>, states: seq<State>, steps: seq<Step>, i: nat, j: nat)
    requires IsRun(handlers, states, steps) && i < j < |states| && steps[i] == Crash && states[i].worker != Idle
    ensures var id := states[i].worker.id;
            id in states[j].queue && states[j].queue[id].status == Processing && states[j].worker !in {Holding(id), Running(id)}
    decreases j
  {
    var id := states[i].worker.id;
    assert Enabled(handlers, states[j - 1], steps[j - 1]) && states[j] == Apply(handlers, states[j - 1], steps[j - 1]);
    RunAccounts(handlers, states, steps, i, id);
    if i + 1 < j { CrashStrands(handlers, states, steps, i, j - 1); }
  }
}
