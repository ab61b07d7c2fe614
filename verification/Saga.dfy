/**
 Compensating actions. The outside world is a value of type S that actions transform; an action
 that throws and a compensation that throws or times out may leave it in any state.
 */
module Saga {
  import opened Common

  datatype Executed<S, T> = Done(world: S, result: T) | Threw(world: S)

  datatype Settled = Settled | Rejected | TimedOut

  datatype Compensated<S> = Compensated(world: S, how: Settled)

  datatype Action<!S, !T> = Action(execute: S -> Executed<S, T>, compensate: S -> Compensated<S>)

  /** What was called, by action index. */
  datatype Call = Execute(i: nat) | Compensate(i: nat)

  datatype Outcome<S, T> = Outcome(world: S, results: Option<seq<T>>, calls: seq<Call>)

  // ---------- The specification ----------

  /** The first `k` actions all complete when run in order from `s`. */
  predicate Completes<S, T>(actions: seq<Action<S, T>>, k: nat, s: S)
    requires k <= |actions|
  {
    k == 0 || (Completes(actions, k - 1, s) && actions[k - 1].execute(WorldAfter(actions, k - 1, s)).Done?)
  }

  function WorldAfter<S, T>(actions: seq<Action<S, T>>, k: nat, s: S): S
    requires k <= |actions|
  {
    if k == 0 then s else actions[k - 1].execute(WorldAfter(actions, k - 1, s)).world
  }

  /** Compensating actions k-1, ..., 0, whatever each attempt comes to. */
  function UndoWorld<S, T>(actions: seq<Action<S, T>>, k: nat, s: S): S
    requires k <= |actions|
  {
    if k == 0 then s else UndoWorld(actions, k - 1, actions[k - 1].compensate(s).world)
  }

  function Forward(k: nat): seq<Call> { seq(k, i requires 0 <= i < k => Execute(i)) }

  function Backward(k: nat): seq<Call> { seq(k, i requires 0 <= i < k => Compensate(k - 1 - i)) }

  /** A failed run: action `k` was the first to throw, and exactly the completed prefix was compensated, in reverse, each once. */
  ghost predicate FailsAt<S(!new), T(!new)>(actions: seq<Action<S, T>>, s: S, k: nat, o: Outcome<S, T>) {
    && k < |actions| && Completes(actions, k, s)
    && actions[k].execute(WorldAfter(actions, k, s)).Threw?
    && o.results.None?
    && o.calls == Forward(k + 1) + Backward(k)
    && o.world == UndoWorld(actions, k, actions[k].execute(WorldAfter(actions, k, s)).world)
  }

  /** A successful run: every action once in order, one result per action, no compensation. */
  ghost predicate Succeeds<S(!new), T(!new)>(actions: seq<Action<S, T>>, s: S, o: Outcome<S, T>) {
    && Completes(actions, |actions|, s)
    && o.results.Some? && |o.results.value| == |actions|
    && (forall i :: 0 <= i < |actions| ==>
          actions[i].execute(WorldAfter(actions, i, s)) == Done(WorldAfter(actions, i + 1, s), o.results.value[i]))
    && o.calls == Forward(|actions|)
    && o.world == WorldAfter(actions, |actions|, s)
  }

  // ---------- The method ----------

  method ExecuteWithCompensation<S(!new), T(!new)>(actions: seq<Action<S, T>>, initial: S) returns (o: Outcome<S, T>)
    ensures Succeeds(actions, initial, o) || exists k :: FailsAt(actions, initial, k, o)
  {
    var world := initial;
    var completed: seq<nat> := [];
    var results: seq<T> := [];
    var calls: seq<Call> := [];
    for i := 0 to |actions|
      invariant Completes(actions, i, initial) && world == WorldAfter(actions, i, initial)
      invariant |completed| == i && forall j :: 0 <= j < i ==> completed[j] == j
      invariant calls == Forward(i)
      invariant |results| == i && forall j :: 0 <= j < i ==>
                  actions[j].execute(WorldAfter(actions, j, initial)) == Done(WorldAfter(actions, j + 1, initial), results[j])
    {
      calls := calls + [Execute(i)];
      match actions[i].execute(world)
      case Done(after, result) =>
        world := after;
        results := results + [result];
        completed := completed + [i];
      case Threw(after) =>
        world := after;
        var undone := 0;
        while undone < |completed|
          invariant 0 <= undone <= i
          invariant UndoWorld(actions, i - undone, world) == UndoWorld(actions, i, after)
          invariant calls == Forward(i + 1) + Backward(i)[..undone]
        {
          var done := completed[|completed| - 1 - undone];
          calls := calls + [Compensate(done)];
          world := actions[done].compensate(world).world;
          undone := undone + 1;
        }
        o := Outcome(world, None, calls);
        assert FailsAt(actions, initial, i, o);
        return;
    }
    return Outcome(world, Some(results), calls);
  }

  // ---------- Theorems ----------

  /** `compensate` takes back what `execute` did, wherever it was done. */
  ghost predicate Undoes<S(!new), T(!new)>(a: Action<S, T>) {
    forall s :: a.execute(s).Done? ==> a.compensate(a.execute(s).world) == Compensated(s, Settled)
  }

  ghost predicate FailsCleanly<S(!new), T(!new)>(a: Action<S, T>) {
    forall s :: a.execute(s).Threw? ==> a.execute(s).world == s
  }

  lemma {:induction false} UndoRestores<S(!new), T(!new)>(actions: seq<Action<S, T>>, k: nat, s: S)
    requires k <= |actions| && Completes(actions, k, s)
    requires forall a :: a in actions ==> Undoes(a)
    ensures UndoWorld(actions, k, WorldAfter(actions, k, s)) == s
  {
    if k > 0 {
      UndoRestores(actions, k - 1, s);
      var a, before := actions[k - 1], WorldAfter(actions, k - 1, s);
      assert Undoes(a) && a.compensate(a.execute(before).world).world == before;
    }
  }

  /**
   All or nothing: when each compensation undoes its action and a failing action changes nothing,
   a failed run leaves the world as it was.
   */
  lemma AllOrNothing<S(!new), T(!new)>(actions: seq<Action<S, T>>, s: S, k: nat, o: Outcome<S, T>)
    requires FailsAt(actions, s, k, o)
    requires forall a :: a in actions ==> Undoes(a) && FailsCleanly(a)
    ensures o.world == s
  {
    assert actions[k] in actions && FailsCleanly(actions[k]);
    UndoRestores(actions, k, s);
  }

  /** A run either succeeds or fails, at one place: its outcome is determined. */
  lemma OutcomeIsDetermined<S(!new), T(!new)>(actions: seq<Action<S, T>>, s: S, k: nat, j: nat, o: Outcome<S, T>, p: Outcome<S, T>)
    requires FailsAt(actions, s, k, o)
    ensures FailsAt(actions, s, j, p) ==> k == j && o == p
    ensures !Succeeds(actions, s, p)
  {
    if j <= |actions| && Completes(actions, j, s) { FirstThrow(actions, s, k, j); }
    if Completes(actions, |actions|, s) { FirstThrow(actions, s, k, |actions|); }
    if FailsAt(actions, s, j, p) { FirstThrow(actions, s, j, k); }
  }

  /** Nothing completes past an action that throws. */
  lemma {:induction false} FirstThrow<S(!new), T(!new)>(actions: seq<Action<S, T>>, s: S, k: nat, j: nat)
    requires k < |actions| && j <= |actions| && actions[k].execute(WorldAfter(actions, k, s)).Threw? && Completes(actions, j, s)
    ensures j <= k
  {
    if j > k + 1 { FirstThrow(actions, s, k, j - 1); }
  }

  /** A failing or timed-out compensation does not stop the others: in a failed run every completed action is compensated exactly once. */
  lemma EveryCompletedActionCompensatedOnce<S(!new), T(!new)>(actions: seq<Action<S, T>>, s: S, k: nat, o: Outcome<S, T>, i: nat)
    requires FailsAt(actions, s, k, o)
    ensures multiset(o.calls)[Compensate(i)] == if i < k then 1 else 0
    ensures multiset(o.calls)[Execute(i)] == if i <= k then 1 else 0
  {
    ForwardCounts(k + 1, i);
    BackwardCounts(k, i);
  }

  lemma {:induction false} ForwardCounts(k: nat, i: nat)
    ensures multiset(Forward(k))[Execute(i)] == if i < k then 1 else 0
    ensures multiset(Forward(k))[Compensate(i)] == 0
  {
    if k > 0 {
      ForwardCounts(k - 1, i);
      assert Forward(k) == Forward(k - 1) + [Execute(k - 1)];
    }
  }

  lemma {:induction false} BackwardCounts(k: nat, i: nat)
    ensures multiset(Backward(k))[Compensate(i)] == if i < k then 1 else 0
    ensures multiset(Backward(k))[Execute(i)] == 0
  {
    if k > 0 {
      BackwardCounts(k - 1, i);
      assert Backward(k) == [Compensate(k - 1)] + Backward(k - 1);
    }
  }

  /** A compensation that times out is passed over: the caller gets the original error, and the world keeps what was not undone. */
  lemma FailedCompensationLeavesResidue()
    ensures exists actions: seq<Action<int, ()>>, k, o ::
              && FailsAt(actions, 0, k, o)
              && (forall a :: a in actions ==> FailsCleanly(a))
              && o.world != 0
  {
    var add: Action<int, ()> := Action((s: int) => Done(s + 1, ()), (s: int) => Compensated(s, TimedOut));
    var throw_: Action<int, ()> := Action((s: int) => Threw(s), (s: int) => Compensated(s, Settled));
    var actions := [add, throw_];
    assert WorldAfter(actions, 0, 0) == 0;
    assert Completes(actions, 0, 0);
    assert Completes(actions, 1, 0);
    assert WorldAfter(actions, 1, 0) == 1;
    var o: Outcome<int, ()> := Outcome(1, None, Forward(2) + Backward(1));
    assert UndoWorld(actions, 0, 1) == 1;
    assert UndoWorld(actions, 1, 1) == 1;
    assert FailsAt(actions, 0, 1, o);
  }
}
