/**
 `mapConcurrent`: workers sharing one cursor. A worker runs without interruption between
 two awaits, so a step is either its start or the settling of the call it waits for, up to
 its next claim. The scheduler may let any worker step next.
 */
module MapConcurrent {
  import opened Common

  datatype Pc = Fresh | Awaiting(idx: nat) | Done | Rejected

  datatype Pool<!R> = Pool(next: nat, workers: seq<Pc>, results: seq<Option<R>>, claimed: seq<nat>)

  function Workers(concurrency: int, n: nat): nat { Max(0, Min(concurrency, n)) }

  function Start<R>(concurrency: int, n: nat): Pool<R> {
    Pool(0, seq(Workers(concurrency, n), _ => Fresh), seq(n, _ => None), [])
  }

  predicate CanStep<R>(p: Pool<R>, w: nat) {
    w < |p.workers| && (p.workers[w].Fresh? || p.workers[w].Awaiting?)
  }

  /** The loop test and `nextIndex++` of worker `w`. */
  function Claim<R>(p: Pool<R>, w: nat): Pool<R>
    requires w < |p.workers|
  {
    if p.next < |p.results| then
      p.(workers := p.workers[w := Awaiting(p.next)], next := p.next + 1, claimed := p.claimed + [p.next])
    else p.(workers := p.workers[w := Done])
  }

  function Step<R, E>(p: Pool<R>, w: nat, f: nat -> Result<R, E>): Pool<R>
    requires CanStep(p, w) && (p.workers[w].Awaiting? ==> p.workers[w].idx < |p.results|)
  {
    match p.workers[w]
    case Awaiting(idx) =>
      (match f(idx)
       case Ok(r) => Claim(p.(results := p.results[idx := Some(r)]), w)
       case Err(_) => p.(workers := p.workers[w := Rejected]))
    case _ => Claim(p, w)
  }

  predicate InFlight<R>(p: Pool<R>, i: nat) {
    exists w :: 0 <= w < |p.workers| && p.workers[w] == Awaiting(i)
  }

  predicate AnyRejected<R>(p: Pool<R>) {
    exists w :: 0 <= w < |p.workers| && p.workers[w] == Rejected
  }

  /** Index `i` is accounted for: unclaimed, running, stored, or its call was rejected. */
  ghost predicate Accounted<R, E>(p: Pool<R>, f: nat -> Result<R, E>, i: nat)
    requires i < |p.results|
  {
    && (p.results[i].Some? ==> i < p.next && f(i) == Ok(p.results[i].value) && !InFlight(p, i))
    && (i < p.next && p.results[i].None? ==> InFlight(p, i) || (f(i).Err? && AnyRejected(p)))
  }

  ghost predicate Inv<R, E>(p: Pool<R>, f: nat -> Result<R, E>) {
    && p.next <= |p.results|
    && p.claimed == seq(p.next, i requires 0 <= i < p.next => i)
    && (forall w :: 0 <= w < |p.workers| && p.workers[w].Awaiting? ==> p.workers[w].idx < p.next)
    && (forall v, w :: 0 <= v < w < |p.workers| && p.workers[v].Awaiting? ==> p.workers[v] != p.workers[w])
    && (forall w :: 0 <= w < |p.workers| && p.workers[w].Done? ==> p.next == |p.results|)
    && (forall i :: 0 <= i < |p.results| ==> Accounted(p, f, i))
    && (AnyRejected(p) ==> exists i :: 0 <= i < p.next && f(i).Err?)
  }

  lemma StartInv<R, E>(concurrency: int, n: nat, f: nat -> Result<R, E>)
    ensures Inv(Start<R>(concurrency, n), f)
  {
  }

  lemma AccountedClaim<R, E>(p: Pool<R>, q: Pool<R>, w: nat, f: nat -> Result<R, E>, i: nat)
    requires w < |p.workers| && i < |p.results| && p.next <= |p.results| && !p.workers[w].Rejected?
    requires q == Claim(p, w)
    requires forall v :: 0 <= v < |p.workers| && p.workers[v].Awaiting? ==> p.workers[v].idx < p.next
    requires p.results[i].Some? ==> i < p.next && f(i) == Ok(p.results[i].value)
    requires p.results[i].Some? ==> forall v :: 0 <= v < |p.workers| && v != w ==> p.workers[v] != Awaiting(i)
    requires i < p.next && p.results[i].None? ==>
               (exists v :: 0 <= v < |p.workers| && v != w && p.workers[v] == Awaiting(i)) || (f(i).Err? && AnyRejected(p))
    ensures Accounted(q, f, i)
  {
    if i < p.next && p.results[i].None? {
      if v :| 0 <= v < |p.workers| && v != w && p.workers[v] == Awaiting(i) {
        assert q.workers[v] == Awaiting(i);
      } else {
        var v :| 0 <= v < |p.workers| && p.workers[v] == Rejected;
        assert q.workers[v] == Rejected;
      }
    } else if i == p.next {
      assert q.workers[w] == Awaiting(i);
    }
  }

  lemma StepInv<R, E>(p: Pool<R>, w: nat, f: nat -> Result<R, E>)
    requires Inv(p, f) && CanStep(p, w)
    ensures Inv(Step(p, w, f), f)
  {
    var q := Step(p, w, f);
    forall i | 0 <= i < |p.results| ensures Accounted(q, f, i) {
      assert Accounted(p, f, i);
      if p.workers[w].Fresh? {
        AccountedClaim(p, q, w, f, i);
      } else if f(p.workers[w].idx).Ok? {
        var idx := p.workers[w].idx;
        AccountedClaim(p.(results := p.results[idx := Some(f(idx).value)]), q, w, f, i);
      } else {
        assert q.workers[w] == Rejected;
        if v :| 0 <= v < |p.workers| && p.workers[v] == Awaiting(i) && v != w { assert q.workers[v] == Awaiting(i); }
      }
    }
    if v :| 0 <= v < |q.workers| && q.workers[v] == Rejected {
      if v != w { assert p.workers[v] == Rejected; }
    }
  }

  // ---------- Termination ----------

  function Weight(workers: seq<Pc>): nat {
    if workers == [] then 0
    else Weight(workers[..|workers| - 1])
         + match workers[|workers| - 1] case Fresh => 2 case Awaiting(_) => 1 case _ => 0
  }

  function Measure<R>(p: Pool<R>): nat
    requires p.next <= |p.results|
  {
    3 * (|p.results| - p.next) + Weight(p.workers)
  }

  lemma {:induction false} WeightUpdate(workers: seq<Pc>, w: nat, pc: Pc)
    requires w < |workers|
    ensures Weight(workers[w := pc]) == Weight(workers) - Weight([workers[w]]) + Weight([pc])
  {
    var n := |workers| - 1;
    assert [pc][..0] == [] && [workers[w]][..0] == [];
    if w == n {
      assert workers[w := pc][..n] == workers[..n];
    } else {
      assert workers[w := pc][..n] == workers[..n][w := pc];
      WeightUpdate(workers[..n], w, pc);
    }
  }

  /** Every step of every worker lowers the measure, so no schedule runs forever. */
  lemma StepDecreases<R, E>(p: Pool<R>, w: nat, f: nat -> Result<R, E>)
    requires Inv(p, f) && CanStep(p, w)
    ensures Step(p, w, f).next <= |Step(p, w, f).results| && Measure(Step(p, w, f)) < Measure(p)
  {
    var pc := Step(p, w, f).workers[w];
    WeightUpdate(p.workers, w, pc);
    assert [pc][..0] == [] && [p.workers[w]][..0] == [];
  }

  // ---------- What callers rely on ----------

  function CallsInFlight<R>(p: Pool<R>): set<nat> {
    set w | 0 <= w < |p.workers| && p.workers[w].Awaiting? :: p.workers[w].idx
  }

  lemma {:induction false} InFlightAtMost(workers: seq<Pc>)
    ensures |set w | 0 <= w < |workers| && workers[w].Awaiting? :: workers[w].idx| <= |workers|
  {
    var flying := set w | 0 <= w < |workers| && workers[w].Awaiting? :: workers[w].idx;
    if workers == [] {
      assert flying == {};
    } else {
      var n := |workers| - 1;
      var init := workers[..n];
      InFlightAtMost(init);
      var before := set w | 0 <= w < |init| && init[w].Awaiting? :: init[w].idx;
      var last := if workers[n].Awaiting? then {workers[n].idx} else {};
      forall x | x in flying ensures x in before + last {
        var w :| 0 <= w < |workers| && workers[w].Awaiting? && workers[w].idx == x;
        if w < n { assert init[w] == workers[w]; }
      }
      forall x | x in before + last ensures x in flying {
        if x in before {
          var w :| 0 <= w < |init| && init[w].Awaiting? && init[w].idx == x;
          assert workers[w] == init[w];
        }
      }
      assert flying == before + last;
    }
  }

  /** In every reachable state: the bound on concurrency, and each index claimed once, in order. */
  lemma ConcurrencyBounded<R, E>(p: Pool<R>, concurrency: int, f: nat -> Result<R, E>)
    requires Inv(p, f) && |p.workers| == Workers(concurrency, |p.results|)
    ensures |CallsInFlight(p)| <= Max(0, Min(concurrency, |p.results|))
    ensures forall i, j :: 0 <= i < j < |p.claimed| ==> p.claimed[i] < p.claimed[j]
    ensures forall i :: 0 <= i < |p.results| ==> (i in p.claimed <==> i < p.next)
  {
    InFlightAtMost(p.workers);
    forall i | 0 <= i < |p.results| ensures i in p.claimed <==> i < p.next {
      if i < p.next { assert p.claimed[i] == i; }
    }
  }

  /** When no worker can step: resolved with every result in place, or rejected, never anything else. */
  lemma Final<R, E>(p: Pool<R>, concurrency: int, f: nat -> Result<R, E>)
    requires Inv(p, f) && |p.workers| == Workers(concurrency, |p.results|) && concurrency >= 1
    requires forall w :: !CanStep(p, w)
    ensures AnyRejected(p) <==> exists i :: 0 <= i < |p.results| && f(i).Err?
    ensures !AnyRejected(p) ==> forall i :: 0 <= i < |p.results| ==> p.results[i].Some? && f(i) == Ok(p.results[i].value)
  {
    if !AnyRejected(p) {
      if |p.results| > 0 {
        assert !CanStep(p, 0);
        assert p.workers[0] == Done;
      }
      forall i | 0 <= i < |p.results| ensures p.results[i].Some? && f(i) == Ok(p.results[i].value) {
        assert Accounted(p, f, i);
        if p.results[i].None? {
          var w :| 0 <= w < |p.workers| && p.workers[w] == Awaiting(i) && CanStep(p, w);
          assert false;
        }
      }
    }
  }

  // ---------- Every interleaving ----------

  /** `schedule[i]` is the worker the event loop runs next in `pools[i]`. */
  ghost predicate IsRun<R, E>(pools: seq<Pool<R>>, schedule: seq<nat>, concurrency: int, n: nat, f: nat -> Result<R, E>) {
    && |pools| == |schedule| + 1 && pools[0] == Start(concurrency, n)
    && forall i :: 0 <= i < |schedule| ==>
         && CanStep(pools[i], schedule[i])
         && (pools[i].workers[schedule[i]].Awaiting? ==> pools[i].workers[schedule[i]].idx < |pools[i].results|)
         && pools[i + 1] == Step(pools[i], schedule[i], f)
  }

  lemma {:induction false} StartWeight(m: nat)
    ensures Weight(seq(m, _ => Fresh)) == 2 * m
  {
    if m > 0 {
      assert seq(m, _ => Fresh)[..m - 1] == seq(m - 1, _ => Fresh);
      StartWeight(m - 1);
    }
  }

  lemma {:induction false} RunInv<R, E>(pools: seq<Pool<R>>, schedule: seq<nat>, concurrency: int, n: nat, f: nat -> Result<R, E>, k: nat)
    requires IsRun(pools, schedule, concurrency, n, f) && k < |pools|
    ensures Inv(pools[k], f) && |pools[k].results| == n && |pools[k].workers| == Workers(concurrency, n)
    ensures Measure(pools[k]) + k <= 3 * n + 2 * Workers(concurrency, n)
  {
    hide Measure, Inv;
    if k == 0 {
      StartInv(concurrency, n, f);
      StartMeasure<R, E>(concurrency, n, f);
    } else {
      RunInv(pools, schedule, concurrency, n, f, k - 1);
      StepInv(pools[k - 1], schedule[k - 1], f);
      StepDecreases(pools[k - 1], schedule[k - 1], f);
    }
  }

  lemma StartMeasure<R, E>(concurrency: int, n: nat, f: nat -> Result<R, E>)
    ensures Measure(Start<R>(concurrency, n)) == 3 * n + 2 * Workers(concurrency, n)
  {
    StartWeight(Workers(concurrency, n));
  }

  /**
   In every interleaving: each index is claimed at most once, at most min(concurrency, n) calls
   are in flight, the run is over after 3n + 2 * workers steps at most, and once no worker can
   step either some call was rejected or result i is f(i) for every i.
   */
  lemma EveryInterleaving<R, E>(pools: seq<Pool<R>>, schedule: seq<nat>, concurrency: int, n: nat, f: nat -> Result<R, E>, k: nat)
    requires IsRun(pools, schedule, concurrency, n, f) && k < |pools|
    ensures forall i, j :: 0 <= i < j < |pools[k].claimed| ==> pools[k].claimed[i] < pools[k].claimed[j] < n
    ensures |CallsInFlight(pools[k])| <= Max(0, Min(concurrency, n))
    ensures |schedule| <= 3 * n + 2 * Workers(concurrency, n)
    ensures concurrency >= 1 && (forall w :: !CanStep(pools[k], w)) ==>
              && (AnyRejected(pools[k]) <==> exists i :: 0 <= i < n && f(i).Err?)
              && (!AnyRejected(pools[k]) ==>
                    |pools[k].results| == n && forall i :: 0 <= i < n ==> pools[k].results[i].Some? && f(i) == Ok(pools[k].results[i].value))
  {
    RunInv(pools, schedule, concurrency, n, f, |schedule|);
    RunInv(pools, schedule, concurrency, n, f, k);
    ConcurrencyBounded(pools[k], concurrency, f);
    if concurrency >= 1 && forall w :: !CanStep(pools[k], w) {
      Final(pools[k], concurrency, f);
    }
  }

  /** The first `k` workers have each claimed an index and none has settled. */
  function Launched<R>(m: nat, n: nat, k: nat): Pool<R>
    requires k <= m <= n
  {
    Pool(k, seq(m, w requires 0 <= w < m => if w < k then Awaiting(w) else Fresh), seq(n, _ => None), seq(k, i requires 0 <= i < k => i))
  }

  lemma LaunchOneMore<R, E>(m: nat, n: nat, k: nat, f: nat -> Result<R, E>)
    requires k < m <= n
    ensures CanStep(Launched<R>(m, n, k), k) && Launched<R>(m, n, k).workers[k] == Fresh
    ensures Step(Launched<R>(m, n, k), k, f) == Launched<R>(m, n, k + 1)
  {
    var p, q := Launched<R>(m, n, k), Launched<R>(m, n, k + 1);
    assert p.workers[k := Awaiting(k)] == q.workers;
    assert p.claimed + [k] == q.claimed;
  }

  lemma {:induction false} RunToLaunched<R, E>(concurrency: int, n: nat, k: nat, f: nat -> Result<R, E>) returns (pools: seq<Pool<R>>, schedule: seq<nat>)
    requires k <= Workers(concurrency, n) <= n
    ensures IsRun(pools, schedule, concurrency, n, f) && |schedule| == k && pools[k] == Launched(Workers(concurrency, n), n, k)
  {
    var m := Workers(concurrency, n);
    if k == 0 {
      pools, schedule := [Start(concurrency, n)], [];
      assert pools[0].workers == Launched<R>(m, n, 0).workers && pools[0].claimed == Launched<R>(m, n, 0).claimed;
    } else {
      pools, schedule := RunToLaunched(concurrency, n, k - 1, f);
      LaunchOneMore(m, n, k - 1, f);
      hide Step, CanStep, Launched;
      var next: Pool<R> := Launched(m, n, k);
      pools, schedule := pools + [next], schedule + [k - 1];
    }
  }

  /** And the bound is used: there is a run in which min(concurrency, n) calls are in flight at once. */
  lemma FullConcurrencyReached<R, E>(concurrency: int, n: nat, f: nat -> Result<R, E>) returns (pools: seq<Pool<R>>, schedule: seq<nat>)
    requires concurrency >= 1
    ensures IsRun(pools, schedule, concurrency, n, f)
    ensures |CallsInFlight(pools[|schedule|])| == if concurrency < n then concurrency else n
  {
    var m := Workers(concurrency, n);
    pools, schedule := RunToLaunched(concurrency, n, m, f);
    var flying := CallsInFlight(pools[m]);
    forall i | i in FirstNumbers(m) ensures i in flying { assert pools[m].workers[i] == Awaiting(i); }
    assert flying == FirstNumbers(m);
  }

  function FirstNumbers(m: nat): (s: set<nat>)
    ensures |s| == m && forall i :: i in s <==> 0 <= i < m
  {
    if m == 0 then {} else FirstNumbers(m - 1) + {m - 1}
  }

  /**
   The method under an arbitrary scheduler. `Err(())` is the rejection of `Promise.all`.
   With `concurrency <= 0` no worker exists and the array comes back with no element set.
   */
  method MapConcurrent<T, R, E>(items: seq<T>, concurrency: int, fn: (T, nat) -> Result<R, E>)
    returns (out: Result<seq<Option<R>>, ()>)
    ensures out.Ok? ==> |out.value| == |items|
    ensures concurrency >= 1 ==> (out.Ok? <==> forall i :: 0 <= i < |items| ==> fn(items[i], i).Ok?)
    ensures concurrency >= 1 && out.Ok? ==>
              forall i :: 0 <= i < |items| ==> out.value[i].Some? && fn(items[i], i) == Ok(out.value[i].value)
    ensures concurrency <= 0 ==> out.Ok? && forall i :: 0 <= i < |items| ==> out.value[i].None?
  {
    if items == [] {
      return Ok([]);
    }
    var f := (i: nat) => if i < |items| then fn(items[i], i) else fn(items[0], 0);
    var p: Pool<R> := Start(concurrency, |items|);
    StartInv(concurrency, |items|, f);
    while exists w :: 0 <= w < |p.workers| && CanStep(p, w)
      invariant Inv(p, f) && |p.results| == |items| && |p.workers| == Workers(concurrency, |items|)
      invariant concurrency <= 0 ==> p == Start(concurrency, |items|)
      decreases Measure(p)
    {
      var w :| 0 <= w < |p.workers| && CanStep(p, w);
      StepInv(p, w, f);
      StepDecreases(p, w, f);
      p := Step(p, w, f);
    }
    assert forall i :: 0 <= i < |items| ==> f(i) == fn(items[i], i);
    if concurrency >= 1 {
      Final(p, concurrency, f);
    }
    out := if AnyRejected(p) then Err(()) else Ok(p.results);
  }
}
