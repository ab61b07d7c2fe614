/**
 The two circuit breakers. A call is an admission at one instant and, if admitted, a
 settlement at another; overlapping calls interleave these events in any order.
 */
module CircuitBreakers {
  import opened Common

  datatype Phase = Closed | HalfOpen | Open

  datatype Breaker = Breaker(phase: Phase, failures: nat, lastFailure: int, probing: bool)

  datatype Config = Config(threshold: int, timeout: int)

  datatype Kind = Keeper | Api

  const NEW_BREAKER := Breaker(Closed, 0, 0, false)

  /** Both implementations admit alike: OPEN turns HALF_OPEN once `timeout` has elapsed. */
  function Waken(c: Config, b: Breaker, now: int): Breaker {
    if b.phase == Open && now - b.lastFailure >= c.timeout then b.(phase := HalfOpen) else b
  }

  predicate Admits(c: Config, b: Breaker, now: int) {
    var w := Waken(c, b, now);
    w.phase == Closed || (w.phase == HalfOpen && !w.probing)
  }

  function Admit(c: Config, b: Breaker, now: int): Breaker {
    var w := Waken(c, b, now);
    if w.phase == HalfOpen && !w.probing then w.(probing := true) else w
  }

  function KeeperSettle(c: Config, b: Breaker, ok: bool, now: int): Breaker {
    if ok then Breaker(if b.phase == HalfOpen then Closed else b.phase, 0, b.lastFailure, false)
    else if b.failures + 1 >= c.threshold && b.phase != Open then Breaker(Open, b.failures + 1, now, false)
    else Breaker(b.phase, b.failures + 1, b.lastFailure, false)
  }

  function ApiSettle(c: Config, b: Breaker, ok: bool, now: int): Breaker {
    if ok then Breaker(Closed, 0, b.lastFailure, false)
    else if b.phase == HalfOpen || b.failures + 1 >= c.threshold then Breaker(Open, b.failures + 1, now, false)
    else Breaker(b.phase, b.failures + 1, now, false)
  }

  function Settle(kind: Kind, c: Config, b: Breaker, ok: bool, now: int): Breaker {
    match kind case Keeper => KeeperSettle(c, b, ok, now) case Api => ApiSettle(c, b, ok, now)
  }

  function Reset(kind: Kind, b: Breaker): Breaker {
    match kind case Keeper => NEW_BREAKER case Api => Breaker(Closed, 0, b.lastFailure, false)
  }

  // ---------- The classes ----------

  /** keeper/src/circuit-breaker.ts */
  class KeeperBreaker {
    const config: Config
    var state: Phase
    var failureCount: nat
    var lastFailureTime: int
    var probing: bool

    ghost function View(): Breaker
      reads this
    {
      Breaker(state, failureCount, lastFailureTime, probing)
    }

    constructor (config: Config)
      ensures this.config == config && View() == NEW_BREAKER
    {
      this.config := config;
      state, failureCount, lastFailureTime, probing := Closed, 0, 0, false;
    }

    /** `call` up to `await fn()`. */
    method Enter(now: int) returns (admitted: bool)
      modifies this
      ensures admitted == Admits(config, old(View()), now) && View() == Admit(config, old(View()), now)
    {
      var currentState := state;
      if currentState == Open && now - lastFailureTime >= config.timeout {
        state := HalfOpen;
        currentState := HalfOpen;
      }
      if currentState == Open {
        return false;
      }
      if currentState == HalfOpen {
        if probing {
          return false;
        }
        probing := true;
      }
      return true;
    }

    /** `call` from the settlement of `fn()` on. */
    method Leave(ok: bool, now: int)
      modifies this
      ensures View() == Settle(Keeper, config, old(View()), ok, now)
    {
      if ok {
        if state == HalfOpen {
          state := Closed;
        }
        failureCount := 0;
      } else {
        failureCount := failureCount + 1;
        if failureCount >= config.threshold && state != Open {
          lastFailureTime := now;
          state := Open;
        }
      }
      probing := false;
    }

    method ResetBreaker()
      modifies this
      ensures View() == Reset(Keeper, old(View()))
    {
      state, failureCount, lastFailureTime, probing := Closed, 0, 0, false;
    }
  }

  /** api/src/lib/circuit-breaker.ts */
  class ApiBreaker {
    const config: Config
    var state: Phase
    var failureCount: nat
    var lastFailureTime: int
    var probing: bool

    ghost function View(): Breaker
      reads this
    {
      Breaker(state, failureCount, lastFailureTime, probing)
    }

    constructor (config: Config)
      ensures this.config == config && View() == NEW_BREAKER
    {
      this.config := config;
      state, failureCount, lastFailureTime, probing := Closed, 0, 0, false;
    }

    method Enter(now: int) returns (admitted: bool)
      modifies this
      ensures admitted == Admits(config, old(View()), now) && View() == Admit(config, old(View()), now)
    {
      if state == Open && now - lastFailureTime >= config.timeout {
        state := HalfOpen;
      }
      if state == Open || (state == HalfOpen && probing) {
        return false;
      }
      if state == HalfOpen {
        probing := true;
      }
      return true;
    }

    method OnSuccess()
      modifies this`state, this`failureCount
      ensures state == Closed && failureCount == 0
    {
      state, failureCount := Closed, 0;
    }

    method OnFailure(now: int)
      modifies this`state, this`failureCount, this`lastFailureTime
      ensures failureCount == old(failureCount) + 1 && lastFailureTime == now
      ensures state == if old(state) == HalfOpen || failureCount >= config.threshold then Open else old(state)
    {
      failureCount := failureCount + 1;
      lastFailureTime := now;
      if state == HalfOpen {
        state := Open;
      } else if failureCount >= config.threshold {
        state := Open;
      }
    }

    method Leave(ok: bool, now: int)
      modifies this
      ensures View() == Settle(Api, config, old(View()), ok, now)
    {
      if ok {
        OnSuccess();
      } else {
        OnFailure(now);
      }
      probing := false;
    }

    method ResetBreaker()
      modifies this
      ensures View() == Reset(Api, old(View()))
    {
      state, failureCount, probing := Closed, 0, false;
    }
  }

  // ---------- Every interleaving of overlapping calls ----------

  datatype Event = Entered(at: int) | Settled(ok: bool, at: int) | WasReset(at: int)

  function React(kind: Kind, c: Config, b: Breaker, e: Event): Breaker {
    match e
    case Entered(now) => Admit(c, b, now)
    case Settled(ok, now) => Settle(kind, c, b, ok, now)
    case WasReset(_) => Reset(kind, b)
  }

  /** The breaker after the first `n` events. */
  function After(kind: Kind, c: Config, events: seq<Event>, n: nat): Breaker
    requires n <= |events|
  {
    if n == 0 then NEW_BREAKER else React(kind, c, After(kind, c, events, n - 1), events[n - 1])
  }

  /** Failures among the first `n` events since the latest success or reset, in completion order. */
  function TrailingFailures(events: seq<Event>, n: nat): nat
    requires n <= |events|
  {
    if n == 0 then 0
    else match events[n - 1]
      case Entered(_) => TrailingFailures(events, n - 1)
      case Settled(ok, _) => if ok then 0 else TrailingFailures(events, n - 1) + 1
      case WasReset(_) => 0
  }

  /** The counter is that run of failures, and a closed breaker is always below its threshold. */
  lemma {:induction false} FailureCountIsTrailingRun(kind: Kind, c: Config, events: seq<Event>, n: nat)
    requires n <= |events|
    ensures After(kind, c, events, n).failures == TrailingFailures(events, n)
    ensures c.threshold >= 1 && After(kind, c, events, n).phase == Closed ==> TrailingFailures(events, n) < c.threshold
  {
    if n > 0 { FailureCountIsTrailingRun(kind, c, events, n - 1); }
  }

  ghost predicate InOrder(events: seq<Event>) {
    forall i, j :: 0 <= i <= j < |events| ==> events[i].at <= events[j].at
  }

  /** Events that end a cool-down: a reset, and for the API breaker a late success. */
  predicate EndsCooldown(kind: Kind, e: Event) {
    e.WasReset? || (kind == Api && e.Settled? && e.ok)
  }

  lemma {:induction false} StaysOpen(kind: Kind, c: Config, events: seq<Event>, trip: nat, n: nat)
    requires InOrder(events) && trip < n <= |events|
    requires events[trip].Settled? && !events[trip].ok
    requires After(kind, c, events, trip).phase != Open && After(kind, c, events, trip + 1).phase == Open
    requires forall k :: trip < k < n ==> !EndsCooldown(kind, events[k])
    requires forall k :: trip < k < n && events[k].Entered? ==> events[k].at - events[trip].at < c.timeout
    ensures After(kind, c, events, n).phase == Open && After(kind, c, events, n).lastFailure >= events[trip].at
  {
    if n > trip + 1 { StaysOpen(kind, c, events, trip, n - 1); }
  }

  /**
   Once failures open the breaker, no call is admitted for `timeout`, whatever calls were
   already in flight, unless a reset (or, for the API breaker, a late success) intervenes.
   */
  lemma NoAdmissionDuringCooldown(kind: Kind, c: Config, events: seq<Event>, trip: nat, n: nat)
    requires InOrder(events) && trip < n < |events|
    requires events[trip].Settled? && !events[trip].ok
    requires After(kind, c, events, trip).phase != Open && After(kind, c, events, trip + 1).phase == Open
    requires forall k :: trip < k < n ==> !EndsCooldown(kind, events[k])
    requires events[n].Entered? && events[n].at - events[trip].at < c.timeout
    ensures !Admits(c, After(kind, c, events, n), events[n].at)
  {
    StaysOpen(kind, c, events, trip, n);
  }

  // ---------- The two breakers on sequential runs ----------

  /** One call that finishes before the next begins, or a manual reset. */
  datatype Call = Call(start: int, ok: bool, end: int) | ManualReset

  function CallResult(kind: Kind, c: Config, b: Breaker, call: Call): Breaker {
    match call
    case Call(start, ok, end) =>
      if Admits(c, b, start) then Settle(kind, c, Admit(c, b, start), ok, end) else Admit(c, b, start)
    case ManualReset => Reset(kind, b)
  }

  function Sequential(kind: Kind, c: Config, calls: seq<Call>): Breaker {
    if calls == [] then NEW_BREAKER
    else CallResult(kind, c, Sequential(kind, c, calls[..|calls| - 1]), calls[|calls| - 1])
  }

  /** Agreement up to the one field the two update at different points. */
  predicate Agree(c: Config, k: Breaker, a: Breaker) {
    && k.phase == a.phase && k.failures == a.failures
    && !k.probing && !a.probing && k.phase != HalfOpen
    && (k.phase == Open ==> k.lastFailure == a.lastFailure && k.failures >= c.threshold)
    && (k.phase == Closed && c.threshold >= 1 ==> k.failures < c.threshold)
  }

  lemma {:induction false} SequentialAgree(c: Config, calls: seq<Call>)
    ensures Agree(c, Sequential(Keeper, c, calls), Sequential(Api, c, calls))
  {
    if calls != [] { SequentialAgree(c, calls[..|calls| - 1]); }
  }

  /**
   On every sequential run the breakers admit the same calls and agree on state and failure
   count; between calls neither is half-open, and open means exactly "threshold reached".
   */
  lemma BreakersEquivalent(c: Config, calls: seq<Call>, next: int)
    ensures var k, a := Sequential(Keeper, c, calls), Sequential(Api, c, calls);
            && Admits(c, k, next) == Admits(c, a, next)
            && k.phase == a.phase && k.failures == a.failures
            && k.phase != HalfOpen
            && (c.threshold >= 1 ==> (k.phase == Open <==> k.failures >= c.threshold))
  {
    SequentialAgree(c, calls);
  }

  // ---------- Where overlapping calls make them part ----------

  /** Agreement on all that callers see. */
  predicate Alike(k: Breaker, a: Breaker) { k.phase == a.phase && k.failures == a.failures && k.probing == a.probing }

  /**
   A call admitted earlier succeeds while the breakers are open, or a call comes when the timeout
   has passed since the time one of them remembers but not since that of the other.
   */
  predicate Parts(c: Config, k: Breaker, a: Breaker, e: Event) {
    && k.phase == Open
    && match e
       case Settled(ok, _) => ok
       case Entered(now) => (now - k.lastFailure >= c.timeout) != (now - a.lastFailure >= c.timeout)
       case WasReset(_) => false
  }

  /** While alike, both have reached the threshold unless closed. */
  predicate Tripped(c: Config, b: Breaker) { b.phase != Closed ==> b.failures >= c.threshold }

  lemma PartStep(c: Config, k: Breaker, a: Breaker, e: Event)
    requires Alike(k, a) && Tripped(c, k)
    ensures Alike(React(Keeper, c, k, e), React(Api, c, a, e)) <==> !Parts(c, k, a, e)
    ensures !Parts(c, k, a, e) ==> Tripped(c, React(Keeper, c, k, e))
  {
  }

  ghost predicate AlikeUntil(c: Config, events: seq<Event>, n: nat)
    requires n <= |events|
  {
    forall i :: 0 <= i <= n ==> Alike(After(Keeper, c, events, i), After(Api, c, events, i))
  }

  lemma AlikeLonger(c: Config, events: seq<Event>, n: nat)
    requires n < |events|
    ensures AlikeUntil(c, events, n + 1)
            <==> AlikeUntil(c, events, n) && Alike(After(Keeper, c, events, n + 1), After(Api, c, events, n + 1))
    ensures AlikeUntil(c, events, n) ==> Alike(After(Keeper, c, events, n), After(Api, c, events, n))
    ensures forall kind :: After(kind, c, events, n + 1) == React(kind, c, After(kind, c, events, n), events[n])
  {
    hide Alike, React;
  }

  lemma AlikeAtFirst(c: Config, events: seq<Event>)
    ensures AlikeUntil(c, events, 0) && Tripped(c, After(Keeper, c, events, 0))
    ensures After(Keeper, c, events, 0).phase == Closed
  {
  }

  /** On any sequence of overlapping calls the two breakers stay alike exactly until the first such event. */
  lemma {:induction false} BreakersPartExactly(c: Config, events: seq<Event>, n: nat)
    requires n <= |events|
    ensures AlikeUntil(c, events, n)
            <==> forall i :: 0 <= i < n ==> !Parts(c, After(Keeper, c, events, i), After(Api, c, events, i), events[i])
    ensures AlikeUntil(c, events, n) ==> Tripped(c, After(Keeper, c, events, n))
  {
    hide AlikeUntil, After, React, Alike, Parts, Tripped;
    if n == 0 {
      AlikeAtFirst(c, events);
    } else {
      BreakersPartExactly(c, events, n - 1);
      AlikeLonger(c, events, n - 1);
      if AlikeUntil(c, events, n - 1) {
        PartStep(c, After(Keeper, c, events, n - 1), After(Api, c, events, n - 1), events[n - 1]);
      }
    }
  }

  /** A call settles while the breakers are open. */
  predicate SettlesOpen(c: Config, events: seq<Event>, i: nat)
    requires i < |events|
  {
    events[i].Settled? && After(Keeper, c, events, i).phase == Open
  }

  /** So nothing but a call that outlasts the opening can part them: without one they also remember the same time. */
  lemma {:induction false} AlikeUnlessSettledOpen(c: Config, events: seq<Event>, n: nat)
    requires n <= |events| && forall i :: 0 <= i < n ==> !SettlesOpen(c, events, i)
    ensures AlikeUntil(c, events, n)
    ensures After(Keeper, c, events, n).phase == Open ==> After(Keeper, c, events, n).lastFailure == After(Api, c, events, n).lastFailure
  {
    hide AlikeUntil, After;
    if n == 0 {
      AlikeAtFirst(c, events);
    } else {
      AlikeUnlessSettledOpen(c, events, n - 1);
      BreakersPartExactly(c, events, n - 1);
      AlikeLonger(c, events, n - 1);
      assert !SettlesOpen(c, events, n - 1);
      hide SettlesOpen;
      SameMemory(c, After(Keeper, c, events, n - 1), After(Api, c, events, n - 1), events[n - 1]);
    }
  }

  lemma SameMemory(c: Config, k: Breaker, a: Breaker, e: Event)
    requires Alike(k, a) && Tripped(c, k) && (k.phase == Open ==> k.lastFailure == a.lastFailure && !e.Settled?)
    ensures var k1, a1 := React(Keeper, c, k, e), React(Api, c, a, e);
            Alike(k1, a1) && (k1.phase == Open ==> k1.lastFailure == a1.lastFailure)
  {
  }

  /** And such a call does: a success settling after the breaker opened closes only the API breaker. */
  lemma OverlapSeparatesBreakers(timeout: int)
    ensures var events := [Entered(0), Entered(0), Settled(false, 0), Settled(true, 0)];
            && After(Keeper, Config(1, timeout), events, 4).phase == Open
            && After(Api, Config(1, timeout), events, 4).phase == Closed
  {
    var events := [Entered(0), Entered(0), Settled(false, 0), Settled(true, 0)];
    var c := Config(1, timeout);
    assert After(Keeper, c, events, 2) == NEW_BREAKER by { assert After(Keeper, c, events, 1) == NEW_BREAKER; }
    assert After(Api, c, events, 2) == NEW_BREAKER by { assert After(Api, c, events, 1) == NEW_BREAKER; }
    assert After(Keeper, c, events, 3).phase == Open && After(Api, c, events, 3).phase == Open;
  }

  // ---------- One probe at a time ----------

  /** A breaker with its calls in flight, split by how they were admitted. */
  datatype Load = Load(breaker: Breaker, normal: nat, probes: nat)

  datatype LoadEvent = Enter(at: int) | SettleNormal(ok: bool, at: int) | SettleProbe(ok: bool, at: int) | ResetLoad

  predicate Possible(l: Load, e: LoadEvent) {
    (e.SettleNormal? ==> l.normal > 0) && (e.SettleProbe? ==> l.probes > 0)
  }

  function Next(kind: Kind, c: Config, l: Load, e: LoadEvent): Load
    requires Possible(l, e)
  {
    match e
    case Enter(now) =>
      var b := Admit(c, l.breaker, now);
      if !Admits(c, l.breaker, now) then l.(breaker := b)
      else if b.phase == HalfOpen then l.(breaker := b, probes := l.probes + 1)
      else l.(breaker := b, normal := l.normal + 1)
    case SettleNormal(ok, now) => l.(breaker := Settle(kind, c, l.breaker, ok, now), normal := l.normal - 1)
    case SettleProbe(ok, now) => l.(breaker := Settle(kind, c, l.breaker, ok, now), probes := l.probes - 1)
    case ResetLoad => l.(breaker := Reset(kind, l.breaker))
  }

  /** The `finally` of a call admitted earlier clears the probe flag of a probe still in flight. */
  predicate ClearsForeignProbe(l: Load, e: LoadEvent) {
    l.probes > 0 && (e.SettleNormal? || e.ResetLoad?)
  }

  ghost predicate LoadRun(kind: Kind, c: Config, loads: seq<Load>, events: seq<LoadEvent>) {
    && |loads| == |events| + 1
    && loads[0] == Load(NEW_BREAKER, 0, 0)
    && forall i :: 0 <= i < |events| ==> Possible(loads[i], events[i]) && loads[i + 1] == Next(kind, c, loads[i], events[i])
  }

  /** The probe flag says whether a probe is in flight, and there is at most one. */
  predicate OneProbe(l: Load) {
    l.probes <= 1 && (l.probes == 1 <==> l.breaker.probing)
  }

  lemma ProbeStep(kind: Kind, c: Config, l: Load, e: LoadEvent)
    requires Possible(l, e) && OneProbe(l)
    ensures OneProbe(Next(kind, c, l, e)) <==> !ClearsForeignProbe(l, e)
  {
  }

  /**
   Up to any point of a run the flag and the probe agree exactly when no call admitted earlier
   has settled, and no reset has come, while a probe was in flight.
   */
  lemma {:induction false} OneProbeExactly(kind: Kind, c: Config, loads: seq<Load>, events: seq<LoadEvent>, i: nat)
    requires LoadRun(kind, c, loads, events) && i < |loads|
    ensures (forall k :: 0 <= k <= i ==> OneProbe(loads[k])) <==> forall k :: 0 <= k < i ==> !ClearsForeignProbe(loads[k], events[k])
  {
    hide OneProbe, ClearsForeignProbe, Possible, Next;
    if i == 0 {
      FreshProbe(loads[0]);
    } else {
      OneProbeExactly(kind, c, loads, events, i - 1);
      if forall k :: 0 <= k <= i - 1 ==> OneProbe(loads[k]) {
        var k := i - 1;
        assert OneProbe(loads[k]) && Possible(loads[k], events[k]) && loads[k + 1] == Next(kind, c, loads[k], events[k]);
        ProbeStep(kind, c, loads[i - 1], events[i - 1]);
      } else {
        var k :| 0 <= k < i - 1 && ClearsForeignProbe(loads[k], events[k]);
        var m :| 0 <= m <= i - 1 && !OneProbe(loads[m]);
      }
    }
  }

  lemma FreshProbe(l: Load)
    ensures l == Load(NEW_BREAKER, 0, 0) ==> OneProbe(l)
  {
  }

  lemma OneMoreLoad(kind: Kind, c: Config, loads: seq<Load>, events: seq<LoadEvent>, e: LoadEvent, next: Load)
    requires LoadRun(kind, c, loads, events)
    requires Possible(loads[|events|], e) && Next(kind, c, loads[|events|], e) == next
    ensures LoadRun(kind, c, loads + [next], events + [e])
  {
    hide Possible, Next;
  }

  /** Otherwise two probes can run at once, in both implementations: a late failure frees the flag and reopens the breaker. */
  lemma TwoProbesPossible(kind: Kind) returns (c: Config, loads: seq<Load>, events: seq<LoadEvent>)
    ensures LoadRun(kind, c, loads, events) && loads[|events|].probes == 2
  {
    c := Config(1, 10);
    var l0 := Load(NEW_BREAKER, 0, 0);
    var l1, l2 := Load(NEW_BREAKER, 1, 0), Load(NEW_BREAKER, 2, 0);
    var l3 := Load(Breaker(Open, 1, 0, false), 1, 0);
    var l4 := Load(Breaker(HalfOpen, 1, 0, true), 1, 1);
    var l5 := Load(Breaker(Open, 2, 10, false), 0, 1);
    var l6 := Load(Breaker(HalfOpen, 2, 10, true), 0, 2);
    OneMoreLoad(kind, c, [l0], [], Enter(0), l1);
    OneMoreLoad(kind, c, [l0] + [l1], [] + [Enter(0)], Enter(0), l2);
    hide LoadRun;
    loads, events := [l0, l1, l2], [Enter(0), Enter(0)];
    assert [l0] + [l1] + [l2] == loads && [] + [Enter(0)] + [Enter(0)] == events;
    OneMoreLoad(kind, c, loads, events, SettleNormal(false, 0), l3);
    loads, events := loads + [l3], events + [SettleNormal(false, 0)];
    OneMoreLoad(kind, c, loads, events, Enter(10), l4);
    loads, events := loads + [l4], events + [Enter(10)];
    OneMoreLoad(kind, c, loads, events, SettleNormal(false, 10), l5);
    loads, events := loads + [l5], events + [SettleNormal(false, 10)];
    OneMoreLoad(kind, c, loads, events, Enter(20), l6);
    loads, events := loads + [l6], events + [Enter(20)];
  }
}
