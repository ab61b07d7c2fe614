/**
 The in-memory fixed-window rate limiter: nested maps from limiter to client key to counter,
 and a timer that deletes expired counters. A limiter's store is named after its window and
 maximum, so the pair is its identity here.
 */
module RateLimit {
  import opened Common

  datatype Limiter = Limiter(windowMs: int, max: int)

  datatype Entry = Entry(count: int, windowStart: int)

  datatype Response = Response(count: int, ttl: int)

  type Stores = map<Limiter, map<string, Entry>>

  // ---------- One request on one key ----------

  predicate Expired(windowMs: int, e: Entry, now: int) { now - e.windowStart > windowMs }

  function Hit(windowMs: int, entry: Option<Entry>, now: int): Entry {
    if entry.None? || Expired(windowMs, entry.value, now) then Entry(1, now)
    else Entry(entry.value.count + 1, entry.value.windowStart)
  }

  function Answer(windowMs: int, entry: Option<Entry>, now: int): Response {
    if entry.None? || Expired(windowMs, entry.value, now) then Response(1, windowMs)
    else Response(entry.value.count + 1, Max(0, windowMs - (now - entry.value.windowStart)))
  }

  predicate Admitted(l: Limiter, r: Response) { r.count <= l.max }

  // ---------- The store ----------

  function StoreOf(s: Stores, l: Limiter): map<string, Entry> { if l in s then s[l] else map[] }

  function Lookup(s: Stores, l: Limiter, key: string): Option<Entry> {
    if key in StoreOf(s, l) then Some(StoreOf(s, l)[key]) else None
  }

  function AfterRequest(s: Stores, l: Limiter, key: string, now: int): Stores {
    s[l := StoreOf(s, l)[key := Hit(l.windowMs, Lookup(s, l, key), now)]]
  }

  function Unexpired(l: Limiter, m: map<string, Entry>, now: int): map<string, Entry> {
    map k | k in m && !Expired(l.windowMs, m[k], now) :: m[k]
  }

  function AfterSweep(s: Stores, l: Limiter, now: int): Stores {
    s[l := Unexpired(l, StoreOf(s, l), now)]
  }

  class InMemoryStore {
    var stores: Stores

    constructor ()
      ensures stores == map[]
    {
      stores := map[];
    }

    method GetStore(l: Limiter) returns (m: map<string, Entry>)
      modifies this
      ensures m == StoreOf(old(stores), l) && stores == old(stores)[l := m]
    {
      if l !in stores {
        stores := stores[l := map[]];
      }
      m := stores[l];
    }

    method Increment(l: Limiter, key: string, now: int) returns (r: Response)
      modifies this
      ensures stores == AfterRequest(old(stores), l, key, now)
      ensures r == Answer(l.windowMs, Lookup(old(stores), l, key), now)
    {
      var store := GetStore(l);
      if key !in store || now - store[key].windowStart > l.windowMs {
        stores := stores[l := store[key := Entry(1, now)]];
        return Response(1, l.windowMs);
      }
      var entry := store[key];
      entry := entry.(count := entry.count + 1);
      stores := stores[l := store[key := entry]];
      var elapsed := now - entry.windowStart;
      return Response(entry.count, Max(0, l.windowMs - elapsed));
    }

    /** The timer's callback. */
    method Sweep(l: Limiter, now: int)
      modifies this
      ensures stores == AfterSweep(old(stores), l, now)
    {
      var s := GetStore(l);
      var kept, todo := s, s.Keys;
      while todo != {}
        invariant todo <= s.Keys && kept.Keys <= s.Keys
        invariant forall k :: k in kept ==> kept[k] == s[k]
        invariant forall k :: k in s ==> (k in kept <==> k in todo || !Expired(l.windowMs, s[k], now))
        decreases |todo|
      {
        var k :| k in todo;
        if now - s[k].windowStart > l.windowMs {
          kept := kept - {k};
        }
        todo := todo - {k};
      }
      assert kept == Unexpired(l, s, now);
      stores := stores[l := kept];
    }

    /** The middleware's decision: the request is answered with 429 exactly when it is not admitted. */
    method Allow(l: Limiter, key: string, now: int) returns (admitted: bool, remaining: int, retryAfterSeconds: int)
      modifies this
      ensures stores == AfterRequest(old(stores), l, key, now)
      ensures var r := Answer(l.windowMs, Lookup(old(stores), l, key), now);
              && admitted == Admitted(l, r) && remaining == Max(0, l.max - r.count)
              && retryAfterSeconds == CeilSeconds(r.ttl)
    {
      var r := Increment(l, key, now);
      remaining := Max(0, l.max - r.count);
      retryAfterSeconds := CeilSeconds(r.ttl);
      if r.count > l.max {
        return false, remaining, retryAfterSeconds;
      }
      return true, remaining, retryAfterSeconds;
    }
  }

  /** `Math.ceil(ms / 1000)` */
  function CeilSeconds(ms: int): int { -((-ms) / 1000) }

  // ---------- A key on its own ----------

  predicate Nondecreasing(ts: seq<int>) { forall i, j :: 0 <= i < j < |ts| ==> ts[i] <= ts[j] }

  /** The counter after requests at `ts` and nothing else. */
  function Counter(windowMs: int, ts: seq<int>): (e: Option<Entry>)
    ensures e.Some? <==> ts != []
    ensures e.Some? ==> e.value.count >= 1 && e.value.windowStart in ts
  {
    if ts == [] then None
    else Some(Hit(windowMs, Counter(windowMs, ts[..|ts| - 1]), ts[|ts| - 1]))
  }

  function Answers(windowMs: int, ts: seq<int>): (rs: seq<Response>)
    ensures |rs| == |ts|
  {
    if ts == [] then []
    else
      var before := ts[..|ts| - 1];
      Answers(windowMs, before) + [Answer(windowMs, Counter(windowMs, before), ts[|ts| - 1])]
  }

  /** Requests at `ts` answered `rs` that were admitted at a time in the closed interval [from, to]. */
  function AdmittedWithin(l: Limiter, ts: seq<int>, rs: seq<Response>, from: int, to: int): nat
    requires |ts| == |rs|
  {
    if ts == [] then 0
    else
      var n := |ts| - 1;
      AdmittedWithin(l, ts[..n], rs[..n], from, to) + if from <= ts[n] <= to && Admitted(l, rs[n]) then 1 else 0
  }

  lemma {:induction false} NoneBefore(l: Limiter, ts: seq<int>, rs: seq<Response>, from: int, to: int)
    requires |ts| == |rs| && forall i :: 0 <= i < |ts| ==> ts[i] < from
    ensures AdmittedWithin(l, ts, rs, from, to) == 0
  {
    if ts != [] { NoneBefore(l, ts[..|ts| - 1], rs[..|ts| - 1], from, to); }
  }

  lemma {:induction false} IntervalInvariant(l: Limiter, ts: seq<int>, from: int, to: int)
    requires Nondecreasing(ts) && ts != [] && l.max >= 1 && to <= from + l.windowMs
    ensures var n, e := AdmittedWithin(l, ts, Answers(l.windowMs, ts), from, to), Counter(l.windowMs, ts).value;
            && (e.windowStart < from ==> n <= Min(e.count, l.max) - 1)
            && (from <= e.windowStart <= to ==> n <= l.max - 1 + Min(e.count, l.max))
            && n <= 2 * l.max - 1
  {
    var w, k := l.windowMs, |ts| - 1;
    var before, t := ts[..k], ts[k];
    assert Answers(w, ts)[..k] == Answers(w, before);
    if t < from {
      NoneBefore(l, ts, Answers(w, ts), from, to);
    } else if before != [] {
      IntervalInvariant(l, before, from, to);
      assert Counter(w, before).value.windowStart in before;
    }
  }

  /**
   A closed interval of length `windowMs` admits at most 2 * max - 1 requests of a key, so never
   twice the limit: two counting windows can meet inside it, but not with the first request of both.
   */
  lemma IntervalBound(l: Limiter, ts: seq<int>, from: int, to: int)
    requires Nondecreasing(ts) && to <= from + l.windowMs
    ensures AdmittedWithin(l, ts, Answers(l.windowMs, ts), from, to) <= Max(0, 2 * l.max - 1)
  {
    if l.max < 1 {
      NoneAdmitted(l, ts, from, to);
    } else if ts != [] {
      IntervalInvariant(l, ts, from, to);
    }
  }

  lemma {:induction false} NoneAdmitted(l: Limiter, ts: seq<int>, from: int, to: int)
    requires l.max < 1
    ensures AdmittedWithin(l, ts, Answers(l.windowMs, ts), from, to) == 0
  {
    if ts != [] {
      var before := ts[..|ts| - 1];
      NoneAdmitted(l, before, from, to);
      assert Answers(l.windowMs, ts)[..|ts| - 1] == Answers(l.windowMs, before);
    }
  }

  // ---------- The bound is reached ----------

  /** One request at 0, max - 1 at the window's last instant, then `k` in the next window. */
  function Burst(l: Limiter, k: nat): seq<int>
    requires l.max >= 1
  {
    [0] + seq(l.max - 1, _ => l.windowMs) + seq(k, _ => l.windowMs + 1)
  }

  lemma OneMore(l: Limiter, ts: seq<int>, t: int, from: int, to: int)
    ensures Counter(l.windowMs, ts + [t]) == Some(Hit(l.windowMs, Counter(l.windowMs, ts), t))
    ensures AdmittedWithin(l, ts + [t], Answers(l.windowMs, ts + [t]), from, to)
            == AdmittedWithin(l, ts, Answers(l.windowMs, ts), from, to)
               + if from <= t <= to && Admitted(l, Answer(l.windowMs, Counter(l.windowMs, ts), t)) then 1 else 0
  {
    assert (ts + [t])[..|ts|] == ts;
    assert Answers(l.windowMs, ts + [t])[..|ts|] == Answers(l.windowMs, ts);
  }

  lemma {:induction false} EarlyBurst(l: Limiter, m: nat)
    requires l.windowMs >= 1 && 1 <= m + 1 <= l.max
    ensures var ts := [0] + seq(m, _ => l.windowMs);
            && Counter(l.windowMs, ts) == Some(Entry(m + 1, 0))
            && AdmittedWithin(l, ts, Answers(l.windowMs, ts), l.windowMs, 2 * l.windowMs) == m
  {
    hide AdmittedWithin, Answers, Counter;
    var w, ts := l.windowMs, [0] + seq(m, _ => l.windowMs);
    if m == 0 {
      assert ts == [] + [0];
      OneMore(l, [], 0, w, 2 * w);
      NoneBefore(l, [], Answers(w, []), w, 2 * w);
      assert Counter(w, []).None?;
    } else {
      var before := [0] + seq(m - 1, _ => w);
      assert ts == before + [w];
      EarlyBurst(l, m - 1);
      OneMore(l, before, w, w, 2 * w);
    }
  }

  lemma {:induction false} BurstCounts(l: Limiter, k: nat)
    requires l.windowMs >= 1 && 0 <= k <= l.max && l.max >= 1
    ensures var ts := Burst(l, k);
            && Counter(l.windowMs, ts) == Some(if k == 0 then Entry(l.max, 0) else Entry(k, l.windowMs + 1))
            && AdmittedWithin(l, ts, Answers(l.windowMs, ts), l.windowMs, 2 * l.windowMs) == l.max - 1 + k
  {
    hide AdmittedWithin, Answers, Counter;
    var w, ts := l.windowMs, Burst(l, k);
    if k == 0 {
      EarlyBurst(l, l.max - 1);
      assert ts == [0] + seq(l.max - 1, _ => w);
    } else {
      BurstCounts(l, k - 1);
      var before := Burst(l, k - 1);
      assert ts == before + [w + 1];
      hide Burst;
      OneMore(l, before, w + 1, w, 2 * w);
    }
  }

  /** The bound cannot be lowered: every limiter with a positive window and maximum has a trace that reaches it. */
  lemma IntervalBoundIsTight(l: Limiter)
    requires l.windowMs >= 1 && l.max >= 1
    ensures var ts := Burst(l, l.max);
            && Nondecreasing(ts)
            && AdmittedWithin(l, ts, Answers(l.windowMs, ts), l.windowMs, 2 * l.windowMs) == 2 * l.max - 1
  {
    BurstCounts(l, l.max);
  }

  // ---------- Counting windows ----------

  /** Admitted requests whose counter started at `start`. */
  function AdmittedInWindow(l: Limiter, ts: seq<int>, start: int): nat {
    if ts == [] then 0
    else
      var before := ts[..|ts| - 1];
      AdmittedInWindow(l, before, start) +
      if Counter(l.windowMs, ts).value.windowStart == start && Counter(l.windowMs, ts).value.count <= l.max then 1 else 0
  }

  /** A counting window admits its first `max` requests and no more. */
  lemma {:induction false} WindowAdmitsFirstMax(l: Limiter, ts: seq<int>, start: int)
    requires Nondecreasing(ts) && l.windowMs >= 0 && l.max >= 0
    ensures AdmittedInWindow(l, ts, start) <= l.max
    ensures ts != [] ==>
              var e := Counter(l.windowMs, ts).value;
              && (e.windowStart == start ==> AdmittedInWindow(l, ts, start) == Min(e.count, l.max))
              && (e.windowStart < start ==> AdmittedInWindow(l, ts, start) == 0)
  {
    if ts != [] {
      var before := ts[..|ts| - 1];
      WindowAdmitsFirstMax(l, before, start);
      if before != [] { assert Counter(l.windowMs, before).value.windowStart in before; }
    }
  }

  /**
   What a request is told: the first of a window, alone and with the whole window before it; a later
   one, one more than the one before, and what is left of the window, which ends with its last millisecond.
   */
  lemma AnswersExactly(l: Limiter, ts: seq<int>, t: int)
    requires Nondecreasing(ts + [t])
    ensures var r, e, after := Answer(l.windowMs, Counter(l.windowMs, ts), t), Counter(l.windowMs, ts), Counter(l.windowMs, ts + [t]);
            && after.Some? && after.value.count == r.count
            && (e.None? || t > e.value.windowStart + l.windowMs ==> r == Response(1, l.windowMs) && after.value.windowStart == t)
            && (e.Some? && t <= e.value.windowStart + l.windowMs ==>
                  && r.count == e.value.count + 1 && after.value.windowStart == e.value.windowStart
                  && t + r.ttl == e.value.windowStart + l.windowMs)
  {
    assert (ts + [t])[..|ts|] == ts;
  }

  // ---------- Whole traces ----------

  datatype Event = Request(limiter: Limiter, key: string, now: int) | Sweep(limiter: Limiter, now: int)

  predicate ClockRuns(trace: seq<Event>) {
    forall i, j :: 0 <= i < j < |trace| ==> trace[i].now <= trace[j].now
  }

  function After(trace: seq<Event>): Stores {
    if trace == [] then map[]
    else
      var s := After(trace[..|trace| - 1]);
      match trace[|trace| - 1]
      case Request(l, key, now) => AfterRequest(s, l, key, now)
      case Sweep(l, now) => AfterSweep(s, l, now)
  }

  predicate Asks(e: Event, l: Limiter, key: string) { e.Request? && e.limiter == l && e.key == key }

  function Times(trace: seq<Event>, l: Limiter, key: string): seq<int> {
    if trace == [] then []
    else
      var last := trace[|trace| - 1];
      Times(trace[..|trace| - 1], l, key) + if Asks(last, l, key) then [last.now] else []
  }

  /** What the shared, swept store answered to one key's requests. */
  function Answered(trace: seq<Event>, l: Limiter, key: string): seq<Response> {
    if trace == [] then []
    else
      var before, last := trace[..|trace| - 1], trace[|trace| - 1];
      Answered(before, l, key) +
      if Asks(last, l, key) then [Answer(l.windowMs, Lookup(After(before), l, key), last.now)] else []
  }

  lemma {:induction false} TimesOrdered(trace: seq<Event>, l: Limiter, key: string)
    requires ClockRuns(trace)
    ensures Nondecreasing(Times(trace, l, key))
    ensures forall t :: t in Times(trace, l, key) ==> trace != [] && t <= trace[|trace| - 1].now
  {
    if trace != [] {
      var before := trace[..|trace| - 1];
      TimesOrdered(before, l, key);
      var ts := Times(before, l, key);
      assert forall i :: 0 <= i < |ts| ==> ts[i] in ts;
    }
  }

  /** The stored counter is the key's own counter, or was swept after that one expired. */
  ghost predicate Agrees(trace: seq<Event>, l: Limiter, key: string) {
    var stored, own := Lookup(After(trace), l, key), Counter(l.windowMs, Times(trace, l, key));
    stored == own || (stored.None? && trace != [] && own.Some? && Expired(l.windowMs, own.value, trace[|trace| - 1].now))
  }

  lemma {:induction false} StoreAgrees(trace: seq<Event>, l: Limiter, key: string)
    requires ClockRuns(trace)
    ensures Agrees(trace, l, key)
  {
    if trace != [] {
      var before, last := trace[..|trace| - 1], trace[|trace| - 1];
      StoreAgrees(before, l, key);
      var ts := Times(before, l, key);
      if Asks(last, l, key) {
        assert (ts + [last.now])[..|ts|] == ts;
      } else {
        assert ts + [] == ts;
      }
    }
  }

  /**
   Sweeps inserted anywhere and requests on other keys or limiters never change an answer: what
   a key is answered depends on its own request times only.
   */
  lemma {:induction false} AnswersDependOnOwnRequests(trace: seq<Event>, l: Limiter, key: string)
    requires ClockRuns(trace)
    ensures Answered(trace, l, key) == Answers(l.windowMs, Times(trace, l, key))
  {
    if trace != [] {
      var before, last := trace[..|trace| - 1], trace[|trace| - 1];
      AnswersDependOnOwnRequests(before, l, key);
      if Asks(last, l, key) {
        StoreAgrees(before, l, key);
        var ts := Times(before, l, key);
        assert (ts + [last.now])[..|ts|] == ts;
      } else {
        assert Times(before, l, key) + [] == Times(before, l, key);
        assert Answered(before, l, key) + [] == Answered(before, l, key);
      }
    }
  }

  /** The bound on the running store, with any sweeps and any other traffic. */
  lemma StoreIntervalBound(trace: seq<Event>, l: Limiter, key: string, from: int, to: int)
    requires ClockRuns(trace) && to <= from + l.windowMs
    ensures |Times(trace, l, key)| == |Answered(trace, l, key)|
    ensures AdmittedWithin(l, Times(trace, l, key), Answered(trace, l, key), from, to) <= Max(0, 2 * l.max - 1)
  {
    AnswersDependOnOwnRequests(trace, l, key);
    TimesOrdered(trace, l, key);
    IntervalBound(l, Times(trace, l, key), from, to);
  }

  // ---------- Retry-After ----------

  /**
   A rejected client that waits exactly the advertised seconds is admitted if and only if the
   remaining time was not a whole number of seconds: the window is closed at its end.
   */
  lemma RetryAfterHonouredExactlyWhenRoundedUp(l: Limiter, e: Entry, now: int)
    requires l.max >= 1 && e.count >= l.max && 0 <= now - e.windowStart <= l.windowMs
    ensures var r := Answer(l.windowMs, Some(e), now);
            && !Admitted(l, r)
            && (Admitted(l, Answer(l.windowMs, Some(Hit(l.windowMs, Some(e), now)), now + 1000 * CeilSeconds(r.ttl)))
                <==> r.ttl % 1000 != 0)
  {
    var ttl := l.windowMs - (now - e.windowStart);
    var up := 1000 * CeilSeconds(ttl);
    assert ttl <= up < ttl + 1000;
    assert up == ttl <==> ttl % 1000 == 0;
  }
}
