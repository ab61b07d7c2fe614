/**
 The two RPC endpoint pools, called sequentially. Both fail over in cyclic order; they differ
 in what happens to an endpoint whose breaker is open.
 */
module SuiPools {
  import opened Common
  import opened CircuitBreakers

  /** What endpoint `fn` would answer if asked during this call, and when the answer settles. */
  datatype Attempt = Attempt(ok: bool, end: int)

  /** `(start + i) % n`: position `i` of the cycle that starts at `start`. */
  function Slot(n: nat, start: nat, i: nat): (r: nat)
    requires start < n && i <= n
    ensures r == if start + i < n then start + i else start + i - n
  {
    QuotientUnique(start + i, n, if start + i < n then 0 else 1, if start + i < n then start + i else start + i - n);
    (start + i) % n
  }

  /** The non-open endpoints among the first `k` positions of the cycle starting at `start`. */
  function Candidates(open: seq<bool>, start: nat, k: nat): (r: seq<nat>)
    requires start < |open| && k <= |open|
    ensures forall x :: x in r ==> x < |open| && !open[x]
  {
    if k == 0 then []
    else
      var idx := Slot(|open|, start, k - 1);
      Candidates(open, start, k - 1) + if open[idx] then [] else [idx]
  }

  lemma CandidatesStart(open: seq<bool>, start: nat)
    requires start < |open|
    ensures Candidates(open, start, 0) == []
  {
  }

  lemma CandidatesStep(open: seq<bool>, start: nat, k: nat)
    requires start < |open| && k < |open|
    ensures Candidates(open, start, k + 1)
            == Candidates(open, start, k) + if open[Slot(|open|, start, k)] then [] else [Slot(|open|, start, k)]
  {
  }

  lemma {:induction false} CandidateAt(open: seq<bool>, start: nat, k: nat, x: nat)
    requires start < |open| && k <= |open| && x < |open|
    ensures x in Candidates(open, start, k) <==> !open[x] && exists i :: 0 <= i < k && Slot(|open|, start, i) == x
  {
    if k > 0 { CandidateAt(open, start, k - 1, x); }
  }

  lemma SlotOf(n: nat, start: nat, x: nat) returns (i: nat)
    requires start < n && x < n
    ensures i < n && Slot(n, start, i) == x
  {
    i := if x >= start then x - start else x + n - start;
  }

  lemma NextIsNew(open: seq<bool>, start: nat, k: nat)
    requires start < |open| && k < |open|
    ensures Slot(|open|, start, k) !in Candidates(open, start, k)
  {
    CandidateAt(open, start, k, Slot(|open|, start, k));
  }

  /** No endpoint is asked twice in one call, and with the whole cycle examined none that is not open is left out. */
  lemma {:induction false} CandidatesOnce(open: seq<bool>, start: nat, k: nat)
    requires start < |open| && k <= |open|
    ensures forall a, b :: 0 <= a < b < |Candidates(open, start, k)| ==> Candidates(open, start, k)[a] != Candidates(open, start, k)[b]
    ensures k == |open| ==> forall x :: 0 <= x < |open| ==> (x in Candidates(open, start, k) <==> !open[x])
  {
    if k > 0 {
      CandidatesOnce(open, start, k - 1);
      CandidateAt(open, start, k - 1, Slot(|open|, start, k - 1));
    }
    if k == |open| {
      forall x | 0 <= x < |open| ensures x in Candidates(open, start, k) <==> !open[x] {
        CandidateAt(open, start, k, x);
        var i := SlotOf(|open|, start, x);
      }
    }
  }

  // ---------- Keeper pool ----------

  datatype KeeperState = KeeperState(breakers: seq<Breaker>, current: nat)

  function OpenFlags(breakers: seq<Breaker>): (r: seq<bool>)
    ensures |r| == |breakers|
  {
    seq(|breakers|, i requires 0 <= i < |breakers| => breakers[i].phase == Open)
  }

  /** Between calls no breaker is half-open or probing: an open endpoint is skipped before its breaker is consulted. */
  predicate KeeperValid(p: KeeperState) {
    && p.current < |p.breakers|
    && forall i :: 0 <= i < |p.breakers| ==> p.breakers[i].phase != HalfOpen && !p.breakers[i].probing
  }

  /** The breakers once the endpoints in `tried` have answered. */
  function SettleAll(c: Config, breakers: seq<Breaker>, attempts: seq<Attempt>, tried: seq<nat>): (r: seq<Breaker>)
    requires |attempts| == |breakers|
    ensures |r| == |breakers|
    ensures forall x :: 0 <= x < |r| && x !in tried ==> r[x] == breakers[x]
  {
    seq(|breakers|, x requires 0 <= x < |breakers| =>
      if x in tried then KeeperSettle(c, breakers[x], attempts[x].ok, attempts[x].end) else breakers[x])
  }

  lemma SettleOneMore(c: Config, breakers: seq<Breaker>, attempts: seq<Attempt>, tried: seq<nat>, x: nat)
    requires |attempts| == |breakers| && x < |breakers|
    ensures SettleAll(c, breakers, attempts, tried + [x])
            == SettleAll(c, breakers, attempts, tried)[x := KeeperSettle(c, breakers[x], attempts[x].ok, attempts[x].end)]
  {
  }

  lemma SettleNone(c: Config, breakers: seq<Breaker>, attempts: seq<Attempt>)
    requires |attempts| == |breakers|
    ensures SettleAll(c, breakers, attempts, []) == breakers
  {
  }

  /**
   One call: the non-open endpoints of the first `examined` positions are asked in order; it
   ends at the first success, which moves the cursor past the winner, or after the whole cycle.
   */
  ghost predicate KeeperCall(c: Config, p: KeeperState, attempts: seq<Attempt>, q: KeeperState,
                             tried: seq<nat>, examined: nat, winner: Option<nat>)
  {
    && KeeperValid(p) && |attempts| == |p.breakers| && examined <= |p.breakers|
    && tried == Candidates(OpenFlags(p.breakers), p.current, examined)
    && (forall a :: 0 <= a < |tried| ==> tried[a] < |attempts|)
    && q.breakers == SettleAll(c, p.breakers, attempts, tried)
    && match winner
       case None => examined == |p.breakers| && (forall x :: x in tried ==> !attempts[x].ok) && q.current == p.current
       case Some(w) =>
         && tried != [] && examined > 0 && w == tried[|tried| - 1] == Slot(|p.breakers|, p.current, examined - 1)
         && attempts[w].ok && (forall a :: 0 <= a < |tried| - 1 ==> !attempts[tried[a]].ok)
         && q.current == Slot(|p.breakers|, w, 1)
  }

  class KeeperPool {
    const config: Config
    var breakers: seq<Breaker>
    var currentIndex: nat

    ghost function View(): KeeperState
      reads this
    {
      KeeperState(breakers, currentIndex)
    }

    constructor (config: Config, urls: nat)
      requires urls > 0
      ensures this.config == config && KeeperValid(View()) && currentIndex == 0
      ensures breakers == seq(urls, _ => NEW_BREAKER)
    {
      this.config := config;
      breakers := seq(urls, _ => NEW_BREAKER);
      currentIndex := 0;
    }

    method Call(attempts: seq<Attempt>) returns (tried: seq<nat>, winner: Option<nat>, ghost examined: nat)
      requires KeeperValid(View()) && |attempts| == |breakers|
      modifies this
      ensures KeeperCall(config, old(View()), attempts, View(), tried, examined, winner)
      ensures KeeperValid(View())
    {
      hide KeeperSettle, Candidates, SettleAll;
      var startIdx := currentIndex;
      var n := |breakers|;
      ghost var p := View();
      ghost var open := OpenFlags(breakers);
      tried, winner, examined := [], None, 0;
      CandidatesStart(open, startIdx);
      SettleNone(config, breakers, attempts);
      var i := 0;
      while i < n
        invariant 0 <= i <= n && |breakers| == n && currentIndex == startIdx
        invariant tried == Candidates(open, startIdx, i)
        invariant forall a :: 0 <= a < |tried| ==> tried[a] < n && !attempts[tried[a]].ok
        invariant breakers == SettleAll(config, p.breakers, attempts, tried)
      {
        var idx := Slot(n, startIdx, i);
        NextIsNew(open, startIdx, i);
        CandidatesStep(open, startIdx, i);
        SettleOneMore(config, p.breakers, attempts, tried, idx);
        assert breakers[idx] == p.breakers[idx];
        if breakers[idx].phase != Open {
          ghost var before := tried;
          tried := tried + [idx];
          breakers := breakers[idx := KeeperSettle(config, breakers[idx], attempts[idx].ok, attempts[idx].end)];
          if attempts[idx].ok {
            currentIndex := Slot(n, idx, 1);
            examined := i + 1;
            assert forall a :: 0 <= a < |before| ==> tried[a] == before[a];
            winner := Some(idx);
            KeeperStaysValid(config, p, attempts, View(), tried, examined, winner);
            return;
          }
        }
        i := i + 1;
      }
      examined := n;
      KeeperStaysValid(config, p, attempts, View(), tried, examined, winner);
    }

    method ResetAll()
      modifies this`breakers
      ensures breakers == seq(|old(breakers)|, _ => NEW_BREAKER)
    {
      breakers := seq(|breakers|, _ => NEW_BREAKER);
    }
  }

  lemma KeeperStaysValid(c: Config, p: KeeperState, attempts: seq<Attempt>, q: KeeperState,
                         tried: seq<nat>, examined: nat, winner: Option<nat>)
    requires KeeperCall(c, p, attempts, q, tried, examined, winner)
    ensures KeeperValid(q)
  {
  }

  /** Each call asks each non-open endpoint at most once; when it fails, it has asked all of them. */
  lemma KeeperAsksOnce(c: Config, p: KeeperState, attempts: seq<Attempt>, q: KeeperState,
                       tried: seq<nat>, examined: nat, winner: Option<nat>)
    requires KeeperCall(c, p, attempts, q, tried, examined, winner)
    ensures KeeperValid(q)
    ensures forall a, b :: 0 <= a < b < |tried| ==> tried[a] != tried[b]
    ensures winner.None? ==> forall x :: 0 <= x < |p.breakers| ==> (x in tried <==> p.breakers[x].phase != Open)
    ensures winner.None? <==> forall x :: 0 <= x < |p.breakers| && attempts[x].ok ==> p.breakers[x].phase == Open
  {
    CandidatesOnce(OpenFlags(p.breakers), p.current, examined);
  }

  ghost predicate Served(c: Config, p: KeeperState, attempts: seq<Attempt>, q: KeeperState) {
    exists tried, examined, winner :: KeeperCall(c, p, attempts, q, tried, examined, winner)
  }

  /** A sequence of calls, `states[i]` before call `i`. */
  ghost predicate KeeperRun(c: Config, states: seq<KeeperState>, calls: seq<seq<Attempt>>) {
    && |states| == |calls| + 1 && KeeperValid(states[0])
    && forall i :: 0 <= i < |calls| ==> Served(c, states[i], calls[i], states[i + 1])
  }

  /** An endpoint that has opened is never asked again: its timeout is not consulted, only `resetAll` brings it back. */
  lemma {:induction false} OpenEndpointStaysOut(c: Config, states: seq<KeeperState>, calls: seq<seq<Attempt>>, i: nat, j: nat, x: nat)
    requires KeeperRun(c, states, calls) && i <= j < |states|
    requires x < |states[i].breakers| && states[i].breakers[x].phase == Open
    ensures |states[j].breakers| == |states[i].breakers| && states[j].breakers[x] == states[i].breakers[x]
    decreases j - i
  {
    hide KeeperCall, Served;
    if i < j {
      OpenEndpointStaysOut(c, states, calls, i, j - 1, x);
      assert Served(c, states[j - 1], calls[j - 1], states[j]);
      CallLeavesOpenAlone(c, states[j - 1], calls[j - 1], states[j], x);
    }
  }

  lemma CallLeavesOpenAlone(c: Config, p: KeeperState, attempts: seq<Attempt>, q: KeeperState, x: nat)
    requires Served(c, p, attempts, q) && x < |p.breakers| && p.breakers[x].phase == Open
    ensures |q.breakers| == |p.breakers| && q.breakers[x] == p.breakers[x]
  {
    var tried, examined, winner :| KeeperCall(c, p, attempts, q, tried, examined, winner);
    assert x !in tried;
  }

  // ---------- Round-robin over whole runs ----------

  /** How many of the first `k` endpoints are not open. */
  function Rank(open: seq<bool>, k: nat): (r: nat)
    requires k <= |open|
    ensures r <= k
  {
    if k == 0 then 0 else Rank(open, k - 1) + if open[k - 1] then 0 else 1
  }

  lemma {:induction false} RankGrows(open: seq<bool>, j: nat, k: nat)
    requires j <= k <= |open|
    ensures Rank(open, j) <= Rank(open, k) && (j < k && !open[j] ==> Rank(open, j) < Rank(open, k))
    decreases k
  {
    if j < k { RankGrows(open, j, k - 1); }
  }

  /** How many endpoints are not open. */
  function Serving(open: seq<bool>): nat { Rank(open, |open|) }

  /** The place of an endpoint in the cycle of those that are not open; an open one has the place of the next. */
  function Place(open: seq<bool>, x: nat): nat
    requires x < |open| && Serving(open) > 0
  {
    Rank(open, x) % Serving(open)
  }

  function Forward(place: nat, steps: nat, n: nat): nat
    requires n > 0
  {
    (place + steps) % n
  }

  lemma PlaceOf(open: seq<bool>, x: nat)
    requires x < |open| && !open[x]
    ensures Serving(open) > 0 && Place(open, x) == Rank(open, x) < Serving(open)
  {
    RankGrows(open, x, |open|);
    QuotientUnique(Rank(open, x), Serving(open), 0, Rank(open, x));
  }

  /** The next endpoint of the whole cycle has the next place, or the same after an open one. */
  lemma NextPlace(open: seq<bool>, x: nat)
    requires x < |open| && Serving(open) > 0
    ensures Place(open, Slot(|open|, x, 1)) == if open[x] then Place(open, x) else Forward(Place(open, x), 1, Serving(open))
  {
    var m := Serving(open);
    NextQuotient(m, Rank(open, x));
    QuotientUnique(m, m, 1, 0);
    QuotientUnique(0, m, 0, 0);
    RankGrows(open, x, |open|);
    if !open[x] {
      PlaceOf(open, x);
      if x + 1 < |open| { assert Rank(open, x + 1) == Rank(open, x) + 1; }
    } else if x + 1 < |open| {
      assert Rank(open, x + 1) == Rank(open, x);
    }
  }

  /** Open endpoints are passed over without a change of place. */
  lemma {:induction false} PassOpen(open: seq<bool>, start: nat, k: nat)
    requires start < |open| && k < |open| && Serving(open) > 0
    requires forall i :: 0 <= i < k ==> open[Slot(|open|, start, i)]
    ensures Place(open, Slot(|open|, start, k)) == Place(open, start)
  {
    if k > 0 {
      hide Place, Serving;
      PassOpen(open, start, k - 1);
      NextPlace(open, Slot(|open|, start, k - 1));
    }
  }

  /** The call was answered by `w`, the first endpoint it asked. */
  ghost predicate AnsweredBy(c: Config, p: KeeperState, attempts: seq<Attempt>, q: KeeperState, w: nat) {
    exists examined :: KeeperCall(c, p, attempts, q, [w], examined, Some(w))
  }

  /** A run in which every call is answered by the first endpoint it asks; `winners[i]` served call `i`. */
  ghost predicate AnsweredRun(c: Config, states: seq<KeeperState>, calls: seq<seq<Attempt>>, winners: seq<nat>) {
    && |states| == |calls| + 1 && |winners| == |calls| && KeeperValid(states[0])
    && forall i :: 0 <= i < |calls| ==> AnsweredBy(c, states[i], calls[i], states[i + 1], winners[i])
  }

  lemma {:induction false} NoCandidates(open: seq<bool>, start: nat, k: nat)
    requires start < |open| && k <= |open| && Candidates(open, start, k) == []
    ensures forall i :: 0 <= i < k ==> open[Slot(|open|, start, i)]
  {
    if k > 0 {
      hide Candidates, Slot;
      CandidatesStep(open, start, k - 1);
      var idx := Slot(|open|, start, k - 1);
      NothingAdded(Candidates(open, start, k - 1), if open[idx] then [] else [idx]);
      NoCandidates(open, start, k - 1);
    }
  }

  lemma OnlyCandidate(open: seq<bool>, start: nat, k: nat, w: nat)
    requires start < |open| && 0 < k <= |open| && Candidates(open, start, k) == [w] && w == Slot(|open|, start, k - 1) && !open[w]
    ensures forall i :: 0 <= i < k - 1 ==> open[Slot(|open|, start, i)]
  {
    hide Candidates, Slot;
    CandidatesStep(open, start, k - 1);
    LastDropped(Candidates(open, start, k - 1), w);
    NoCandidates(open, start, k - 1);
  }

  lemma NothingAdded(s: seq<nat>, more: seq<nat>)
    requires s + more == []
    ensures s == [] && more == []
  {
    assert |s + more| == |s| + |more|;
  }

  lemma LastDropped(s: seq<nat>, w: nat)
    requires s + [w] == [w]
    ensures s == []
  {
    assert |s + [w]| == |s| + 1;
  }

  lemma AnsweredShape(c: Config, p: KeeperState, attempts: seq<Attempt>, q: KeeperState, w: nat) returns (examined: nat)
    requires AnsweredBy(c, p, attempts, q, w)
    ensures KeeperValid(p) && KeeperValid(q) && OpenFlags(q.breakers) == OpenFlags(p.breakers)
    ensures var open := OpenFlags(p.breakers);
            && w < |open| && !open[w] && 0 < examined <= |open| && Candidates(open, p.current, examined) == [w]
            && w == Slot(|open|, p.current, examined - 1) && q.current == Slot(|open|, w, 1)
  {
    hide Candidates, Slot;
    examined :| KeeperCall(c, p, attempts, q, [w], examined, Some(w));
    assert w == [w][0] && examined > 0;
    assert [w][0] in [w];
    assert OpenFlags(q.breakers) == OpenFlags(p.breakers);
  }

  /** Such a call is served by the first endpoint from the cursor on that is not open, and opens or closes none. */
  lemma AnsweredCall(c: Config, p: KeeperState, attempts: seq<Attempt>, q: KeeperState, w: nat)
    requires AnsweredBy(c, p, attempts, q, w)
    ensures KeeperValid(p) && KeeperValid(q) && OpenFlags(q.breakers) == OpenFlags(p.breakers)
    ensures var open := OpenFlags(p.breakers);
            && w < |open| && !open[w] && Serving(open) > 0
            && Place(open, w) == Place(open, p.current)
            && Place(open, q.current) == Forward(Place(open, w), 1, Serving(open))
  {
    hide Candidates, Place, Serving, Rank, Slot, Forward, AnsweredBy, OpenFlags;
    var examined := AnsweredShape(c, p, attempts, q, w);
    var open := OpenFlags(p.breakers);
    OnlyCandidate(open, p.current, examined, w);
    PlaceOf(open, w);
    PassOpen(open, p.current, examined - 1);
    NextPlace(open, w);
  }

  /** The pool `k` answered calls after `p`. */
  predicate CursorAt(p: KeeperState, q: KeeperState, k: nat) {
    && KeeperValid(p) && KeeperValid(q) && OpenFlags(q.breakers) == OpenFlags(p.breakers)
    && var open := OpenFlags(p.breakers);
       Serving(open) > 0 ==> Place(open, q.current) == Forward(Place(open, p.current), k, Serving(open))
  }

  lemma OneFurther(place: nat, k: nat, n: nat)
    requires n > 0
    ensures Forward(Forward(place, k, n), 1, n) == Forward(place, k + 1, n)
    ensures place < n ==> Forward(place, 0, n) == place
  {
    NextQuotient(n, place + k);
    var t := Forward(place, k, n);
    QuotientUnique(t + 1, n, if t + 1 == n then 1 else 0, if t + 1 == n then 0 else t + 1);
    if place < n { QuotientUnique(place, n, 0, place); }
  }

  lemma CursorStarts(p: KeeperState)
    requires KeeperValid(p)
    ensures CursorAt(p, p, 0)
  {
    hide OpenFlags, Serving, Forward;
    var open := OpenFlags(p.breakers);
    if Serving(open) > 0 { OneFurther(Place(open, p.current), 0, Serving(open)); }
  }

  lemma CursorNext(c: Config, p: KeeperState, q: KeeperState, k: nat, attempts: seq<Attempt>, r: KeeperState, w: nat)
    requires CursorAt(p, q, k) && AnsweredBy(c, q, attempts, r, w)
    ensures CursorAt(p, r, k + 1)
  {
    hide OpenFlags, Serving, Forward, Place, Rank, AnsweredBy;
    AnsweredCall(c, q, attempts, r, w);
    var open := OpenFlags(p.breakers);
    OneFurther(Place(open, p.current), k, Serving(open));
  }

  lemma {:induction false} CursorAdvances(c: Config, states: seq<KeeperState>, calls: seq<seq<Attempt>>, winners: seq<nat>, k: nat)
    requires AnsweredRun(c, states, calls, winners) && k < |states|
    ensures CursorAt(states[0], states[k], k)
  {
    hide CursorAt, AnsweredBy, KeeperValid;
    if k == 0 {
      CursorStarts(states[0]);
    } else {
      CursorAdvances(c, states, calls, winners, k - 1);
      CursorNext(c, states[0], states[k - 1], k - 1, calls[k - 1], states[k], winners[k - 1]);
    }
  }

  /**
   With whatever endpoints open, call `k` is served by the endpoint `k` places after the starting
   cursor among those that are not.
   */
  lemma RoundRobin(c: Config, states: seq<KeeperState>, calls: seq<seq<Attempt>>, winners: seq<nat>, k: nat)
    requires AnsweredRun(c, states, calls, winners) && k < |winners|
    ensures var open := OpenFlags(states[0].breakers);
            && winners[k] < |open| && !open[winners[k]] && Serving(open) > 0
            && Rank(open, winners[k]) == Forward(Place(open, states[0].current), k, Serving(open))
  {
    assert states[0].current < |states[0].breakers|;
    assert AnsweredBy(c, states[k], calls[k], states[k + 1], winners[k]);
    hide CursorAt, AnsweredBy, OpenFlags, Serving, Place, Rank, KeeperValid, Forward;
    CursorAdvances(c, states, calls, winners, k);
    ServedInTurn(c, states[0], states[k], k, calls[k], states[k + 1], winners[k]);
  }

  lemma ServedInTurn(c: Config, p: KeeperState, q: KeeperState, k: nat, attempts: seq<Attempt>, r: KeeperState, w: nat)
    requires CursorAt(p, q, k) && AnsweredBy(c, q, attempts, r, w)
    ensures var open := OpenFlags(p.breakers);
            && w < |open| && !open[w] && Serving(open) > 0
            && Rank(open, w) == Forward(Place(open, p.current), k, Serving(open))
  {
    hide OpenFlags, Serving, Place, Rank, AnsweredBy, Forward;
    AnsweredCall(c, q, attempts, r, w);
    PlaceOf(OpenFlags(p.breakers), w);
  }

  /** How many of the calls endpoint `e` served. */
  function Share(winners: seq<nat>, e: nat): nat {
    if winners == [] then 0 else Share(winners[..|winners| - 1], e) + if winners[|winners| - 1] == e then 1 else 0
  }

  /** Numbers below `t` that leave remainder `e`. */
  function Below(n: nat, e: nat, t: nat): int
    requires n > 0
  {
    t / n + if e < t % n then 1 else 0
  }

  lemma BelowNext(n: nat, e: nat, t: nat)
    requires n > 0 && e < n
    ensures Below(n, e, t + 1) == Below(n, e, t) + if t % n == e then 1 else 0
    ensures Below(n, e, 0) == 0
  {
    NextQuotient(n, t);
    QuotientUnique(0, n, 0, 0);
  }

  lemma {:induction false} ServedExactly(winners: seq<nat>, open: seq<bool>, start: nat, e: nat)
    requires e < |open| && !open[e] && Serving(open) > 0
    requires forall i :: 0 <= i < |winners| ==>
               winners[i] < |open| && !open[winners[i]] && Rank(open, winners[i]) == Forward(start, i, Serving(open))
    ensures Share(winners, e)
            == Below(Serving(open), Rank(open, e), start + |winners|) - Below(Serving(open), Rank(open, e), start)
  {
    if winners != [] {
      var last := |winners| - 1;
      hide Serving, Rank, Below, Place;
      ServedExactly(winners[..last], open, start, e);
      PlaceOf(open, e);
      BelowNext(Serving(open), Rank(open, e), start + last);
      SameRank(open, winners[last], e);
    }
  }

  lemma SameRank(open: seq<bool>, x: nat, y: nat)
    requires x < |open| && y < |open| && !open[x] && !open[y]
    ensures Rank(open, x) == Rank(open, y) ==> x == y
  {
    if x < y { RankGrows(open, x, y); }
    if y < x { RankGrows(open, y, x); }
  }

  lemma {:induction false} NeverServed(winners: seq<nat>, e: nat)
    requires forall i :: 0 <= i < |winners| ==> winners[i] != e
    ensures Share(winners, e) == 0
  {
    if winners != [] { NeverServed(winners[..|winners| - 1], e); }
  }

  /**
   The keeper pool is fair: in every run answered at the first ask, whatever endpoints are open, those
   serve no call and the shares of any two others differ by at most one.
   */
  lemma UsageBalanced(c: Config, states: seq<KeeperState>, calls: seq<seq<Attempt>>, winners: seq<nat>, e: nat, f: nat)
    requires AnsweredRun(c, states, calls, winners) && e < |states[0].breakers| && f < |states[0].breakers|
    requires states[0].breakers[e].phase != Open
    ensures states[0].breakers[f].phase == Open ==> Share(winners, f) == 0
    ensures states[0].breakers[f].phase != Open ==> -1 <= Share(winners, e) - Share(winners, f) <= 1
  {
    var open := OpenFlags(states[0].breakers);
    assert !open[e] && (open[f] <==> states[0].breakers[f].phase == Open);
    PlaceOf(open, e);
    var m, at := Serving(open), Place(open, states[0].current);
    forall i | 0 <= i < |winners|
      ensures winners[i] < |open| && !open[winners[i]] && Rank(open, winners[i]) == Forward(at, i, m)
    {
      RoundRobin(c, states, calls, winners, i);
    }
    if open[f] {
      NeverServed(winners, f);
    } else {
      hide Serving, Rank, OpenFlags, AnsweredRun, Place, Share, Forward;
      ServedExactly(winners, open, at, e);
      ServedExactly(winners, open, at, f);
      BelowBalanced(m, Rank(open, e), Rank(open, f), at, at + |winners|);
    }
  }

  lemma BelowBalanced(n: nat, e: nat, f: nat, s: nat, t: nat)
    requires n > 0 && s < n
    ensures -1 <= (Below(n, e, t) - Below(n, e, s)) - (Below(n, f, t) - Below(n, f, s)) <= 1
  {
    QuotientUnique(s, n, 0, s);
  }

  // ---------- API pool ----------

  datatype Entry = Entry(open: bool, failures: nat, lastFailure: int)

  predicate Available(c: Config, e: Entry, now: int) { !e.open || now - e.lastFailure >= c.timeout }

  function RecordFailure(c: Config, e: Entry, end: int): Entry {
    Entry(e.failures + 1 >= c.threshold || e.open, e.failures + 1, end)
  }

  function AvailableIndices(c: Config, entries: seq<Entry>, now: int, n: nat): (r: seq<nat>)
    requires n <= |entries|
    ensures forall x :: x in r <==> 0 <= x < n && Available(c, entries[x], now)
    ensures forall a :: 0 <= a < |r| ==> r[a] < n
    ensures forall a, b :: 0 <= a < b < |r| ==> r[a] < r[b]
  {
    if n == 0 then []
    else AvailableIndices(c, entries, now, n - 1) + if Available(c, entries[n - 1], now) then [n - 1] else []
  }

  /** The entries once the endpoints in `tried` have all failed. */
  function FailAll(c: Config, entries: seq<Entry>, attempts: seq<Attempt>, tried: seq<nat>): (r: seq<Entry>)
    requires |attempts| == |entries|
    ensures |r| == |entries|
    ensures forall x :: 0 <= x < |r| && x !in tried ==> r[x] == entries[x]
  {
    seq(|entries|, x requires 0 <= x < |entries| =>
      if x in tried then RecordFailure(c, entries[x], attempts[x].end) else entries[x])
  }

  lemma FailOneMore(c: Config, entries: seq<Entry>, attempts: seq<Attempt>, tried: seq<nat>, x: nat)
    requires |attempts| == |entries| && x < |entries|
    ensures FailAll(c, entries, attempts, tried + [x])
            == FailAll(c, entries, attempts, tried)[x := RecordFailure(c, entries[x], attempts[x].end)]
  {
  }

  lemma FailNone(c: Config, entries: seq<Entry>, attempts: seq<Attempt>)
    requires |attempts| == |entries|
    ensures FailAll(c, entries, attempts, []) == entries
  {
  }

  /** The entries after a call over the endpoints `tried`, the last of which succeeded if there is a winner. */
  function AfterCall(c: Config, entries: seq<Entry>, attempts: seq<Attempt>, tried: seq<nat>, winner: Option<nat>): (r: seq<Entry>)
    requires |attempts| == |entries| && (winner.Some? ==> tried != [] && winner.value < |entries|)
    ensures |r| == |entries|
  {
    match winner
    case None => FailAll(c, entries, attempts, tried)
    case Some(w) => FailAll(c, entries, attempts, tried[..|tried| - 1])[w := Entry(false, 0, entries[w].lastFailure)]
  }

  lemma AskNobody(c: Config, entries: seq<Entry>, attempts: seq<Attempt>)
    requires |attempts| == |entries|
    ensures AfterCall(c, entries, attempts, [], None) == entries
  {
  }

  /** An endpoint whose cool-down has passed is closed again by being looked at. */
  function Refresh(c: Config, e: Entry, now: int): Entry {
    if Available(c, e, now) then e.(open := false) else e
  }

  function RefreshAll(c: Config, entries: seq<Entry>, now: int): (r: seq<Entry>)
    ensures |r| == |entries|
  {
    seq(|entries|, x requires 0 <= x < |entries| => Refresh(c, entries[x], now))
  }

  /** The first `k` endpoints asked, from the round-robin position on. */
  function Turns(available: seq<nat>, start: nat, k: nat): (r: seq<nat>)
    requires start < |available| && k <= |available|
    ensures |r| == k && forall a :: 0 <= a < k ==> r[a] == available[Slot(|available|, start, a)]
    ensures forall x :: x in r ==> x in available
  {
    seq(k, a requires 0 <= a < k => available[Slot(|available|, start, a)])
  }

  predicate Increasing(available: seq<nat>) { forall a, b :: 0 <= a < b < |available| ==> available[a] < available[b] }

  lemma TurnsFacts(available: seq<nat>, start: nat, k: nat)
    requires start < |available| && k <= |available| && Increasing(available)
    ensures forall a :: 0 <= a < k ==> Turns(available, start, k)[a] in available
    ensures forall a, b :: 0 <= a < b < k ==> Turns(available, start, k)[a] != Turns(available, start, k)[b]
  {
  }

  lemma NextTurn(available: seq<nat>, start: nat, k: nat)
    requires start < |available| && k < |available| && Increasing(available)
    ensures var idx := available[Slot(|available|, start, k)];
            idx !in Turns(available, start, k) && Turns(available, start, k + 1) == Turns(available, start, k) + [idx]
  {
    TurnsFacts(available, start, k + 1);
  }

  lemma EveryTurn(available: seq<nat>, start: nat)
    requires start < |available|
    ensures forall x :: x in available ==> x in Turns(available, start, |available|)
  {
    forall x | x in available ensures x in Turns(available, start, |available|) {
      var a :| 0 <= a < |available| && available[a] == x;
      var j := SlotOf(|available|, start, a);
      assert Turns(available, start, |available|)[j] == x;
    }
  }

  lemma RefreshCases(c: Config, e: Entry, now: int)
    ensures !e.open ==> Available(c, e, now) && Refresh(c, e, now) == e
    ensures e.open && now - e.lastFailure >= c.timeout ==> Available(c, e, now) && Refresh(c, e, now) == e.(open := false)
    ensures e.open && now - e.lastFailure < c.timeout ==> !Available(c, e, now) && Refresh(c, e, now) == e
  {
  }

  lemma NextAvailable(c: Config, entries: seq<Entry>, now: int, x: nat)
    requires x < |entries|
    ensures AvailableIndices(c, entries, now, 0) == []
    ensures AvailableIndices(c, entries, now, x + 1)
            == AvailableIndices(c, entries, now, x) + if Available(c, entries[x], now) then [x] else []
  {
  }

  datatype ApiState = ApiState(entries: seq<Entry>, roundRobinIndex: nat)

  /** The asked endpoints all failed, or all but the last, which answered. */
  predicate EndsAtFirstSuccess(attempts: seq<Attempt>, tried: seq<nat>, winner: Option<nat>) {
    && (forall a :: 0 <= a < |tried| ==> tried[a] < |attempts|)
    && match winner
       case None => forall a :: 0 <= a < |tried| ==> !attempts[tried[a]].ok
       case Some(w) => tried != [] && w == tried[|tried| - 1] && attempts[w].ok && forall a :: 0 <= a < |tried| - 1 ==> !attempts[tried[a]].ok
  }

  /** One call: the available endpoints are asked in turn from the round-robin position, up to the first success. */
  ghost predicate ApiCall(c: Config, p: ApiState, now: int, attempts: seq<Attempt>, q: ApiState, tried: seq<nat>, winner: Option<nat>) {
    var available := AvailableIndices(c, p.entries, now, |p.entries|);
    && |attempts| == |p.entries| > 0
    && |tried| <= |available| && (available != [] ==> tried == Turns(available, p.roundRobinIndex % |available|, |tried|))
    && EndsAtFirstSuccess(attempts, tried, winner) && (winner.None? ==> |tried| == |available|)
    && q.entries == AfterCall(c, RefreshAll(c, p.entries, now), attempts, tried, winner)
    && q.roundRobinIndex == if winner.Some? then (p.roundRobinIndex + 1) % |p.entries| else p.roundRobinIndex
  }

  class ApiPool {
    const config: Config
    var entries: seq<Entry>
    var roundRobinIndex: nat

    ghost function View(): ApiState
      reads this
    {
      ApiState(entries, roundRobinIndex)
    }

    constructor (config: Config, urls: nat)
      ensures this.config == config && roundRobinIndex == 0
      ensures entries == seq(if urls == 0 then 1 else urls, _ => Entry(false, 0, 0))
    {
      this.config := config;
      entries := seq(if urls == 0 then 1 else urls, _ => Entry(false, 0, 0));
      roundRobinIndex := 0;
    }

    /** `getAvailableEntries`: the filter also closes endpoints whose cool-down has passed. */
    method GetAvailableEntries(now: int) returns (available: seq<nat>)
      modifies this`entries
      ensures available == AvailableIndices(config, old(entries), now, |old(entries)|)
      ensures entries == RefreshAll(config, old(entries), now)
    {
      ghost var s := entries;
      available := [];
      assert AvailableIndices(config, s, now, 0) == [];
      hide AvailableIndices, Available, Refresh;
      for x := 0 to |entries|
        invariant |entries| == |s|
        invariant available == AvailableIndices(config, s, now, x)
        invariant forall y :: 0 <= y < x ==> entries[y] == Refresh(config, s[y], now)
        invariant forall y :: x <= y < |entries| ==> entries[y] == s[y]
      {
        RefreshCases(config, s[x], now);
        NextAvailable(config, s, now, x);
        if !entries[x].open {
          available := available + [x];
        } else if now - entries[x].lastFailure >= config.timeout {
          entries := entries[x := entries[x].(open := false)];
          available := available + [x];
        }
      }
    }

    method Call(now: int, attempts: seq<Attempt>) returns (tried: seq<nat>, winner: Option<nat>)
      requires |attempts| == |entries| > 0
      modifies this
      ensures ApiCall(config, old(View()), now, attempts, View(), tried, winner)
    {
      hide Available, RecordFailure, AvailableIndices, AfterCall, FailAll, Turns;
      var available := GetAvailableEntries(now);
      if available == [] {
        AskNobody(config, entries, attempts);
        return [], None;
      }
      winner, tried := AskInTurn(available, attempts);
      if winner.Some? {
        roundRobinIndex := (roundRobinIndex + 1) % |entries|;
      }
    }

    /** The failover loop over the available endpoints, from the round-robin position. */
    method AskInTurn(available: seq<nat>, attempts: seq<Attempt>) returns (winner: Option<nat>, tried: seq<nat>)
      requires |attempts| == |entries| && available != []
      requires forall a :: 0 <= a < |available| ==> available[a] < |entries|
      requires Increasing(available)
      modifies this`entries
      ensures |tried| <= |available| && tried == Turns(available, roundRobinIndex % |available|, |tried|)
      ensures EndsAtFirstSuccess(attempts, tried, winner) && (winner.None? ==> |tried| == |available|)
      ensures entries == AfterCall(config, old(entries), attempts, tried, winner)
    {
      hide RecordFailure, FailAll;
      var m := |available|;
      var startIndex := roundRobinIndex % m;
      tried, winner := [], None;
      FailNone(config, entries, attempts);
      var i := 0;
      while i < m
        invariant 0 <= i <= m
        invariant tried == Turns(available, startIndex, i)
        invariant forall a :: 0 <= a < i ==> tried[a] < |attempts| && !attempts[tried[a]].ok
        invariant entries == FailAll(config, old(entries), attempts, tried)
      {
        var idx := available[Slot(m, startIndex, i)];
        NextTurn(available, startIndex, i);
        FailOneMore(config, old(entries), attempts, tried, idx);
        tried := tried + [idx];
        if attempts[idx].ok {
          entries := entries[idx := entries[idx].(open := false, failures := 0)];
          winner := Some(idx);
          return;
        }
        entries := entries[idx := RecordFailure(config, entries[idx], attempts[idx].end)];
        i := i + 1;
      }
    }
  }

  /** No endpoint is asked twice; a call fails exactly when no available endpoint would answer, and then all were asked. */
  lemma ApiAsksOnce(c: Config, p: ApiState, now: int, attempts: seq<Attempt>, q: ApiState, tried: seq<nat>, winner: Option<nat>)
    requires ApiCall(c, p, now, attempts, q, tried, winner)
    ensures forall a, b :: 0 <= a < b < |tried| ==> tried[a] != tried[b]
    ensures forall x :: x in tried ==> x < |p.entries| && Available(c, p.entries[x], now)
    ensures winner.None? ==> forall x :: 0 <= x < |p.entries| && Available(c, p.entries[x], now) ==> x in tried && !attempts[x].ok
  {
    var available := AvailableIndices(c, p.entries, now, |p.entries|);
    hide Available, Turns, AfterCall;
    if available != [] {
      TurnsFacts(available, p.roundRobinIndex % |available|, |tried|);
      if winner.None? { EveryTurn(available, p.roundRobinIndex % |available|); }
    }
  }

  /**
   The contrast with the keeper pool. An open endpoint is asked by a call exactly when its
   cool-down has passed and every endpoint whose turn comes before its own fails.
   */
  lemma CooledDownEndpointAskedInItsTurn(c: Config, p: ApiState, now: int, attempts: seq<Attempt>, q: ApiState,
                                         tried: seq<nat>, winner: Option<nat>, x: nat)
    requires ApiCall(c, p, now, attempts, q, tried, winner) && x < |p.entries| && p.entries[x].open
    ensures x in tried <==>
              now - p.entries[x].lastFailure >= c.timeout && TurnComes(c, p, now, attempts, x)
  {
    var available := AvailableIndices(c, p.entries, now, |p.entries|);
    assert x in available <==> now - p.entries[x].lastFailure >= c.timeout;
    hide ApiCall, AvailableIndices, TurnComes;
    if x in available {
      var turns, t := ApiTurns(c, p, now, attempts, q, tried, winner, x);
      AskedInTurn(turns, attempts, tried, winner, t);
    } else {
      ApiAsksOnce(c, p, now, attempts, q, tried, winner);
    }
  }

  /** A call asks a prefix of the turns it could take; available endpoint `x` has turn `t`. */
  lemma ApiTurns(c: Config, p: ApiState, now: int, attempts: seq<Attempt>, q: ApiState, tried: seq<nat>, winner: Option<nat>, x: nat)
    returns (turns: seq<nat>, t: nat)
    requires ApiCall(c, p, now, attempts, q, tried, winner) && x in AvailableIndices(c, p.entries, now, |p.entries|)
    ensures |tried| <= |turns| && tried == turns[..|tried|] && (winner.None? ==> |tried| == |turns|)
    ensures EndsAtFirstSuccess(attempts, tried, winner)
    ensures forall a :: 0 <= a < |turns| ==> turns[a] < |attempts|
    ensures forall a, b :: 0 <= a < b < |turns| ==> turns[a] != turns[b]
    ensures t < |turns| && turns[t] == x && |attempts| == |p.entries|
    ensures TurnComes(c, p, now, attempts, x) <==> forall j :: j in turns[..t] ==> !attempts[j].ok
  {
    var available := AvailableIndices(c, p.entries, now, |p.entries|);
    hide AfterCall, AvailableIndices, Turns, Slot, EndsAtFirstSuccess, RefreshAll, Available;
    var start := p.roundRobinIndex % |available|;
    turns := Turns(available, start, |available|);
    TurnsFacts(available, start, |available|);
    EveryTurn(available, start);
    t :| 0 <= t < |turns| && turns[t] == x;
    BeforeFirst(turns, t);
    TurnsPrefix(available, start, |tried|);
  }

  lemma TurnsPrefix(available: seq<nat>, start: nat, k: nat)
    requires start < |available| && k <= |available|
    ensures Turns(available, start, k) == Turns(available, start, |available|)[..k]
  {
  }

  /** Along a list of distinct endpoints asked up to the first success, one is reached exactly when all before it fail. */
  lemma AskedInTurn(turns: seq<nat>, attempts: seq<Attempt>, tried: seq<nat>, winner: Option<nat>, t: nat)
    requires t < |turns| && |tried| <= |turns| && tried == turns[..|tried|] && EndsAtFirstSuccess(attempts, tried, winner)
    requires winner.None? ==> |tried| == |turns|
    requires forall a :: 0 <= a < |turns| ==> turns[a] < |attempts|
    requires forall a, b :: 0 <= a < b < |turns| ==> turns[a] != turns[b]
    ensures turns[t] in tried <==> forall j :: j in turns[..t] ==> !attempts[j].ok
  {
    if t < |tried| {
      assert tried[t] == turns[t];
      forall j | j in turns[..t] ensures !attempts[j].ok {
        var i :| 0 <= i < t && turns[i] == j;
        assert tried[i] == j;
      }
    } else {
      var last := |tried| - 1;
      assert turns[..t][last] == tried[last] && attempts[tried[last]].ok;
    }
  }

  /** The available endpoints whose turn in this call comes before that of `x`. */
  ghost function EarlierTurns(c: Config, p: ApiState, now: int, x: nat): (r: seq<nat>)
    ensures forall j :: j in r ==> j < |p.entries|
  {
    var available := AvailableIndices(c, p.entries, now, |p.entries|);
    if available == [] then []
    else
      var turns := Turns(available, p.roundRobinIndex % |available|, |available|);
      Before(turns, x)
  }

  ghost predicate TurnComes(c: Config, p: ApiState, now: int, attempts: seq<Attempt>, x: nat)
    requires |attempts| == |p.entries|
  {
    forall j :: j in EarlierTurns(c, p, now, x) ==> !attempts[j].ok
  }

  function Before(s: seq<nat>, x: nat): (r: seq<nat>)
    ensures forall j :: j in r ==> j in s
  {
    if s == [] || s[0] == x then [] else [s[0]] + Before(s[1..], x)
  }

  lemma {:induction false} BeforeFirst(s: seq<nat>, t: nat)
    requires t < |s| && forall a, b :: 0 <= a < b < |s| ==> s[a] != s[b]
    ensures Before(s, s[t]) == s[..t]
  {
    if t > 0 { BeforeFirst(s[1..], t - 1); }
  }

  // ---------- When an endpoint of the API pool opens ----------

  /** What one call was given and did. */
  datatype ApiStep = ApiStep(now: int, attempts: seq<Attempt>, tried: seq<nat>, winner: Option<nat>)

  /** Calls one after another on a fresh pool, `states[i]` before call `i`. */
  ghost predicate ApiCalls(c: Config, states: seq<ApiState>, calls: seq<ApiStep>) {
    && |states| == |calls| + 1
    && (forall x :: 0 <= x < |states[0].entries| ==> states[0].entries[x] == Entry(false, 0, 0))
    && forall i :: 0 <= i < |calls| ==>
         ApiCall(c, states[i], calls[i].now, calls[i].attempts, states[i + 1], calls[i].tried, calls[i].winner)
  }

  /** The first `k` calls asked endpoint `x` this often, all in vain, since it last answered. */
  function FailuresInARow(calls: seq<ApiStep>, x: nat, k: nat): nat
    requires k <= |calls|
  {
    if k == 0 then 0
    else if x !in calls[k - 1].tried then FailuresInARow(calls, x, k - 1)
    else if x < |calls[k - 1].attempts| && calls[k - 1].attempts[x].ok then 0
    else FailuresInARow(calls, x, k - 1) + 1
  }

  /** What a call does to one endpoint: nothing unless it is asked, but for closing it when its cool-down has passed. */
  lemma EndpointAfterCall(c: Config, p: ApiState, now: int, attempts: seq<Attempt>, q: ApiState, tried: seq<nat>, winner: Option<nat>, x: nat)
    requires ApiCall(c, p, now, attempts, q, tried, winner) && x < |p.entries|
    ensures |attempts| == |q.entries| == |p.entries|
    ensures var e, e1 := p.entries[x], q.entries[x];
            if x !in tried then
              e1 == Entry(e.open && now < e.lastFailure + c.timeout, e.failures, e.lastFailure)
            else
              && (e.open ==> e.lastFailure + c.timeout <= now)
              && e1 == if attempts[x].ok then Entry(false, 0, e.lastFailure)
                       else Entry(e.failures + 1 >= c.threshold, e.failures + 1, attempts[x].end)
  {
    ApiAsksOnce(c, p, now, attempts, q, tried, winner);
    hide Turns, AvailableIndices;
    RefreshCases(c, p.entries[x], now);
    if winner.Some? {
      var last := |tried| - 1;
      var w := tried[last];
      if x in tried {
        var a :| 0 <= a < |tried| && tried[a] == x;
        assert a < last ==> tried[..last][a] == x && !attempts[x].ok;
        assert a == last ==> x == w;
      }
      assert x in tried[..last] ==> x in tried;
      assert w !in tried[..last];
    }
  }

  lemma CallsLength(c: Config, states: seq<ApiState>, calls: seq<ApiStep>)
    requires ApiCalls(c, states, calls)
    ensures |states| == |calls| + 1
  {
    hide ApiCall;
  }

  lemma ApiSizes(c: Config, states: seq<ApiState>, calls: seq<ApiStep>, k: nat)
    requires ApiCalls(c, states, calls) && k < |calls|
    ensures ApiCall(c, states[k], calls[k].now, calls[k].attempts, states[k + 1], calls[k].tried, calls[k].winner)
    ensures |states| == |calls| + 1
  {
    hide ApiCall;
  }

  lemma {:induction false} SameSizes(c: Config, states: seq<ApiState>, calls: seq<ApiStep>, k: nat)
    requires ApiCalls(c, states, calls) && k < |states|
    ensures |states[k].entries| == |states[0].entries|
    ensures k < |calls| ==> |calls[k].attempts| == |states[0].entries|
  {
    hide ApiCalls, AvailableIndices, Turns, EndsAtFirstSuccess, RefreshAll;
    CallsLength(c, states, calls);
    if k > 0 {
      SameSizes(c, states, calls, k - 1);
      ApiSizes(c, states, calls, k - 1);
    }
    if k < |states| - 1 { ApiSizes(c, states, calls, k); }
  }

  /** The failure counter of an endpoint is the number of its failures since it last answered. */
  lemma {:induction false} CounterIsFailuresInARow(c: Config, states: seq<ApiState>, calls: seq<ApiStep>, x: nat, k: nat)
    requires ApiCalls(c, states, calls) && x < |states[0].entries| && k < |states|
    ensures |states[k].entries| == |states[0].entries| && states[k].entries[x].failures == FailuresInARow(calls, x, k)
  {
    hide ApiCall;
    if k > 0 {
      CounterIsFailuresInARow(c, states, calls, x, k - 1);
      var l := calls[k - 1];
      EndpointAfterCall(c, states[k - 1], l.now, l.attempts, states[k], l.tried, l.winner, x);
    }
  }

  /**
   An endpoint that is asked and fails is open afterwards if and only if it has now failed
   `threshold` times since it last answered; one that answers is closed.
   */
  lemma OpensExactlyAtThreshold(c: Config, states: seq<ApiState>, calls: seq<ApiStep>, x: nat, k: nat)
    requires ApiCalls(c, states, calls) && x < |states[0].entries| && k < |calls| && x in calls[k].tried
    ensures |states[k + 1].entries| == |states[0].entries| == |calls[k].attempts|
    ensures states[k + 1].entries[x].open <==> !calls[k].attempts[x].ok && FailuresInARow(calls, x, k + 1) >= c.threshold
  {
    hide ApiCall, ApiCalls;
    CallsLength(c, states, calls);
    CounterIsFailuresInARow(c, states, calls, x, k);
    CounterIsFailuresInARow(c, states, calls, x, k + 1);
    ApiSizes(c, states, calls, k);
    EndpointAfterCall(c, states[k], calls[k].now, calls[k].attempts, states[k + 1], calls[k].tried, calls[k].winner, x);
  }

  /** And then no call asks it until `timeout` has passed since that failure settled. */
  lemma {:induction false} NotAskedWhileCoolingDown(c: Config, states: seq<ApiState>, calls: seq<ApiStep>, x: nat, k: nat, j: nat)
    requires ApiCalls(c, states, calls) && x < |states[0].entries| && k < j < |calls| && x in calls[k].tried
    requires x < |calls[k].attempts| && !calls[k].attempts[x].ok && FailuresInARow(calls, x, k + 1) >= c.threshold
    requires forall i :: k < i <= j ==> calls[i].now < calls[k].attempts[x].end + c.timeout
    ensures x !in calls[j].tried
    ensures |states[j].entries| == |states[0].entries|
    ensures states[j].entries[x].open && states[j].entries[x].lastFailure == calls[k].attempts[x].end
  {
    hide ApiCall, ApiCalls;
    CallsLength(c, states, calls);
    SameSizes(c, states, calls, j);
    if j == k + 1 {
      OpensExactlyAtThreshold(c, states, calls, x, k);
      SameSizes(c, states, calls, k);
      ApiSizes(c, states, calls, k);
      EndpointAfterCall(c, states[k], calls[k].now, calls[k].attempts, states[k + 1], calls[k].tried, calls[k].winner, x);
    } else {
      NotAskedWhileCoolingDown(c, states, calls, x, k, j - 1);
      ApiSizes(c, states, calls, j - 1);
      EndpointAfterCall(c, states[j - 1], calls[j - 1].now, calls[j - 1].attempts, states[j], calls[j - 1].tried, calls[j - 1].winner, x);
    }
    ApiSizes(c, states, calls, j);
    EndpointAfterCall(c, states[j], calls[j].now, calls[j].attempts, states[j + 1], calls[j].tried, calls[j].winner, x);
  }

  // ---------- The API pool is not fair while an endpoint cools down ----------

  /** A run in which the same endpoints are available at every call and the first one asked answers. */
  ghost predicate ApiRun(c: Config, states: seq<ApiState>, nows: seq<int>, calls: seq<seq<Attempt>>, winners: seq<nat>, available: seq<nat>) {
    && |states| == |calls| + 1 && |nows| == |calls| && |winners| == |calls|
    && states[0].roundRobinIndex == 0 && available != [] && Increasing(available)
    && forall i :: 0 <= i < |calls| ==>
         && ApiCall(c, states[i], nows[i], calls[i], states[i + 1], [winners[i]], Some(winners[i]))
         && AvailableIndices(c, states[i].entries, nows[i], |states[i].entries|) == available
  }

  lemma ApiAnswered(c: Config, p: ApiState, now: int, attempts: seq<Attempt>, q: ApiState, w: nat, available: seq<nat>)
    requires ApiCall(c, p, now, attempts, q, [w], Some(w)) && available != []
    requires AvailableIndices(c, p.entries, now, |p.entries|) == available
    ensures |q.entries| == |p.entries| > 0
    ensures w == available[Wrap(p.roundRobinIndex, |available|)]
    ensures q.roundRobinIndex == Wrap(p.roundRobinIndex + 1, |p.entries|)
  {
    hide AvailableIndices, Available, AfterCall, EndsAtFirstSuccess, RefreshAll, Turns, Slot;
    var start := p.roundRobinIndex % |available|;
    assert |[w]| == 1 && [w] == Turns(available, start, 1);
    assert [w][0] == available[Slot(|available|, start, 0)];
  }

  function Wrap(t: nat, n: nat): (r: nat)
    requires n > 0
    ensures r < n
  {
    t % n
  }

  lemma WrapOnce(t: nat, n: nat)
    requires n > 0
    ensures Wrap(Wrap(t, n) + 1, n) == Wrap(t + 1, n) && Wrap(0, n) == 0
  {
    NextQuotient(n, t);
    QuotientUnique(0, n, 0, 0);
    var r := Wrap(t, n);
    QuotientUnique(r + 1, n, if r + 1 == n then 1 else 0, if r + 1 == n then 0 else r + 1);
  }

  /** The position counts calls modulo all endpoints, and is then taken modulo the available ones. */
  lemma {:induction false} ApiPosition(c: Config, states: seq<ApiState>, nows: seq<int>, calls: seq<seq<Attempt>>, winners: seq<nat>,
                                       available: seq<nat>, k: nat)
    requires ApiRun(c, states, nows, calls, winners, available) && k < |states|
    requires |states[0].entries| > 0
    ensures |states[k].entries| == |states[0].entries| && states[k].roundRobinIndex == Wrap(k, |states[0].entries|)
    ensures k < |winners| ==> winners[k] == available[Wrap(Wrap(k, |states[0].entries|), |available|)]
  {
    hide ApiCall, AvailableIndices, Wrap, Increasing;
    var n := |states[0].entries|;
    if k == 0 {
      WrapOnce(0, n);
    } else {
      ApiPosition(c, states, nows, calls, winners, available, k - 1);
      ApiAnswered(c, states[k - 1], nows[k - 1], calls[k - 1], states[k], winners[k - 1], available);
      WrapOnce(k - 1, n);
    }
    if k < |winners| { ApiAnswered(c, states[k], nows[k], calls[k], states[k + 1], winners[k], available); }
  }

  lemma {:induction false} CyclesOfShares(winners: seq<nat>, available: seq<nat>, n: nat, a: nat)
    requires n > 0 && Increasing(available) && a < |available|
    requires forall i :: 0 <= i < |winners| ==> winners[i] == available[Wrap(Wrap(i, n), |available|)]
    ensures var m, t := |available|, |winners|;
            Share(winners, available[a]) == t / n * Below(m, a, n) + Below(m, a, t % n)
  {
    var m, t := |available|, |winners|;
    hide Below, Wrap;
    if t == 0 {
      BelowNext(m, a, 0);
      QuotientUnique(0, n, 0, 0);
    } else {
      var last := t - 1;
      CyclesOfShares(winners[..last], available, n, a);
      assert winners[last] == available[a] <==> Wrap(Wrap(last, n), m) == a;
      CycleNext(n, m, a, last);
    }
  }

  /** The closed form of a share after one more call. */
  lemma CycleNext(n: nat, m: nat, a: nat, t: nat)
    requires n > 0 && a < m
    ensures (t + 1) / n * Below(m, a, n) + Below(m, a, (t + 1) % n)
            == t / n * Below(m, a, n) + Below(m, a, t % n) + if Wrap(Wrap(t, n), m) == a then 1 else 0
  {
    hide Below, Wrap;
    var q, r := t / n, t % n;
    NextQuotient(n, t);
    BelowNext(m, a, r);
    OneCycleMore(q, Below(m, a, n));
    assert Wrap(Wrap(t, n), m) == r % m by { WrapIs(t, n); WrapIs(r, m); }
    if r == n - 1 {
      assert (t + 1) / n == q + 1 && (t + 1) % n == 0;
    } else {
      assert (t + 1) / n == q && (t + 1) % n == r + 1;
    }
  }

  lemma WrapIs(t: nat, n: nat)
    requires n > 0
    ensures Wrap(t, n) == t % n
  {
  }

  lemma OneCycleMore(q: nat, size: int)
    ensures (q + 1) * size == q * size + size
  {
  }

  /**
   After `cycles` rounds of as many calls as the pool has endpoints, each available endpoint that comes
   early enough has served one call per round more than each that does not.
   */
  lemma ApiUsageDrifts(c: Config, states: seq<ApiState>, nows: seq<int>, calls: seq<seq<Attempt>>, winners: seq<nat>,
                       available: seq<nat>, cycles: nat, a: nat, b: nat)
    requires ApiRun(c, states, nows, calls, winners, available) && a < |available| && b < |available|
    requires |states[0].entries| > 0 && |winners| == cycles * |states[0].entries|
    ensures var extra := |states[0].entries| % |available|;
            Share(winners, available[a]) - Share(winners, available[b])
            == cycles * ((if a < extra then 1 else 0) - (if b < extra then 1 else 0))
  {
    var n, m := |states[0].entries|, |available|;
    forall i | 0 <= i < |winners| ensures winners[i] == available[Wrap(Wrap(i, n), m)] {
      ApiPosition(c, states, nows, calls, winners, available, i);
    }
    hide ApiCall, AvailableIndices, Wrap, Share, ApiRun;
    QuotientUnique(cycles * n, n, cycles, 0);
    QuotientUnique(0, m, 0, 0);
    CyclesOfShares(winners, available, n, a);
    CyclesOfShares(winners, available, n, b);
    OneApart(cycles, Below(m, a, n), Below(m, b, n));
  }

  lemma OneApart(k: nat, x: int, y: int)
    ensures k * x - k * y == k * (x - y)
  {
  }

  /** So usage is even exactly when the number of available endpoints divides the number of all. */
  lemma ApiUsageEvenExactly(c: Config, states: seq<ApiState>, nows: seq<int>, calls: seq<seq<Attempt>>, winners: seq<nat>,
                            available: seq<nat>, cycles: nat)
    requires ApiRun(c, states, nows, calls, winners, available) && cycles > 0
    requires |states[0].entries| > 0 && |winners| == cycles * |states[0].entries|
    ensures (forall a, b :: 0 <= a < |available| && 0 <= b < |available| ==> Share(winners, available[a]) == Share(winners, available[b]))
            <==> |states[0].entries| % |available| == 0
  {
    var m, extra := |available|, |states[0].entries| % |available|;
    hide ApiRun, Share;
    if extra == 0 {
      forall a, b | 0 <= a < m && 0 <= b < m ensures Share(winners, available[a]) == Share(winners, available[b]) {
        ApiUsageDrifts(c, states, nows, calls, winners, available, cycles, a, b);
      }
    } else {
      ApiUsageDrifts(c, states, nows, calls, winners, available, cycles, 0, m - 1);
    }
  }
}
