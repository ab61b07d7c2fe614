/**
 Alert fan-out: flapping suppression, deduplication, bounded retries, escalation and the final
 status of the alert. The channel implementations are foreign; `net(n)` is how the n-th send of
 the process ends, and within one call `clock(n)` is the time once `n` sends have been made:
 sends and the pauses between them take time, the statements in between do not.
 */
module NotificationEngine {
  import opened Common
  import opened StateMachines

  // ---------- Flapping ----------

  const FLAPPING_WINDOW_MS := 5 * 60 * 1000
  const FLAPPING_THRESHOLD := 3

  /** `firstSeen` and `eventNames` are written and never read. */
  datatype Flap = Flap(count: nat, lastSeen: int)

  predicate Stale(f: Flap, now: int) { now - f.lastSeen > FLAPPING_WINDOW_MS }

  function Touch(f: Option<Flap>, now: int): Flap {
    if f.None? || Stale(f.value, now) then Flap(1, now) else Flap(f.value.count + 1, now)
  }

  type Tracker = map<string, Flap>

  function EntryOf(t: Tracker, entity: string): Option<Flap> { if entity in t then Some(t[entity]) else None }

  function Swept(t: Tracker, now: int): Tracker { map k | k in t && !Stale(t[k], now) :: t[k] }

  datatype Tick = Check(entity: string, now: int) | Sweep(now: int)

  predicate ClockRuns(trace: seq<Tick>) { forall i, j :: 0 <= i < j < |trace| ==> trace[i].now <= trace[j].now }

  function TrackerAfter(trace: seq<Tick>): Tracker {
    if trace == [] then map[]
    else
      var t := TrackerAfter(trace[..|trace| - 1]);
      match trace[|trace| - 1]
      case Check(e, now) => t[e := Touch(EntryOf(t, e), now)]
      case Sweep(now) => Swept(t, now)
  }

  function ChecksOf(trace: seq<Tick>, entity: string): seq<int> {
    if trace == [] then []
    else
      var last := trace[|trace| - 1];
      ChecksOf(trace[..|trace| - 1], entity) + if last.Check? && last.entity == entity then [last.now] else []
  }

  /** How many checks end the history with no gap of more than five minutes between two of them. */
  function Streak(times: seq<int>): nat {
    if times == [] then 0
    else
      var n := |times| - 1;
      if n > 0 && times[n] - times[n - 1] <= 300_000 then Streak(times[..n]) + 1 else 1
  }

  /** The entry counts the streak, or was swept when no further check could extend it. */
  ghost predicate CountsStreak(trace: seq<Tick>, entity: string) {
    var f, times := EntryOf(TrackerAfter(trace), entity), ChecksOf(trace, entity);
    && (f.Some? ==> times != [] && f.value == Flap(Streak(times), times[|times| - 1]))
    && (f.None? && times != [] ==> trace[|trace| - 1].now - times[|times| - 1] > FLAPPING_WINDOW_MS)
  }

  lemma {:induction false} EntryCountsStreak(trace: seq<Tick>, entity: string)
    requires ClockRuns(trace)
    ensures CountsStreak(trace, entity)
  {
    if trace != [] {
      var before, last := trace[..|trace| - 1], trace[|trace| - 1];
      EntryCountsStreak(before, entity);
      var times := ChecksOf(before, entity);
      if last.Check? && last.entity == entity {
        assert (times + [last.now])[..|times|] == times;
      } else {
        assert times + [] == times;
      }
    }
  }

  /** `checkFlapping` as it answers in a running process, sweeps and other entities included. */
  predicate Flapping(t: Tracker, entity: string, now: int) {
    EntryOf(t, entity).Some? && Touch(EntryOf(t, entity), now).count >= FLAPPING_THRESHOLD
  }

  /** It is true exactly when this check ends a streak of three or more. */
  lemma FlappingExactlyOnStreaksOfThree(trace: seq<Tick>, entity: string, now: int)
    requires ClockRuns(trace + [Check(entity, now)])
    ensures Flapping(TrackerAfter(trace), entity, now) <==> Streak(ChecksOf(trace, entity) + [now]) >= 3
  {
    var all, times := trace + [Check(entity, now)], ChecksOf(trace, entity);
    assert forall i :: 0 <= i < |trace| ==> all[i] == trace[i];
    EntryCountsStreak(trace, entity);
    assert (times + [now])[..|times|] == times;
    if trace != [] { assert all[|trace| - 1].now <= all[|trace|].now; }
  }

  /** Consecutive checks from position `from` on come within the window. */
  predicate WithinWindow(times: seq<int>, from: nat) {
    forall i :: from < i < |times| ==> times[i] - times[i - 1] <= 300_000
  }

  /**
   A suppressed alert stays in status `fired` and is polled again: as long as each poll comes
   within the window of the one before, every one of them is suppressed, for ever.
   */
  lemma {:induction false} SuppressionRenewsItself(times: seq<int>, from: nat, i: nat)
    requires from <= i < |times| && Streak(times[..from + 1]) >= 3 && WithinWindow(times, from)
    ensures Streak(times[..i + 1]) >= 3
    decreases i
  {
    if i > from {
      SuppressionRenewsItself(times, from, i - 1);
      assert times[..i + 1][..i] == times[..i];
    }
  }

  // ---------- Rows ----------

  datatype AlertStatus = Fired | AlertDelivered | Acknowledged | DeliveryFailed | DeliveryFailedFinal | Escalated | PartialDelivery

  const ALERT_EVENT: Machine<AlertStatus> := Machine(
    [Fired, AlertDelivered, Acknowledged, DeliveryFailed, DeliveryFailedFinal, Escalated],
    Fired,
    [Acknowledged, Escalated],
    [Transition(Fired, AlertDelivered, Automatic),
     Transition(Fired, DeliveryFailed, Automatic),
     Transition(DeliveryFailed, AlertDelivered, Automatic),
     Transition(DeliveryFailed, DeliveryFailedFinal, Automatic),
     Transition(DeliveryFailedFinal, Escalated, Automatic),
     Transition(AlertDelivered, Acknowledged, Manual)])

  datatype Alert = Alert(org: string, entity: string, rule: Option<string>, status: AlertStatus)

  datatype Rule = Rule(org: string, channelIds: seq<string>, escalation: seq<string>, dedupWindowMs: int)

  datatype Channel = Channel(org: string, kind: string, active: bool)

  datatype Notification = Notification(alertId: string, channelId: string, createdAt: int, status: NotificationStatus)

  const NO_RULE := Rule("", [], [], 300 * 1000)

  /**
   One delivery: the channel, whether it succeeded, when its notification was inserted, how many
   sends the process had made before it, and how many it made.
   */
  datatype Delivery = Delivery(channelId: string, success: bool, at: int, first: nat, sends: nat)

  datatype SendOutcome = Success | Failure | Throws

  function Rows(alertId: string, ds: seq<Delivery>): (rows: seq<Notification>)
    ensures |rows| == |ds|
    ensures forall i :: 0 <= i < |ds| ==>
              rows[i].alertId == alertId && rows[i].channelId == ds[i].channelId && rows[i].createdAt == ds[i].at
              && rows[i].status in {Delivered, Failed} && (rows[i].status == Delivered <==> ds[i].success)
  {
    seq(|ds|, i requires 0 <= i < |ds| => Notification(alertId, ds[i].channelId, ds[i].at, if ds[i].success then Delivered else Failed))
  }

  /** What a call did, for the contract. */
  datatype Report = Report(primary: seq<Delivery>, escalation: seq<Delivery>, fallback: seq<Delivery>)

  datatype Outcome = Missing | AlreadyDone | Suppressed | Processed(report: Report)

  predicate AllSucceeded(ds: seq<Delivery>) { forall d :: d in ds ==> d.success }

  predicate AllFailed(ds: seq<Delivery>) { forall d :: d in ds ==> !d.success }

  predicate AnySucceeded(ds: seq<Delivery>) { exists d :: d in ds && d.success }

  /** Which deliveries may happen, and the status the alert ends with. */
  ghost predicate Aggregates(r: Report, status: AlertStatus) {
    && (r.escalation != [] ==> r.primary != [] && AllFailed(r.primary))
    && (r.fallback != [] ==> r.primary != [] && AllFailed(r.primary) && AllFailed(r.escalation) && |r.fallback| == 1)
    && (status == AlertDelivered <==>
          r.primary != [] && (AllSucceeded(r.primary) || (AllFailed(r.primary) && AnySucceeded(r.escalation))))
    && (status == PartialDelivery <==> AnySucceeded(r.primary) && !AllSucceeded(r.primary))
    && (status == DeliveryFailedFinal <==> AllFailed(r.primary) && !AnySucceeded(r.escalation))
  }

  // ---------- Sends ----------

  const MAX_RETRIES := 3

  /** Time does not run backwards. */
  ghost predicate Runs(clock: nat -> int) { forall i, j :: 0 <= i <= j ==> clock(i) <= clock(j) }

  predicate Works(net: nat -> SendOutcome, n: nat) { net(n) == Success }

  // ---------- Whose sends they were ----------

  /** The sends of a delivery: all to its channel, the first success the last of them, at most `limit`, and no fewer in vain. */
  ghost predicate OwnSends(net: nat -> SendOutcome, d: Delivery, sent: seq<string>, limit: nat) {
    && 1 <= d.sends <= limit && d.first + d.sends <= |sent|
    && (forall n :: d.first <= n < d.first + d.sends ==> sent[n] == d.channelId)
    && (forall n :: d.first <= n < d.first + d.sends - 1 ==> net(n) != Success)
    && (d.success <==> net(d.first + d.sends - 1) == Success)
    && (!d.success ==> d.sends == limit)
  }

  /** The sends from `from` on are those of the deliveries, one after the other. */
  ghost predicate MadeBy(net: nat -> SendOutcome, ds: seq<Delivery>, from: nat, sent: seq<string>, limit: nat)
    decreases |ds|
  {
    if ds == [] then |sent| == from
    else
      var n := |ds| - 1;
      from <= ds[n].first && ds[n].first + ds[n].sends == |sent| && OwnSends(net, ds[n], sent, limit)
      && MadeBy(net, ds[..n], from, sent[..ds[n].first], limit)
  }

  function EndOf(ds: seq<Delivery>, from: nat): nat { if ds == [] then from else ds[|ds| - 1].first + ds[|ds| - 1].sends }

  lemma MadeByOneMore(net: nat -> SendOutcome, ds: seq<Delivery>, from: nat, before: seq<string>, d: Delivery, sent: seq<string>, limit: nat)
    requires MadeBy(net, ds, from, before, limit) && from <= |before|
    requires before <= sent && d.first == |before| && d.first + d.sends == |sent| && OwnSends(net, d, sent, limit)
    ensures MadeBy(net, ds + [d], from, sent, limit)
  {
    assert sent[..d.first] == before && (ds + [d])[..|ds|] == ds;
  }

  lemma MadeByNone(net: nat -> SendOutcome, sent: seq<string>, limit: nat)
    ensures MadeBy(net, [], |sent|, sent, limit)
  {
  }

  lemma MadeByEnds(net: nat -> SendOutcome, ds: seq<Delivery>, from: nat, sent: seq<string>, limit: nat)
    requires MadeBy(net, ds, from, sent, limit)
    ensures EndOf(ds, from) == |sent| && sent[..|sent|] == sent
  {
  }

  lemma {:induction false} MadeByFacts(net: nat -> SendOutcome, ds: seq<Delivery>, from: nat, sent: seq<string>, limit: nat)
    requires MadeBy(net, ds, from, sent, limit)
    ensures from <= |sent| <= from + limit * |ds| && (ds != [] ==> |sent| > from)
    ensures forall d :: d in ds ==> from <= d.first && d.first + d.sends <= |sent| && OwnSends(net, d, sent, limit)
    ensures forall n :: from <= n < |sent| ==> exists d :: d in ds && d.channelId == sent[n]
    decreases |ds|
  {
    if ds != [] {
      var k := |ds| - 1;
      var before := sent[..ds[k].first];
      MadeByFacts(net, ds[..k], from, before, limit);
      assert limit * |ds| == limit * k + limit;
      forall d | d in ds ensures from <= d.first && d.first + d.sends <= |sent| && OwnSends(net, d, sent, limit) {
        if d in ds[..k] {
          assert OwnSends(net, d, before, limit);
          assert forall n :: d.first <= n < d.first + d.sends ==> sent[n] == before[n];
        } else {
          assert d == ds[k];
        }
      }
      forall n | from <= n < |sent| ensures exists d :: d in ds && d.channelId == sent[n] {
        if n < ds[k].first {
          var d :| d in ds[..k] && d.channelId == before[n];
          assert d in ds;
        } else {
          assert ds[k] in ds;
        }
      }
    }
  }

  /** All sends of a call from `from` on: those of the primaries, of the escalation, and the one of the fallback. */
  ghost predicate AllSends(net: nat -> SendOutcome, r: Report, from: nat, sent: seq<string>) {
    var a := EndOf(r.primary, from);
    var b := EndOf(r.escalation, a);
    && from <= a <= b <= |sent|
    && MadeBy(net, r.primary, from, sent[..a], 3) && MadeBy(net, r.escalation, a, sent[..b], 3)
    && MadeBy(net, r.fallback, b, sent, 1)
  }

  /** A delivery of any stage succeeded exactly when one of its own sends did, and every send of a call is one of a delivery. */
  lemma SucceededExactlyByOwnSends(net: nat -> SendOutcome, r: Report, from: nat, sent: seq<string>)
    requires AllSends(net, r, from, sent)
    ensures forall d :: d in r.primary + r.escalation + r.fallback ==>
              && from <= d.first && d.first + d.sends <= |sent|
              && (d.success <==> exists n :: d.first <= n < d.first + d.sends && net(n) == Success)
              && forall n :: d.first <= n < d.first + d.sends ==> sent[n] == d.channelId
    ensures forall n :: from <= n < |sent| ==> exists d :: d in r.primary + r.escalation + r.fallback && d.channelId == sent[n]
  {
    var a := EndOf(r.primary, from);
    var b := EndOf(r.escalation, a);
    MadeByFacts(net, r.primary, from, sent[..a], 3);
    MadeByFacts(net, r.escalation, a, sent[..b], 3);
    MadeByFacts(net, r.fallback, b, sent, 1);
    hide MadeBy, AllSends;
    forall d | d in r.primary + r.escalation + r.fallback
      ensures from <= d.first && d.first + d.sends <= |sent|
      ensures d.success <==> exists n :: d.first <= n < d.first + d.sends && net(n) == Success
      ensures forall n :: d.first <= n < d.first + d.sends ==> sent[n] == d.channelId
    {
      if d in r.primary {
        OwnSendsTell(net, d, sent[..a], sent, 3);
      } else if d in r.escalation {
        OwnSendsTell(net, d, sent[..b], sent, 3);
      } else {
        OwnSendsTell(net, d, sent, sent, 1);
      }
    }
    hide OwnSends;
    forall n | from <= n < |sent| ensures exists d :: d in r.primary + r.escalation + r.fallback && d.channelId == sent[n] {
      if n < a {
        var d :| d in r.primary && d.channelId == sent[..a][n];
      } else if n < b {
        var d :| d in r.escalation && d.channelId == sent[..b][n];
      } else {
        var d :| d in r.fallback && d.channelId == sent[n];
      }
    }
  }

  lemma OwnSendsTell(net: nat -> SendOutcome, d: Delivery, before: seq<string>, sent: seq<string>, limit: nat)
    requires OwnSends(net, d, before, limit) && before <= sent
    ensures d.success <==> exists n :: d.first <= n < d.first + d.sends && net(n) == Success
    ensures d.first + d.sends <= |sent| && forall n :: d.first <= n < d.first + d.sends ==> sent[n] == d.channelId
  {
    var last := d.first + d.sends - 1;
    assert d.success ==> net(last) == Success;
    assert forall n :: d.first <= n < d.first + d.sends ==> before[n] == sent[n];
  }

  /** If every send of a call succeeds its deliveries all did, and if none does they all failed. */
  lemma UniformSends(net: nat -> SendOutcome, r: Report, from: nat, sent: seq<string>)
    requires AllSends(net, r, from, sent)
    ensures (forall n :: from <= n < |sent| ==> net(n) == Success) ==> AllSucceeded(r.primary + r.escalation + r.fallback)
    ensures (forall n :: from <= n < |sent| ==> net(n) != Success) ==> AllFailed(r.primary + r.escalation + r.fallback)
  {
    SucceededExactlyByOwnSends(net, r, from, sent);
    var a := EndOf(r.primary, from);
    MadeByFacts(net, r.primary, from, sent[..a], 3);
    MadeByFacts(net, r.escalation, a, sent[..EndOf(r.escalation, a)], 3);
    MadeByFacts(net, r.fallback, EndOf(r.escalation, a), sent, 1);
    hide AllSends, MadeBy;
    if forall n :: from <= n < |sent| ==> net(n) == Success {
      forall d | d in r.primary + r.escalation + r.fallback ensures d.success {
        assert d.sends >= 1;
        assert net(d.first) == Success;
      }
    }
  }

  class Engine {
    const net: nat -> SendOutcome
    const channels: map<string, Channel>
    const implementations: set<string>
    const rules: map<string, Rule>
    var alerts: map<string, Alert>
    var notifications: seq<Notification>
    var tracker: Tracker
    /** The outside world's record: the channels in the order they were sent to. */
    var sent: seq<string>

    constructor (net: nat -> SendOutcome, channels: map<string, Channel>, implementations: set<string>,
                 rules: map<string, Rule>, alerts: map<string, Alert>)
      ensures this.net == net && this.channels == channels && this.implementations == implementations && this.rules == rules
      ensures this.alerts == alerts && notifications == [] && tracker == map[] && sent == []
    {
      this.net, this.channels, this.implementations, this.rules := net, channels, implementations, rules;
      this.alerts, notifications, tracker, sent := alerts, [], map[], [];
    }

    method CheckFlapping(entity: string, now: int) returns (flapping: bool)
      modifies this`tracker
      ensures tracker == old(tracker)[entity := Touch(EntryOf(old(tracker), entity), now)]
      ensures flapping == Flapping(old(tracker), entity, now)
    {
      if entity !in tracker || now - tracker[entity].lastSeen > FLAPPING_WINDOW_MS {
        tracker := tracker[entity := Flap(1, now)];
        return false;
      }
      var entry := tracker[entity];
      entry := Flap(entry.count + 1, now);
      tracker := tracker[entity := entry];
      return entry.count >= FLAPPING_THRESHOLD;
    }

    /** The timer's callback. */
    method SweepTracker(now: int)
      modifies this`tracker
      ensures tracker == Swept(old(tracker), now)
    {
      var all, todo := tracker, tracker.Keys;
      while todo != {}
        invariant todo <= all.Keys && tracker.Keys <= all.Keys
        invariant forall k :: k in tracker ==> tracker[k] == all[k]
        invariant forall k :: k in all ==> (k in tracker <==> k in todo || !Stale(all[k], now))
        decreases |todo|
      {
        var k :| k in todo;
        if now - all[k].lastSeen > FLAPPING_WINDOW_MS {
          tracker := tracker - {k};
        }
        todo := todo - {k};
      }
      assert tracker == Swept(all, now);
    }

    /** At most three sends, stopping at the first success. */
    method RetryDelivery(channelId: string) returns (ok: bool)
      modifies this`sent
      ensures var n := |old(sent)|;
              && ok == (Works(net, n) || Works(net, n + 1) || Works(net, n + 2))
              && sent == old(sent) + seq(if Works(net, n) then 1 else if Works(net, n + 1) then 2 else 3, _ => channelId)
    {
      for attempt := 1 to MAX_RETRIES + 1
        invariant sent == old(sent) + seq(attempt - 1, _ => channelId)
        invariant forall n :: |old(sent)| <= n < |old(sent)| + attempt - 1 ==> !Works(net, n)
      {
        var outcome := net(|sent|);
        sent := sent + [channelId];
        assert sent == old(sent) + seq(attempt, _ => channelId);
        if outcome == Success {
          return true;
        }
      }
      assert sent == old(sent) + seq(MAX_RETRIES, _ => channelId);
      return false;
    }

    /** Insert, mark sent, deliver with retries, finalize. Every status change passes the machine's check. */
    method Deliver(alertId: string, channelId: string, at: int) returns (d: Delivery)
      modifies this`notifications, this`sent
      ensures d.channelId == channelId && d.at == at
      ensures notifications == old(notifications) + Rows(alertId, [d])
      ensures old(sent) <= sent && d.first == |old(sent)| && d.first + d.sends == |sent| && OwnSends(net, d, sent, 3)
    {
      var first := |sent|;
      var id := |notifications|;
      notifications := notifications + [Notification(alertId, channelId, at, Queued)];
      MoveTo(id, Sent);
      var ok := RetryDelivery(channelId);
      MoveTo(id, if ok then Delivered else Failed);
      return Delivery(channelId, ok, at, first, |sent| - first);
    }

    /** `validateTransition` and the UPDATE; the precondition says the check does not throw. */
    method MoveTo(id: nat, status: NotificationStatus)
      requires id < |notifications| && NotificationEdge(notifications[id].status, status)
      modifies this`notifications
      ensures notifications == old(notifications)[id := old(notifications)[id].(status := status)]
    {
      NotificationEdges(notifications[id].status, status);
      var checked := ValidateTransition(NOTIFICATION, notifications[id].status, status);
      assert checked.Ok?;
      notifications := notifications[id := notifications[id].(status := status)];
    }

    predicate Usable(alert: Alert, channelId: string) {
      channelId in channels && channels[channelId].active && channels[channelId].org == alert.org
      && channels[channelId].kind in implementations
    }

    /**
     Every usable channel of the rule without a notification of this alert in the window before
     `start` is tried; a channel is tried only if none lies in the window before its turn, so
     one that is listed twice is tried twice only if the retries in between outlast the window.
     */
    ghost predicate AttemptsExactly(ns: seq<Notification>, alertId: string, alert: Alert, rule: Rule, start: int, ds: seq<Delivery>) {
      && (forall c :: c in rule.channelIds && Usable(alert, c) && !RecentlyNotified(ns, alertId, c, start - rule.dedupWindowMs)
                      ==> Attempts(ds, c))
      && (forall d :: d in ds ==> Eligible(ns, alertId, alert, rule, d))
      && Spaced(ds, rule.dedupWindowMs)
      && (ds != [] ==> ds[0].at == start)
    }

    ghost predicate Eligible(ns: seq<Notification>, alertId: string, alert: Alert, rule: Rule, d: Delivery) {
      d.channelId in rule.channelIds && Usable(alert, d.channelId)
      && !RecentlyNotified(ns, alertId, d.channelId, d.at - rule.dedupWindowMs)
    }

    /** The primary loop. */
    method DeliverPrimary(alertId: string, alert: Alert, rule: Rule, clock: nat -> int) returns (results: seq<Delivery>)
      requires Runs(clock)
      modifies this`notifications, this`sent
      ensures notifications == old(notifications) + Rows(alertId, results)
      ensures old(sent) <= sent && MadeBy(net, results, |old(sent)|, sent, 3) && |results| <= |rule.channelIds|
      ensures AttemptsExactly(old(notifications), alertId, alert, rule, clock(|old(sent)|), results)
    {
      hide MadeBy, OwnSends, Rows, Tried, Usable, RecentlyNotified, TriedAfter;
      MadeByNone(net, sent, 3);
      assert Rows(alertId, []) == [];
      results := [];
      ghost var ns, start, from := notifications, clock(|sent|), |sent|;
      NothingTried(ns, alertId, alert, rule, start);
      for i := 0 to |rule.channelIds|
        invariant notifications == ns + Rows(alertId, results)
        invariant old(sent) <= sent && MadeBy(net, results, from, sent, 3) && |results| <= i
        invariant Tried(ns, alertId, alert, rule, start, results, i)
        invariant results == [] ==> sent == old(sent)
      {
        var channelId := rule.channelIds[i];
        UsableExactly(alert, channelId);
        SkippedOne(ns, alertId, alert, rule, start, results, i);
        if channelId !in channels || !channels[channelId].active || channels[channelId].org != alert.org {
          continue;
        }
        if channels[channelId].kind !in implementations {
          continue;
        }
        var now := clock(|sent|);
        assert start <= now;
        RecentAfter(ns, alertId, channelId, now - rule.dedupWindowMs, results);
        if RecentlyNotified(notifications, alertId, channelId, now - rule.dedupWindowMs) {
          RecentEarlier(ns, alertId, channelId, now - rule.dedupWindowMs, start - rule.dedupWindowMs);
          AlreadyTried(ns, alertId, alert, rule, start, results, i, now);
          continue;
        }
        ghost var before := sent;
        var d := Deliver(alertId, channelId, now);
        RowsAppend(alertId, results, d);
        MadeByOneMore(net, results, from, before, d, sent, 3);
        TriedOneMore(ns, alertId, alert, rule, start, results, i, d);
        results := results + [d];
      }
      TriedAll(ns, alertId, alert, rule, start, results);
    }

    /** What the primary loop has done with the first `i` channels. */
    ghost predicate Tried(ns: seq<Notification>, alertId: string, alert: Alert, rule: Rule, start: int, ds: seq<Delivery>, i: nat) {
      && (forall d :: d in ds ==> Eligible(ns, alertId, alert, rule, d))
      && (forall j :: 0 <= j < i && j < |rule.channelIds| && Usable(alert, rule.channelIds[j])
                      && !RecentlyNotified(ns, alertId, rule.channelIds[j], start - rule.dedupWindowMs)
                      ==> Attempts(ds, rule.channelIds[j]))
      && Spaced(ds, rule.dedupWindowMs)
      && (ds != [] ==> ds[0].at == start)
    }

    lemma NothingTried(ns: seq<Notification>, alertId: string, alert: Alert, rule: Rule, start: int)
      ensures Tried(ns, alertId, alert, rule, start, [], 0)
    {
    }

    lemma UsableExactly(alert: Alert, channelId: string)
      ensures Usable(alert, channelId) <==>
                channelId in channels && channels[channelId].active && channels[channelId].org == alert.org
                && channels[channelId].kind in implementations
    {
    }

    /** A channel that is not usable, or had its notification before the call, is passed over. */
    lemma SkippedOne(ns: seq<Notification>, alertId: string, alert: Alert, rule: Rule, start: int, ds: seq<Delivery>, i: nat)
      requires Tried(ns, alertId, alert, rule, start, ds, i) && i < |rule.channelIds|
      ensures !Usable(alert, rule.channelIds[i]) || RecentlyNotified(ns, alertId, rule.channelIds[i], start - rule.dedupWindowMs)
              || Attempts(ds, rule.channelIds[i])
              ==> Tried(ns, alertId, alert, rule, start, ds, i + 1)
    {
      hide Usable, RecentlyNotified, Eligible, Spaced, Attempts;
    }

    /** So is one that the call itself has tried within the window. */
    lemma AlreadyTried(ns: seq<Notification>, alertId: string, alert: Alert, rule: Rule, start: int, ds: seq<Delivery>, i: nat, now: int)
      requires Tried(ns, alertId, alert, rule, start, ds, i) && i < |rule.channelIds|
      requires RecentlyNotified(ns, alertId, rule.channelIds[i], start - rule.dedupWindowMs)
               || TriedAfter(ds, rule.channelIds[i], now - rule.dedupWindowMs)
      ensures Tried(ns, alertId, alert, rule, start, ds, i + 1)
    {
      hide Usable, RecentlyNotified, Eligible, Spaced;
    }

    lemma TriedOneMore(ns: seq<Notification>, alertId: string, alert: Alert, rule: Rule, start: int, ds: seq<Delivery>, i: nat, d: Delivery)
      requires Tried(ns, alertId, alert, rule, start, ds, i) && i < |rule.channelIds| && d.channelId == rule.channelIds[i]
      requires Usable(alert, d.channelId) && !RecentlyNotified(ns, alertId, d.channelId, d.at - rule.dedupWindowMs)
      requires !TriedAfter(ds, d.channelId, d.at - rule.dedupWindowMs) && (ds == [] ==> d.at == start)
      ensures Tried(ns, alertId, alert, rule, start, ds + [d], i + 1)
    {
      hide Usable, RecentlyNotified;
      assert Eligible(ns, alertId, alert, rule, d);
      assert d in ds + [d];
      hide Eligible;
      forall a, b | 0 <= a < b < |ds + [d]| && (ds + [d])[a].channelId == (ds + [d])[b].channelId
        ensures (ds + [d])[a].at <= (ds + [d])[b].at - rule.dedupWindowMs
      {
        if b == |ds| { assert ds[a] in ds; }
      }
    }

    lemma TriedAll(ns: seq<Notification>, alertId: string, alert: Alert, rule: Rule, start: int, ds: seq<Delivery>)
      requires Tried(ns, alertId, alert, rule, start, ds, |rule.channelIds|)
      ensures AttemptsExactly(ns, alertId, alert, rule, start, ds)
    {
      hide Usable, RecentlyNotified, Eligible, Spaced, Attempts;
    }

    ghost predicate AllEscalationsTried(alert: Alert, rule: Rule, tries: seq<Delivery>) {
      forall c :: c in rule.escalation && c !in rule.channelIds && Usable(alert, c) ==> Attempts(tries, c)
    }

    /** What the escalation has done with its first `i` channels while none delivered. */
    ghost predicate EscalatedUpTo(alert: Alert, rule: Rule, tries: seq<Delivery>, i: nat) {
      && (forall d :: d in tries ==> d.channelId in rule.escalation && d.channelId !in rule.channelIds && Usable(alert, d.channelId) && !d.success)
      && (forall j :: 0 <= j < i && j < |rule.escalation| && rule.escalation[j] !in rule.channelIds && Usable(alert, rule.escalation[j])
                      ==> Attempts(tries, rule.escalation[j]))
    }

    lemma EscalatedPast(alert: Alert, rule: Rule, tries: seq<Delivery>, i: nat)
      requires EscalatedUpTo(alert, rule, tries, i) && i < |rule.escalation|
      ensures rule.escalation[i] in rule.channelIds || !Usable(alert, rule.escalation[i]) ==> EscalatedUpTo(alert, rule, tries, i + 1)
    {
      hide Usable, Attempts;
    }

    lemma EscalatedOneMore(alert: Alert, rule: Rule, tries: seq<Delivery>, i: nat, d: Delivery)
      requires EscalatedUpTo(alert, rule, tries, i) && i < |rule.escalation| && d.channelId == rule.escalation[i] && !d.success
      requires d.channelId !in rule.channelIds && Usable(alert, d.channelId)
      ensures EscalatedUpTo(alert, rule, tries + [d], i + 1)
    {
      hide Usable;
      assert d in tries + [d];
    }

    lemma EscalatedAll(alert: Alert, rule: Rule, tries: seq<Delivery>)
      requires EscalatedUpTo(alert, rule, tries, |rule.escalation|)
      ensures AllEscalationsTried(alert, rule, tries) && EscalationOf(alert, rule, tries) && AllFailed(tries)
    {
      hide Usable, Attempts;
    }

    /** Usable escalation channels that are not primaries, only the last of which can have delivered. */
    ghost predicate EscalationOf(alert: Alert, rule: Rule, tries: seq<Delivery>) {
      && (forall d :: d in tries ==> d.channelId in rule.escalation && d.channelId !in rule.channelIds && Usable(alert, d.channelId))
      && (forall i :: 0 <= i < |tries| - 1 ==> !tries[i].success)
    }

    lemma EscalationDelivered(alert: Alert, rule: Rule, tries: seq<Delivery>, i: nat, d: Delivery)
      requires EscalatedUpTo(alert, rule, tries, i) && i < |rule.escalation| && d.channelId == rule.escalation[i] && d.success
      requires d.channelId !in rule.channelIds && Usable(alert, d.channelId)
      ensures EscalationOf(alert, rule, tries + [d]) && !AllFailed(tries + [d])
    {
      hide Usable;
      assert d in tries + [d];
    }

    lemma EscalationPermitted(alert: Alert, rule: Rule, tries: seq<Delivery>)
      requires EscalationOf(alert, rule, tries)
      ensures Permitted(alert, tries)
    {
    }

    /** Escalation channels in order until one delivers; channels already tried as primaries are passed over. */
    method Escalate(alertId: string, alert: Alert, rule: Rule, at: int) returns (tries: seq<Delivery>)
      modifies this`notifications, this`sent
      ensures notifications == old(notifications) + Rows(alertId, tries)
      ensures old(sent) <= sent && MadeBy(net, tries, |old(sent)|, sent, 3) && |tries| <= |rule.escalation|
      ensures EscalationOf(alert, rule, tries) && Permitted(alert, tries)
      ensures AllFailed(tries) ==> AllEscalationsTried(alert, rule, tries)
    {
      hide MadeBy, OwnSends, Rows, Usable, EscalatedUpTo, EscalationOf, Permitted, AllEscalationsTried;
      MadeByNone(net, sent, 3);
      tries := [];
      assert Rows(alertId, []) == [];
      NothingEscalated(alert, rule);
      for i := 0 to |rule.escalation|
        invariant notifications == old(notifications) + Rows(alertId, tries)
        invariant old(sent) <= sent && MadeBy(net, tries, |old(sent)|, sent, 3) && |tries| <= i
        invariant EscalatedUpTo(alert, rule, tries, i)
      {
        var channelId := rule.escalation[i];
        UsableExactly(alert, channelId);
        EscalatedPast(alert, rule, tries, i);
        if channelId in rule.channelIds {
          continue;
        }
        if channelId !in channels || !channels[channelId].active || channels[channelId].org != alert.org {
          continue;
        }
        if channels[channelId].kind !in implementations {
          continue;
        }
        ghost var before := sent;
        var d := Deliver(alertId, channelId, at);
        RowsAppend(alertId, tries, d);
        MadeByOneMore(net, tries, |old(sent)|, before, d, sent, 3);
        if d.success {
          EscalationDelivered(alert, rule, tries, i, d);
          tries := tries + [d];
          EscalationPermitted(alert, rule, tries);
          return;
        }
        EscalatedOneMore(alert, rule, tries, i, d);
        tries := tries + [d];
      }
      EscalatedAll(alert, rule, tries);
      EscalationPermitted(alert, rule, tries);
    }

    lemma NothingEscalated(alert: Alert, rule: Rule)
      ensures EscalatedUpTo(alert, rule, [], 0)
    {
    }

    /** The last resort: one unretried send to some active email channel of the organization. */
    method EmailFallback(alertId: string, alert: Alert, at: int) returns (tries: seq<Delivery>)
      modifies this`notifications, this`sent
      ensures notifications == old(notifications) + Rows(alertId, tries)
      ensures old(sent) <= sent && MadeBy(net, tries, |old(sent)|, sent, 1) && |tries| <= 1
      ensures tries != [] <==> CanFallBack(alert)
      ensures Permitted(alert, tries) && forall d :: d in tries ==> IsEmailOf(alert, d.channelId)
    {
      var emails := set c | c in channels && IsEmailOf(alert, c);
      assert forall c :: c in channels && IsEmailOf(alert, c) ==> c in emails;
      if emails == {} || "email" !in implementations {
        return [];
      }
      var channelId :| channelId in emails;
      var id := |notifications|;
      notifications := notifications + [Notification(alertId, channelId, at, Queued)];
      MoveTo(id, Sent);
      var outcome := net(|sent|);
      sent := sent + [channelId];
      MoveTo(id, if outcome == Success then Delivered else Failed);
      tries := [Delivery(channelId, outcome == Success, at, |sent| - 1, 1)];
      assert tries[..0] == [] && sent[..|sent| - 1] == old(sent);
    }

    predicate CanFallBack(alert: Alert) { "email" in implementations && exists c :: c in channels && IsEmailOf(alert, c) }

    predicate IsEmailOf(alert: Alert, channelId: string) {
      channelId in channels && channels[channelId].org == alert.org && channels[channelId].kind == "email" && channels[channelId].active
    }

    function RuleOf(alert: Alert): Rule {
      if alert.rule.Some? && alert.rule.value in rules && rules[alert.rule.value].org == alert.org then rules[alert.rule.value] else NO_RULE
    }

    /** Before an alert is given up every usable escalation channel was tried, and then an email wherever one can be sent. */
    ghost predicate GivesUpLast(alert: Alert, rule: Rule, r: Report) {
      r.primary != [] && AllFailed(r.primary) && AllFailed(r.escalation) ==>
        AllEscalationsTried(alert, rule, r.escalation) && (r.fallback != [] <==> CanFallBack(alert))
        && forall d :: d in r.fallback ==> IsEmailOf(alert, d.channelId)
    }

    /** The aggregate step: escalation, last resort and final status, all in one transaction begun at `at`. */
    method Aggregate(alertId: string, alert: Alert, rule: Rule, primary: seq<Delivery>, at: int) returns (r: Report, status: AlertStatus)
      modifies this`notifications, this`sent
      ensures r.primary == primary && Aggregates(r, status) && GivesUpLast(alert, rule, r)
      ensures notifications == old(notifications) + Rows(alertId, r.escalation + r.fallback)
      ensures old(sent) <= sent && LaterSends(r, |old(sent)|) && |r.escalation| <= |rule.escalation| && |r.fallback| <= 1
      ensures Permitted(alert, r.escalation + r.fallback)
    {
      r := Report(primary, [], []);
      if |primary| > 0 && AllFailed(primary) {
        r, status := EscalateOrGiveUp(alertId, alert, rule, primary, at);
        return;
      }
      NothingSentLater(r, |sent|);
      if |primary| == 0 {
        status := DeliveryFailedFinal;
      } else if |primary| == 1 || AllSucceeded(primary) {
        assert primary[0] in primary;
        status := AlertDelivered;
      } else {
        status := PartialDelivery;
      }
    }

    /** All primaries failed: escalation, and the last resort when that fails too. */
    method EscalateOrGiveUp(alertId: string, alert: Alert, rule: Rule, primary: seq<Delivery>, at: int) returns (r: Report, status: AlertStatus)
      requires primary != [] && AllFailed(primary)
      modifies this`notifications, this`sent
      ensures r.primary == primary && Aggregates(r, status) && GivesUpLast(alert, rule, r)
      ensures notifications == old(notifications) + Rows(alertId, r.escalation + r.fallback)
      ensures old(sent) <= sent && LaterSends(r, |old(sent)|) && |r.escalation| <= |rule.escalation| && |r.fallback| <= 1
      ensures Permitted(alert, r.escalation + r.fallback)
    {
      hide MadeBy, Rows, AllEscalationsTried, CanFallBack, Usable, IsEmailOf;
      ghost var from := |sent|;
      assert primary[0] in primary;
      var tries := Escalate(alertId, alert, rule, at);
      ghost var escalated := sent;
      MadeByEnds(net, tries, from, sent, 3);
      assert forall i :: 0 <= i < |tries| - 1 ==> !tries[i].success;
      if tries != [] && tries[|tries| - 1].success {
        assert tries[|tries| - 1] in tries;
        MadeByNone(net, sent, 1);
        assert tries + [] == tries;
        return Report(primary, tries, []), AlertDelivered;
      }
      assert AllFailed(tries);
      var fallback := EmailFallback(alertId, alert, at);
      RowsConcat(alertId, tries, fallback);
      assert sent[..|escalated|] == escalated;
      return Report(primary, tries, fallback), DeliveryFailedFinal;
    }

    lemma NothingSentLater(r: Report, from: nat)
      requires r.escalation == [] && r.fallback == [] && from == |sent|
      ensures LaterSends(r, from) && forall id :: Rows(id, r.escalation + r.fallback) == []
    {
      MadeByNone(net, sent[..from], 3);
    }

    ghost predicate LaterSends(r: Report, from: nat)
      reads this`sent
    {
      var b := EndOf(r.escalation, from);
      from <= b <= |sent| && MadeBy(net, r.escalation, from, sent[..b], 3) && MadeBy(net, r.fallback, b, sent, 1)
    }

    lemma SendsJoined(alert: Alert, r: Report, from: nat, delivered: seq<string>)
      requires MadeBy(net, r.primary, from, delivered, 3) && from <= |delivered| && delivered <= sent && LaterSends(r, |delivered|)
      requires Permitted(alert, r.primary) && Permitted(alert, r.escalation + r.fallback)
      requires |r.fallback| <= 1
      ensures AllSends(net, r, from, sent) && Permitted(alert, r.primary + r.escalation + r.fallback)
      ensures |sent| <= from + 3 * (|r.primary| + |r.escalation|) + 1
    {
      MadeByEnds(net, r.primary, from, delivered, 3);
      MadeByFacts(net, r.primary, from, delivered, 3);
      assert sent[..|delivered|] == delivered;
      var b := EndOf(r.escalation, |delivered|);
      MadeByFacts(net, r.escalation, |delivered|, sent[..b], 3);
      MadeByFacts(net, r.fallback, b, sent, 1);
    }

    /** Nothing is sent but to active channels of the alert's organization whose kind is implemented. */
    predicate Permitted(alert: Alert, ds: seq<Delivery>) {
      forall d :: d in ds ==>
        d.channelId in channels && channels[d.channelId].active && channels[d.channelId].org == alert.org
        && channels[d.channelId].kind in implementations
    }

    /** `processAlertEvent` from the primary loop to the final status. */
    method FanOut(alertId: string, alert: Alert, rule: Rule, clock: nat -> int) returns (r: Report, status: AlertStatus)
      requires Runs(clock)
      modifies this`notifications, this`sent
      ensures notifications == old(notifications) + Rows(alertId, r.primary + r.escalation + r.fallback)
      ensures old(sent) <= sent && AllSends(net, r, |old(sent)|, sent) && Permitted(alert, r.primary + r.escalation + r.fallback)
      ensures |sent| <= |old(sent)| + 3 * (|rule.channelIds| + |rule.escalation|) + 1
      ensures Aggregates(r, status) && GivesUpLast(alert, rule, r)
      ensures AttemptsExactly(old(notifications), alertId, alert, rule, clock(|old(sent)|), r.primary)
    {
      hide Aggregates, GivesUpLast, MadeBy, Rows, RecentlyNotified, Attempts, Spaced;
      var primary := DeliverPrimary(alertId, alert, rule, clock);
      ghost var delivered := sent;
      assert Permitted(alert, primary);
      hide AttemptsExactly, Permitted;
      r, status := Aggregate(alertId, alert, rule, primary, clock(|sent|));
      SendsJoined(alert, r, |old(sent)|, delivered);
      RowsConcat(alertId, primary, r.escalation + r.fallback);
      assert primary + (r.escalation + r.fallback) == primary + r.escalation + r.fallback;
    }

    /** Every usable channel of the rule was notified within the window before the call. */
    predicate Deduplicated(ns: seq<Notification>, alertId: string, alert: Alert, rule: Rule, start: int) {
      forall c :: c in rule.channelIds && Usable(alert, c) ==> RecentlyNotified(ns, alertId, c, start - rule.dedupWindowMs)
    }

    lemma NothingToTry(ns: seq<Notification>, alertId: string, alert: Alert, rule: Rule, start: int, r: Report, status: AlertStatus)
      requires AttemptsExactly(ns, alertId, alert, rule, start, r.primary) && Aggregates(r, status)
      ensures Deduplicated(ns, alertId, alert, rule, start) ==> r.primary == [] && status == DeliveryFailedFinal
    {
      hide RecentlyNotified, Usable;
      assert r.primary != [] ==> r.primary[0] in r.primary;
    }

    method ProcessAlertEvent(alertId: string, clock: nat -> int) returns (o: Outcome)
      requires Runs(clock)
      modifies this
      ensures o.Missing? <==> alertId !in old(alerts)
      ensures o.AlreadyDone? <==> alertId in old(alerts) && old(alerts)[alertId].status in {Acknowledged, Escalated, AlertDelivered}
      ensures !o.Missing? && !o.AlreadyDone? ==> (o.Suppressed? <==> Flapping(old(tracker), old(alerts)[alertId].entity, clock(|old(sent)|)))
      ensures o.Missing? || o.AlreadyDone? || o.Suppressed? ==>
                alerts == old(alerts) && notifications == old(notifications) && sent == old(sent)
      ensures o.Missing? || o.AlreadyDone? ==> tracker == old(tracker)
      ensures !o.Missing? && !o.AlreadyDone? ==>
                tracker == old(tracker)[old(alerts)[alertId].entity := Touch(EntryOf(old(tracker), old(alerts)[alertId].entity), clock(|old(sent)|))]
      ensures o.Processed? ==>
                var alert, rule, r, start := old(alerts)[alertId], RuleOf(old(alerts)[alertId]), o.report, clock(|old(sent)|);
                && notifications == old(notifications) + Rows(alertId, r.primary + r.escalation + r.fallback)
                && |sent| <= |old(sent)| + 3 * (|rule.channelIds| + |rule.escalation|) + 1
                && old(sent) <= sent && Permitted(alert, r.primary + r.escalation + r.fallback)
                && alerts.Keys == old(alerts).Keys && (forall k :: k in alerts && k != alertId ==> alerts[k] == old(alerts)[k])
                && alerts[alertId] == alert.(status := alerts[alertId].status)
                && Accounts(old(notifications), alertId, alert, start, |old(sent)|, r, alerts[alertId].status)
                && (Deduplicated(old(notifications), alertId, alert, rule, start) ==>
                      r.primary == [] && alerts[alertId].status == DeliveryFailedFinal)
    {
      if alertId !in alerts {
        return Missing;
      }
      var alert := alerts[alertId];
      if alert.status in {Acknowledged, Escalated, AlertDelivered} {
        return AlreadyDone;
      }
      hide AttemptsExactly, GivesUpLast, Aggregates, AllSends, Permitted, Deduplicated, Rows;
      var rule := RuleOf(alert);
      var flapping := CheckFlapping(alert.entity, clock(|sent|));
      if flapping {
        return Suppressed;
      }
      ghost var ns, start := notifications, clock(|sent|);
      var report, status := FanOut(alertId, alert, rule, clock);
      NothingToTry(ns, alertId, alert, rule, start, report, status);
      alerts := alerts[alertId := alert.(status := status)];
      return Processed(report);
    }

    /** What the contract of `ProcessAlertEvent` says about a processed alert. */
    ghost predicate Accounts(ns: seq<Notification>, alertId: string, alert: Alert, start: int, from: nat, r: Report, status: AlertStatus)
      reads this`sent
    {
      && AllSends(net, r, from, sent) && Aggregates(r, status)
      && AttemptsExactly(ns, alertId, alert, RuleOf(alert), start, r.primary) && GivesUpLast(alert, RuleOf(alert), r)
    }

    /**
     Spelled out in terms of the sends: an alert with a primary channel to try is delivered when every
     send succeeds, and given up when none does; in between, it is partly delivered exactly when some
     primary delivery succeeded and another failed.
     */
    lemma StatusFollowsSends(ns: seq<Notification>, alertId: string, alert: Alert, start: int, from: nat, r: Report, status: AlertStatus)
      requires Accounts(ns, alertId, alert, start, from, r, status)
      ensures r.primary != [] && (forall n :: from <= n < |sent| ==> net(n) == Success) ==> status == AlertDelivered
      ensures (forall n :: from <= n < |sent| ==> net(n) != Success) ==> status == DeliveryFailedFinal
      ensures status == PartialDelivery <==> exists d, e :: d in r.primary && e in r.primary && d.success && !e.success
      ensures status in {AlertDelivered, PartialDelivery, DeliveryFailedFinal}
    {
      UniformSends(net, r, from, sent);
      hide AllSends, AttemptsExactly, GivesUpLast;
      assert forall d :: d in r.primary + r.escalation + r.fallback <==> d in r.primary || d in r.escalation || d in r.fallback;
      if r.primary != [] { assert r.primary[0] in r.primary; }
    }

    predicate Reachable(alert: Alert, c: string) {
      c in channels && channels[c].active && channels[c].org == alert.org && channels[c].kind in implementations
    }

    predicate NotifiedAfter(ns: seq<Notification>, alertId: string, c: string, after: int) {
      exists i :: 0 <= i < |ns| && ns[i].alertId == alertId && ns[i].channelId == c && ns[i].createdAt > after
    }

    /** The alert's rule, if it has one of its own organization, says which channels; without one there are none. */
    lemma ChannelsTried(ns: seq<Notification>, alertId: string, alert: Alert, start: int, from: nat, r: Report, status: AlertStatus)
      requires Accounts(ns, alertId, alert, start, from, r, status)
      ensures alert.rule.None? || alert.rule.value !in rules || rules[alert.rule.value].org != alert.org ==> r == Report([], [], [])
      ensures alert.rule.Some? && alert.rule.value in rules && rules[alert.rule.value].org == alert.org ==>
                var rule := rules[alert.rule.value];
                && (forall c :: c in rule.channelIds && Reachable(alert, c) && !NotifiedAfter(ns, alertId, c, start - rule.dedupWindowMs)
                                ==> exists d :: d in r.primary && d.channelId == c)
                && (forall d :: d in r.primary ==> d.channelId in rule.channelIds && Reachable(alert, d.channelId)
                                                   && !NotifiedAfter(ns, alertId, d.channelId, d.at - rule.dedupWindowMs))
                && (r.primary != [] && (forall d :: d in r.primary + r.escalation ==> !d.success) ==>
                      && (forall c :: c in rule.escalation && c !in rule.channelIds && Reachable(alert, c)
                                      ==> exists d :: d in r.escalation && d.channelId == c)
                      && (r.fallback != [] <==>
                            "email" in implementations
                            && exists c :: c in channels && channels[c].active && channels[c].org == alert.org && channels[c].kind == "email")
                      && (forall d :: d in r.fallback ==> d.channelId in channels && channels[d.channelId].kind == "email"))
    {
      hide RecentlyNotified, NotifiedAfter, AllSends, Spaced, Aggregates;
      RecentSpelledOut(ns, alertId);
      NothingLater(r, status);
      assert r.primary != [] ==> r.primary[0] in r.primary;
      assert forall d :: d in r.primary + r.escalation <==> d in r.primary || d in r.escalation;
    }

    lemma RecentSpelledOut(ns: seq<Notification>, alertId: string)
      ensures forall c, after :: RecentlyNotified(ns, alertId, c, after) <==> NotifiedAfter(ns, alertId, c, after)
    {
      forall c, after ensures RecentlyNotified(ns, alertId, c, after) <==> NotifiedAfter(ns, alertId, c, after) {
        if NotifiedAfter(ns, alertId, c, after) {
          var i :| 0 <= i < |ns| && ns[i].alertId == alertId && ns[i].channelId == c && ns[i].createdAt > after;
          assert ns[i] in ns;
        }
      }
    }

    lemma NothingLater(r: Report, status: AlertStatus)
      requires Aggregates(r, status)
      ensures r.primary == [] ==> r == Report([], [], [])
    {
    }
  }

  predicate RecentlyNotified(ns: seq<Notification>, alertId: string, channelId: string, after: int) {
    exists n :: n in ns && n.alertId == alertId && n.channelId == channelId && n.createdAt > after
  }

  predicate Attempts(ds: seq<Delivery>, channelId: string) { exists d :: d in ds && d.channelId == channelId }

  /** Two deliveries to one channel are a window apart. */
  predicate Spaced(ds: seq<Delivery>, window: int) {
    forall i, j :: 0 <= i < j < |ds| && ds[i].channelId == ds[j].channelId ==> ds[i].at <= ds[j].at - window
  }

  lemma RowsAppend(alertId: string, ds: seq<Delivery>, d: Delivery)
    ensures Rows(alertId, ds + [d]) == Rows(alertId, ds) + Rows(alertId, [d])
  {
  }

  predicate TriedAfter(ds: seq<Delivery>, channelId: string, after: int) { exists d :: d in ds && d.channelId == channelId && d.at > after }

  /** Within a call the deduplication query also sees the call's own rows. */
  lemma RecentAfter(ns: seq<Notification>, alertId: string, channelId: string, after: int, ds: seq<Delivery>)
    ensures RecentlyNotified(ns + Rows(alertId, ds), alertId, channelId, after)
            <==> RecentlyNotified(ns, alertId, channelId, after) || TriedAfter(ds, channelId, after)
  {
    var rows := Rows(alertId, ds);
    if TriedAfter(ds, channelId, after) {
      var d :| d in ds && d.channelId == channelId && d.at > after;
      var k :| 0 <= k < |ds| && ds[k] == d;
      assert rows[k] in ns + rows;
    }
    if RecentlyNotified(ns, alertId, channelId, after) {
      var n :| n in ns && n.alertId == alertId && n.channelId == channelId && n.createdAt > after;
      assert n in ns + rows;
    }
    if RecentlyNotified(ns + rows, alertId, channelId, after) {
      var n :| n in ns + rows && n.alertId == alertId && n.channelId == channelId && n.createdAt > after;
      if n !in ns {
        var k :| 0 <= k < |rows| && rows[k] == n;
        assert ds[k] in ds;
      }
    }
  }

  /** A notification recent at some time is recent with respect to any earlier bound. */
  lemma RecentEarlier(ns: seq<Notification>, alertId: string, channelId: string, after: int, earlier: int)
    requires earlier <= after
    ensures RecentlyNotified(ns, alertId, channelId, after) ==> RecentlyNotified(ns, alertId, channelId, earlier)
  {
  }

  lemma RowsConcat(alertId: string, a: seq<Delivery>, b: seq<Delivery>)
    ensures Rows(alertId, a + b) == Rows(alertId, a) + Rows(alertId, b)
  {
  }

  predicate NotificationEdge(from: NotificationStatus, to: NotificationStatus) {
    (from == Queued && to == Sent) || (from == Sent && (to == Delivered || to == Failed))
  }

  lemma NotificationEdges(from: NotificationStatus, to: NotificationStatus)
    ensures ValidateTransition(NOTIFICATION, from, to).Ok? <==> NotificationEdge(from, to)
  {
    NotificationStates(from);
    NotificationStates(to);
    if NotificationEdge(from, to) { NotificationTableHas(from, to); }
    if HasEdge(NOTIFICATION, from, to) { NotificationTableOnly(from, to); }
    hide NOTIFICATION, HasEdge;
  }

  lemma NotificationStates(st: NotificationStatus)
    ensures st in NOTIFICATION.states
    ensures st in NOTIFICATION.terminal <==> st == Delivered || st == Failed
  {
    var all, bad := NOTIFICATION.states, NOTIFICATION.terminal;
    assert all[0] in all && all[1] in all && all[2] in all && all[3] in all;
    assert bad[0] in bad && bad[1] in bad;
  }

  lemma NotificationTableHas(from: NotificationStatus, to: NotificationStatus)
    requires NotificationEdge(from, to)
    ensures HasEdge(NOTIFICATION, from, to)
  {
    var ts := NOTIFICATION.transitions;
    assert ts[0] in ts && ts[1] in ts && ts[2] in ts;
  }

  lemma NotificationTableOnly(from: NotificationStatus, to: NotificationStatus)
    requires HasEdge(NOTIFICATION, from, to)
    ensures NotificationEdge(from, to)
  {
    var ts := NOTIFICATION.transitions;
    var t :| t in ts && t.source == from && t.target == to;
    var i :| 0 <= i < |ts| && ts[i] == t;
    assert i == 0 || i == 1 || i == 2;
  }

  // ---------- The alert's own machine ----------

  /** Of the statuses a call writes over `fired`, the registered machine knows only `delivered`. */
  lemma FinalStatusOnMachineExactlyWhenDelivered(r: Report, status: AlertStatus)
    requires Aggregates(r, status)
    ensures ValidateTransition(ALERT_EVENT, Fired, status).Ok? <==>
            r.primary != [] && (AllSucceeded(r.primary) || (AllFailed(r.primary) && AnySucceeded(r.escalation)))
  {
    FromFired(status);
    hide ValidateTransition, ALERT_EVENT;
    assert r.primary != [] ==> r.primary[0] in r.primary;
  }

  lemma FromFired(status: AlertStatus)
    ensures ValidateTransition(ALERT_EVENT, Fired, status).Ok? <==> status == AlertDelivered || status == DeliveryFailed
  {
    AlertTable();
    if HasEdge(ALERT_EVENT, Fired, status) { FromFiredOnly(status); }
    hide ALERT_EVENT;
  }

  /** The table has both moves out of `fired`, and knows the three states they join; `fired` is not terminal. */
  lemma AlertTable()
    ensures HasEdge(ALERT_EVENT, Fired, AlertDelivered) && HasEdge(ALERT_EVENT, Fired, DeliveryFailed)
    ensures Fired in ALERT_EVENT.states && AlertDelivered in ALERT_EVENT.states && DeliveryFailed in ALERT_EVENT.states
    ensures Fired !in ALERT_EVENT.terminal
  {
    var ts, all := ALERT_EVENT.transitions, ALERT_EVENT.states;
    assert ts[0] in ts && ts[1] in ts && all[0] in all && all[1] in all && all[3] in all;
  }

  lemma AlertRow(i: nat)
    requires i < |ALERT_EVENT.transitions| && ALERT_EVENT.transitions[i].source == Fired
    ensures ALERT_EVENT.transitions[i].target in {AlertDelivered, DeliveryFailed}
  {
    assert i == 0 || i == 1 || i == 2 || i == 3 || i == 4 || i == 5;
  }

  lemma FromFiredOnly(status: AlertStatus)
    requires HasEdge(ALERT_EVENT, Fired, status)
    ensures status == AlertDelivered || status == DeliveryFailed
  {
    hide ALERT_EVENT;
    var ts := ALERT_EVENT.transitions;
    var t :| t in ts && t.source == Fired && t.target == status;
    var i :| 0 <= i < |ts| && ts[i] == t;
    AlertRow(i);
  }
}
