/**
 Spending limits, budgets and the append-only cost ledger. Costs are reals; times are
 milliseconds. A record carries the wallet and the policies that the queries' joins give for
 its renewal job.
 */
module CostEngine {
  import opened Common

  datatype Scope = Wallet | Project | Organization | Policy

  datatype Period = Daily | Weekly | Monthly | Lifetime

  datatype Limit = Limit(id: string, org: string, scope: Scope, target: string, amount: real, period: Period, active: bool)

  datatype CostRecord = CostRecord(jobId: string, org: string, project: Option<string>, wallet: Option<string>,
                                   policies: set<string>, actual: real, at: int)

  datatype Budget = Budget(id: string, org: string, project: Option<string>, amount: real, alertThreshold: Option<real>,
                           windowStart: int, windowEnd: Option<int>, active: bool)

  // ---------- Sums over the ledger ----------

  datatype Account = OfLimit(limit: Limit) | OfBudget(org: string, project: Option<string>)

  /** `from` and `to` are both inclusive; an absent bound does not restrict. */
  datatype Window = Window(from: Option<int>, to: Option<int>)

  predicate ChargedTo(a: Account, r: CostRecord) {
    match a
    case OfBudget(org, project) => r.org == org && r.project == project
    case OfLimit(l) =>
      match l.scope
      case Wallet => r.wallet == Some(l.target) && r.org == l.org
      case Project => r.project == Some(l.target) && r.org == l.org
      case Policy => l.target in r.policies && r.org == l.org
      case Organization => r.org == l.target
  }

  predicate Within(w: Window, at: int) {
    (w.from.Some? ==> at >= w.from.value) && (w.to.Some? ==> at <= w.to.value)
  }

  function Share(a: Account, w: Window, r: CostRecord): real {
    if ChargedTo(a, r) && Within(w, r.at) then r.actual else 0.0
  }

  /** `SELECT SUM(actual_cost) ... WHERE ...` */
  function Total(ledger: seq<CostRecord>, a: Account, w: Window): real {
    if ledger == [] then 0.0 else Total(ledger[..|ledger| - 1], a, w) + Share(a, w, ledger[|ledger| - 1])
  }

  lemma {:induction false} TotalAppends(xs: seq<CostRecord>, ys: seq<CostRecord>, a: Account, w: Window)
    ensures Total(xs + ys, a, w) == Total(xs, a, w) + Total(ys, a, w)
  {
    if ys == [] {
      assert xs + ys == xs;
    } else {
      assert (xs + ys)[..|xs + ys| - 1] == xs + ys[..|ys| - 1];
      TotalAppends(xs, ys[..|ys| - 1], a, w);
    }
  }

  // ---------- Spending limits ----------

  const DAY := 24 * 60 * 60 * 1000

  function Length(p: Period): int {
    match p case Daily => DAY case Weekly => 7 * DAY case Monthly => 30 * DAY case Lifetime => 0
  }

  /** `periodFilter`: from one period ago on. */
  function Trailing(l: Limit, now: int): Window {
    Window(if l.period == Lifetime then None else Some(now - Length(l.period)), None)
  }

  /** `getSpendingLimitSpent` at `now`. */
  function LimitSpent(ledger: seq<CostRecord>, l: Limit, now: int): real {
    Total(ledger, OfLimit(l), Trailing(l, now))
  }

  datatype Request = Request(org: string, project: Option<string>, wallet: Option<string>, policy: Option<string>, estimate: real)

  /** `getEffectiveSpendingLimits` */
  predicate Effective(l: Limit, q: Request) {
    l.org == q.org && l.active &&
    match l.scope
    case Wallet => q.wallet == Some(l.target)
    case Project => q.project == Some(l.target)
    case Organization => l.target == q.org
    case Policy => q.policy == Some(l.target)
  }

  predicate FitsIn(ledger: seq<CostRecord>, l: Limit, q: Request, now: int) {
    LimitSpent(ledger, l, now) + q.estimate <= l.amount
  }

  // ---------- Budgets ----------

  /** `getBudgetSpent` */
  function BudgetSpent(ledger: seq<CostRecord>, b: Budget): real {
    Total(ledger, OfBudget(b.org, b.project), Window(Some(b.windowStart), b.windowEnd))
  }

  /** A threshold of 0 or null is not watched. A zero amount divides to infinity, or to NaN at 0. */
  predicate CrossesThreshold(ledger: seq<CostRecord>, b: Budget, estimate: real) {
    b.alertThreshold.Some? && b.alertThreshold.value != 0.0 &&
    var spent := BudgetSpent(ledger, b) + estimate;
    if b.amount == 0.0 then spent > 0.0 else spent / b.amount * 100.0 >= b.alertThreshold.value
  }

  /** The budgets a check looks at: the project's, when there is one, and the organization's own. */
  predicate Watched(b: Budget, q: Request) {
    b.org == q.org && b.active && (b.project.None? || b.project == q.project)
  }

  datatype CheckResult = CheckResult(allowed: bool, softThresholdCrossed: bool, hardLimitBlocked: bool, blocking: Option<Limit>)

  /** What a budget check must answer: allowed or not, which limit blocks, and whether a watched budget's alert threshold is crossed. */
  ghost predicate Verdict(limits: seq<Limit>, budgets: seq<Budget>, ledger: seq<CostRecord>, q: Request, now: int,
                          overridden: bool, r: CheckResult) {
    && (r.allowed <==> overridden || forall l :: l in limits && Effective(l, q) ==> FitsIn(ledger, l, q, now))
    && r.hardLimitBlocked == !r.allowed
    && (r.softThresholdCrossed <==>
          !overridden && r.allowed && exists b :: b in budgets && Watched(b, q) && CrossesThreshold(ledger, b, q.estimate))
    && (r.blocking.Some? <==> !r.allowed)
    && (r.blocking.Some? ==> FirstBlocking(limits, ledger, q, now, r.blocking.value))
  }

  ghost predicate FirstBlocking(limits: seq<Limit>, ledger: seq<CostRecord>, q: Request, now: int, l: Limit) {
    exists i :: 0 <= i < |limits| && limits[i] == l && Effective(l, q) && !FitsIn(ledger, l, q, now)
      && forall j :: 0 <= j < i && Effective(limits[j], q) ==> FitsIn(ledger, limits[j], q, now)
  }

  // ---------- The sums spelled out ----------

  /** The records a wallet, project, policy or organization limit counts. */
  predicate CountsFor(l: Limit, r: CostRecord) {
    && (l.scope == Wallet ==> r.org == l.org && r.wallet.Some? && r.wallet.value == l.target)
    && (l.scope == Project ==> r.org == l.org && r.project.Some? && r.project.value == l.target)
    && (l.scope == Policy ==> r.org == l.org && l.target in r.policies)
    && (l.scope == Organization ==> r.org == l.target)
  }

  /** The costs a limit counts from `since` to `until`, both included, read in the order of recording. */
  function CostsBetween(ledger: seq<CostRecord>, l: Limit, since: Option<int>, until: Option<int>): real {
    if ledger == [] then 0.0
    else
      var r := ledger[0];
      (if CountsFor(l, r) && (since.Some? ==> since.value <= r.at) && (until.Some? ==> r.at <= until.value) then r.actual else 0.0)
      + CostsBetween(ledger[1..], l, since, until)
  }

  lemma TotalFromFront(ledger: seq<CostRecord>, a: Account, w: Window)
    requires ledger != []
    ensures Total(ledger, a, w) == Share(a, w, ledger[0]) + Total(ledger[1..], a, w)
  {
    assert ledger == [ledger[0]] + ledger[1..];
    TotalAppends([ledger[0]], ledger[1..], a, w);
    assert [ledger[0]][..0] == [];
    assert Total([ledger[0]], a, w) == Total([], a, w) + Share(a, w, ledger[0]);
  }

  lemma {:induction false} TotalIsCosts(ledger: seq<CostRecord>, l: Limit, w: Window)
    ensures Total(ledger, OfLimit(l), w) == CostsBetween(ledger, l, w.from, w.to)
  {
    if ledger != [] {
      TotalFromFront(ledger, OfLimit(l), w);
      TotalIsCosts(ledger[1..], l, w);
    }
  }

  /**
   What a limit's check reads: the limit's records of the last day, the last 7 days or the last 30
   days in milliseconds, the boundary included, or all of them.
   */
  lemma SpentIsOfTheLastPeriod(ledger: seq<CostRecord>, l: Limit, now: int)
    ensures l.period == Daily ==> LimitSpent(ledger, l, now) == CostsBetween(ledger, l, Some(now - 86_400_000), None)
    ensures l.period == Weekly ==> LimitSpent(ledger, l, now) == CostsBetween(ledger, l, Some(now - 604_800_000), None)
    ensures l.period == Monthly ==> LimitSpent(ledger, l, now) == CostsBetween(ledger, l, Some(now - 2_592_000_000), None)
    ensures l.period == Lifetime ==> LimitSpent(ledger, l, now) == CostsBetween(ledger, l, None, None)
  {
    TotalIsCosts(ledger, l, Trailing(l, now));
    hide Total, CostsBetween;
  }

  /** The costs of a budget's organization and project inside its window, both ends included. */
  function CostsInWindow(ledger: seq<CostRecord>, b: Budget): real {
    if ledger == [] then 0.0
    else
      var r := ledger[0];
      (if r.org == b.org && r.project == b.project && b.windowStart <= r.at && (b.windowEnd.Some? ==> r.at <= b.windowEnd.value)
       then r.actual else 0.0) + CostsInWindow(ledger[1..], b)
  }

  lemma {:induction false} BudgetSpentIsOfTheWindow(ledger: seq<CostRecord>, b: Budget)
    ensures BudgetSpent(ledger, b) == CostsInWindow(ledger, b)
  {
    if ledger != [] {
      TotalFromFront(ledger, OfBudget(b.org, b.project), Window(Some(b.windowStart), b.windowEnd));
      BudgetSpentIsOfTheWindow(ledger[1..], b);
    }
  }

  /** The limits that bind a request: active ones of its organization on its wallet, its project, its policy or the organization. */
  predicate Binds(l: Limit, q: Request) {
    l.active && l.org == q.org
    && (l.scope == Wallet ==> q.wallet.Some? && q.wallet.value == l.target)
    && (l.scope == Project ==> q.project.Some? && q.project.value == l.target)
    && (l.scope == Policy ==> q.policy.Some? && q.policy.value == l.target)
    && (l.scope == Organization ==> q.org == l.target)
  }

  /** The costs a limit counts in its last period. */
  function SpentLately(ledger: seq<CostRecord>, l: Limit, now: int): real {
    match l.period
    case Daily => CostsBetween(ledger, l, Some(now - 86_400_000), None)
    case Weekly => CostsBetween(ledger, l, Some(now - 604_800_000), None)
    case Monthly => CostsBetween(ledger, l, Some(now - 2_592_000_000), None)
    case Lifetime => CostsBetween(ledger, l, None, None)
  }

  /**
   A check lets a request through if and only if it is overridden or every limit that binds the
   request leaves room for the estimate on top of what was spent in the last period. It warns if and
   only if it let the request through on its merits and some active budget of the project or of the
   organization itself crosses its threshold.
   */
  lemma AllowedExactly(limits: seq<Limit>, budgets: seq<Budget>, ledger: seq<CostRecord>, q: Request, now: int,
                       overridden: bool, r: CheckResult)
    requires Verdict(limits, budgets, ledger, q, now, overridden, r)
    ensures r.allowed <==> overridden || forall l :: l in limits && Binds(l, q) ==> SpentLately(ledger, l, now) + q.estimate <= l.amount
    ensures r.hardLimitBlocked == !r.allowed == r.blocking.Some?
    ensures !r.allowed ==> r.blocking.value in limits && Binds(r.blocking.value, q)
                           && SpentLately(ledger, r.blocking.value, now) + q.estimate > r.blocking.value.amount
    ensures r.softThresholdCrossed <==>
              !overridden && r.allowed
              && exists b :: b in budgets && b.active && b.org == q.org && (b.project == None || b.project == q.project)
                             && CrossesThreshold(ledger, b, q.estimate)
  {
    forall l | l in limits ensures LimitSpent(ledger, l, now) == SpentLately(ledger, l, now) && (Effective(l, q) <==> Binds(l, q)) {
      SpentIsOfTheLastPeriod(ledger, l, now);
    }
    hide SpentLately, Binds, Effective, LimitSpent, CrossesThreshold;
  }

  /**
   The soft threshold in percent of the amount: a positive budget with a positive threshold is
   crossed as soon as spending and estimate reach that share of it.
   */
  lemma CrossedExactly(ledger: seq<CostRecord>, b: Budget, estimate: real)
    ensures b.alertThreshold.None? || b.alertThreshold.value == 0.0 ==> !CrossesThreshold(ledger, b, estimate)
    ensures b.alertThreshold.Some? && b.alertThreshold.value != 0.0 && b.amount > 0.0 ==>
              (CrossesThreshold(ledger, b, estimate) <==> 100.0 * (BudgetSpent(ledger, b) + estimate) >= b.alertThreshold.value * b.amount)
    ensures b.alertThreshold.Some? && b.alertThreshold.value != 0.0 && b.amount < 0.0 ==>
              (CrossesThreshold(ledger, b, estimate) <==> 100.0 * (BudgetSpent(ledger, b) + estimate) <= b.alertThreshold.value * b.amount)
    ensures b.alertThreshold.Some? && b.alertThreshold.value != 0.0 && b.amount == 0.0 ==>
              (CrossesThreshold(ledger, b, estimate) <==> BudgetSpent(ledger, b) + estimate > 0.0)
  {
    var spent := BudgetSpent(ledger, b) + estimate;
    hide BudgetSpent;
    if b.alertThreshold.Some? && b.amount != 0.0 {
      var share := spent / b.amount * 100.0;
      assert share * b.amount == 100.0 * spent;
      if b.amount > 0.0 {
        ScaledComparison(share, b.alertThreshold.value, b.amount);
      } else {
        ScaledComparison(share, b.alertThreshold.value, -b.amount);
        assert share * -b.amount == -(100.0 * spent) && b.alertThreshold.value * -b.amount == -(b.alertThreshold.value * b.amount);
      }
    }
  }

  lemma ScaledComparison(x: real, y: real, k: real)
    requires k > 0.0
    ensures x >= y <==> x * k >= y * k
  {
    if x < y { assert (y - x) * k > 0.0; } else { assert (x - y) * k >= 0.0; }
  }

  // ---------- The engine ----------

  datatype CostJob = CostJob(org: string, wallet: Option<string>, policies: set<string>, actual: Option<real>)

  datatype RecordError = Conflict | JobNotFound

  datatype RolloverError = BudgetNotFound | NoWindowEnd

  datatype Books = Books(jobs: map<string, CostJob>, ledger: seq<CostRecord>)

  function RecordOf(b: Books, id: string, cost: real, project: Option<string>, now: int): CostRecord
    requires id in b.jobs
  {
    var j := b.jobs[id];
    CostRecord(id, j.org, project, j.wallet, j.policies, cost, now)
  }

  predicate CanRecord(b: Books, id: string) { id in b.jobs && b.jobs[id].actual.None? }

  /** `recordActualCost`; a failed call writes nothing. */
  function Recorded(b: Books, id: string, cost: real, project: Option<string>, now: int): Books {
    if CanRecord(b, id) then
      Books(b.jobs[id := b.jobs[id].(actual := Some(cost))], b.ledger + [RecordOf(b, id, cost, project, now)])
    else b
  }

  function RolledOver(b: Budget): Result<Budget, RolloverError> {
    if b.windowEnd.None? then Err(NoWindowEnd)
    else Ok(b.(windowStart := b.windowEnd.value, windowEnd := Some(b.windowEnd.value + (b.windowEnd.value - b.windowStart)), active := true))
  }

  class Engine {
    var limits: seq<Limit>
    var budgets: seq<Budget>
    var jobs: map<string, CostJob>
    var ledger: seq<CostRecord>

    constructor (limits: seq<Limit>, budgets: seq<Budget>, jobs: map<string, CostJob>)
      ensures this.limits == limits && this.budgets == budgets && this.jobs == jobs && ledger == []
    {
      this.limits, this.budgets, this.jobs, ledger := limits, budgets, jobs, [];
    }

    ghost function View(): Books
      reads this
    {
      Books(jobs, ledger)
    }

    method CheckBudgetBeforeExecution(q: Request, now: int, overridden: bool) returns (r: CheckResult)
      ensures Verdict(limits, budgets, ledger, q, now, overridden, r)
    {
      if overridden {
        return CheckResult(true, false, false, None);
      }
      for i := 0 to |limits|
        invariant forall j :: 0 <= j < i && Effective(limits[j], q) ==> FitsIn(ledger, limits[j], q, now)
      {
        var limit := limits[i];
        if Effective(limit, q) {
          var currentSpent := LimitSpent(ledger, limit, now);
          if currentSpent + q.estimate > limit.amount {
            assert FirstBlocking(limits, ledger, q, now, limit);
            return CheckResult(false, false, true, Some(limit));
          }
        }
      }
      var crossed := false;
      if q.project.Some? {
        for i := 0 to |budgets|
          invariant crossed <==> exists j :: 0 <= j < i && Watched(budgets[j], q) && budgets[j].project.Some?
                                             && CrossesThreshold(ledger, budgets[j], q.estimate)
        {
          var b := budgets[i];
          if b.org == q.org && b.project == q.project && b.active && CrossesThreshold(ledger, b, q.estimate) {
            crossed := true;
          }
        }
      }
      ghost var projectCrossed := crossed;
      for i := 0 to |budgets|
        invariant crossed <==> projectCrossed || exists j :: 0 <= j < i && Watched(budgets[j], q) && budgets[j].project.None?
                                                              && CrossesThreshold(ledger, budgets[j], q.estimate)
      {
        var b := budgets[i];
        if b.org == q.org && b.project.None? && b.active && CrossesThreshold(ledger, b, q.estimate) {
          crossed := true;
        }
      }
      return CheckResult(true, crossed, false, None);
    }

    method RecordActualCost(id: string, cost: real, project: Option<string>, now: int) returns (r: Result<(), RecordError>)
      modifies this
      ensures View() == Recorded(old(View()), id, cost, project, now)
      ensures limits == old(limits) && budgets == old(budgets)
      ensures r.Ok? <==> id in old(jobs) && old(jobs)[id].actual.None?
      ensures r.Err? ==> r.error == if id in old(jobs) then Conflict else JobNotFound
    {
      if id in jobs && jobs[id].actual.Some? {
        return Err(Conflict);
      }
      if id !in jobs {
        return Err(JobNotFound);
      }
      var job := jobs[id];
      jobs := jobs[id := job.(actual := Some(cost))];
      ledger := ledger + [CostRecord(id, job.org, project, job.wallet, job.policies, cost, now)];
      return Ok(());
    }

    method RolloverBudgetWindow(i: nat) returns (r: Result<(), RolloverError>)
      modifies this`budgets
      ensures i >= |old(budgets)| ==> r == Err(BudgetNotFound) && budgets == old(budgets)
      ensures i < |old(budgets)| && old(budgets)[i].windowEnd.None? ==> r == Err(NoWindowEnd) && budgets == old(budgets)
      ensures i < |old(budgets)| && old(budgets)[i].windowEnd.Some? ==> r.Ok?
      ensures i < |old(budgets)| ==>
                match RolledOver(old(budgets)[i])
                case Ok(b) => r.Ok? && budgets == old(budgets)[i := b]
                case Err(e) => r == Err(e) && budgets == old(budgets)
    {
      if i >= |budgets| {
        return Err(BudgetNotFound);
      }
      var budget := budgets[i];
      if budget.windowEnd.None? {
        return Err(NoWindowEnd);
      }
      var windowDuration := budget.windowEnd.value - budget.windowStart;
      var newStart := budget.windowEnd.value;
      var newEnd := newStart + windowDuration;
      budgets := budgets[i := budgets[i].(active := false)];
      budgets := budgets[i := budgets[i].(active := true, windowStart := newStart, windowEnd := Some(newEnd))];
      return Ok(());
    }
  }

  // ---------- Recording is once and for all ----------

  datatype Recording = Recording(id: string, cost: real, project: Option<string>, now: int)

  function AfterAll(b: Books, ops: seq<Recording>): Books {
    if ops == [] then b
    else
      var o := ops[|ops| - 1];
      Recorded(AfterAll(b, ops[..|ops| - 1]), o.id, o.cost, o.project, o.now)
  }

  function RecordsOf(ledger: seq<CostRecord>, id: string): seq<CostRecord> {
    if ledger == [] then []
    else
      RecordsOf(ledger[..|ledger| - 1], id) + if ledger[|ledger| - 1].jobId == id then [ledger[|ledger| - 1]] else []
  }

  /** The ledger and the job row tell the same story. */
  predicate Consistent(b: Books, id: string) {
    var rs := RecordsOf(b.ledger, id);
    if id in b.jobs && b.jobs[id].actual.Some? then |rs| == 1 && rs[0].actual == b.jobs[id].actual.value && rs[0].org == b.jobs[id].org
    else rs == []
  }

  /**
   However often and for whatever jobs it is called, `recordActualCost` leaves every earlier
   record in place, one record for each job with an actual cost and none for any other.
   */
  lemma {:induction false} RecordsAreOnceAndForAll(b: Books, ops: seq<Recording>, id: string)
    requires Consistent(b, id)
    ensures b.ledger <= AfterAll(b, ops).ledger
    ensures Consistent(AfterAll(b, ops), id)
    ensures id in b.jobs && b.jobs[id].actual.Some? ==> id in AfterAll(b, ops).jobs && AfterAll(b, ops).jobs[id] == b.jobs[id]
  {
    if ops != [] {
      var n := |ops| - 1;
      RecordsAreOnceAndForAll(b, ops[..n], id);
      var c, o := AfterAll(b, ops[..n]), ops[n];
      if CanRecord(c, o.id) {
        var r := RecordOf(c, o.id, o.cost, o.project, o.now);
        assert (c.ledger + [r])[..|c.ledger|] == c.ledger;
        assert RecordsOf(c.ledger + [r], id) == RecordsOf(c.ledger, id) + if r.jobId == id then [r] else [];
      }
    }
  }

  /** Call `k` is the first for the job. */
  predicate FirstCall(ops: seq<Recording>, k: nat, id: string) {
    k < |ops| && ops[k].id == id && forall i :: 0 <= i < k ==> ops[i].id != id
  }

  /** The books tell call `o` for the job, and the job row's organization, wallet and policies. */
  predicate Tells(c: Books, id: string, j: CostJob, o: Recording) {
    && id in c.jobs && c.jobs[id] == j.(actual := Some(o.cost))
    && RecordsOf(c.ledger, id) == [CostRecord(id, j.org, o.project, j.wallet, j.policies, o.cost, o.now)]
  }

  predicate Untold(c: Books, id: string, j: CostJob) {
    id in c.jobs && c.jobs[id] == j && RecordsOf(c.ledger, id) == []
  }

  /** The record of a job tells the first call for it, and there is none before such a call. */
  lemma {:induction false} RecordTellsFirstCall(b: Books, ops: seq<Recording>, id: string)
    requires id in b.jobs && b.jobs[id].actual.None? && RecordsOf(b.ledger, id) == []
    ensures (forall i :: 0 <= i < |ops| ==> ops[i].id != id) ==> Untold(AfterAll(b, ops), id, b.jobs[id])
    ensures forall k: nat :: FirstCall(ops, k, id) ==> Tells(AfterAll(b, ops), id, b.jobs[id], ops[k])
  {
    hide Recorded, RecordsOf, AfterAll, Tells, FirstCall;
    var j := b.jobs[id];
    if ops == [] {
      NoCalls(b, id, j);
    } else {
      var n := |ops| - 1;
      var before, c, o := ops[..n], AfterAll(b, ops[..n]), ops[n];
      RecordTellsFirstCall(b, before, id);
      OneCallMore(b, ops);
      TellsOneMore(c, o, id, j);
      FirstCallMore(ops, id);
      assert forall i :: 0 <= i < n ==> ops[i] == before[i];
    }
  }

  lemma NoCalls(b: Books, id: string, j: CostJob)
    ensures AfterAll(b, []) == b && forall k: nat :: !FirstCall([], k, id)
  {
  }

  /** The first call is among the earlier ones, or there was none and it is the last. */
  lemma FirstCallMore(ops: seq<Recording>, id: string)
    requires ops != []
    ensures var n := |ops| - 1;
            forall k: nat :: FirstCall(ops, k, id) ==>
              if k < n then FirstCall(ops[..n], k, id) && ops[..n][k] == ops[k]
              else k == n && ops[n].id == id && forall i :: 0 <= i < n ==> ops[..n][i].id != id
  {
  }

  lemma OneCallMore(b: Books, ops: seq<Recording>)
    requires ops != []
    ensures var o := ops[|ops| - 1]; AfterAll(b, ops) == Recorded(AfterAll(b, ops[..|ops| - 1]), o.id, o.cost, o.project, o.now)
  {
  }

  lemma TellsOneMore(c: Books, o: Recording, id: string, j: CostJob)
    requires j.actual.None?
    ensures var r := Recorded(c, o.id, o.cost, o.project, o.now);
            && (Untold(c, id, j) && o.id != id ==> Untold(r, id, j)) && (Untold(c, id, j) && o.id == id ==> Tells(r, id, j, o))
            && forall x :: Tells(c, id, j, x) ==> Tells(r, id, j, x)
  {
    RecordsAfterOne(c, o, id);
    hide Recorded, RecordsOf;
  }

  lemma RecordsAfterOne(c: Books, o: Recording, id: string)
    ensures var r := Recorded(c, o.id, o.cost, o.project, o.now);
            if o.id == id && id in c.jobs && c.jobs[id].actual.None?
            then var j := c.jobs[id];
                 RecordsOf(r.ledger, id) == RecordsOf(c.ledger, id) + [CostRecord(id, j.org, o.project, j.wallet, j.policies, o.cost, o.now)]
                 && id in r.jobs && r.jobs[id] == j.(actual := Some(o.cost))
            else RecordsOf(r.ledger, id) == RecordsOf(c.ledger, id) && (id in r.jobs <==> id in c.jobs) && (id in c.jobs ==> r.jobs[id] == c.jobs[id])
  {
    if CanRecord(c, o.id) {
      var r := RecordOf(c, o.id, o.cost, o.project, o.now);
      assert (c.ledger + [r])[..|c.ledger|] == c.ledger;
    }
  }

  // ---------- Sliding-window safety ----------

  /**
   One renewal: a check at `checkedAt` that saw the first `seen` ledger records, then the record.
   The limits are the active rows at the time of the check.
   */
  datatype Charge = Charge(limits: seq<Limit>, q: Request, checkedAt: int, seen: nat, rec: CostRecord)

  function Ledger(run: seq<Charge>): (ledger: seq<CostRecord>)
    ensures |ledger| == |run| && forall i :: 0 <= i < |run| ==> ledger[i] == run[i].rec
  {
    seq(|run|, i requires 0 <= i < |run| => run[i].rec)
  }

  /** The record is charged only to scopes passed to the check. */
  predicate Covered(q: Request, r: CostRecord) {
    && r.org == q.org
    && (r.project.Some? ==> r.project == q.project)
    && (r.wallet.Some? ==> r.wallet == q.wallet)
    && (forall p :: p in r.policies ==> q.policy == Some(p))
  }

  ghost predicate Disciplined(run: seq<Charge>, i: nat)
    requires i < |run|
  {
    var c := run[i];
    && c.seen <= i
    && (forall l :: l in c.limits && Effective(l, c.q) ==> FitsIn(Ledger(run)[..c.seen], l, c.q, c.checkedAt))
    && 0.0 <= c.rec.actual <= c.q.estimate
    && Covered(c.q, c.rec)
    && c.checkedAt <= c.rec.at
    && (i > 0 ==> run[i - 1].rec.at <= c.rec.at)
  }

  ghost predicate AllDisciplined(run: seq<Charge>) {
    forall i :: 0 <= i < |run| ==> Disciplined(run, i)
  }

  /** The limit was among the active rows at every check; creation requires an organization limit to target its own organization. */
  ghost predicate InForce(run: seq<Charge>, l: Limit) {
    l.active && (l.scope == Organization ==> l.target == l.org) && forall i :: 0 <= i < |run| ==> l in run[i].limits
  }

  /** What was recorded for this limit between the snapshot a check saw and its own record. */
  function Unseen(run: seq<Charge>, l: Limit, i: nat): real
    requires i < |run| && run[i].seen <= i
  {
    Total(Ledger(run)[run[i].seen..i], OfLimit(l), Window(None, None))
  }

  lemma {:induction false} WiderWindow(ledger: seq<CostRecord>, a: Account, w: Window, v: Window)
    requires forall r :: r in ledger ==> r.actual >= 0.0
    requires forall r :: r in ledger && Within(w, r.at) ==> Within(v, r.at)
    ensures 0.0 <= Total(ledger, a, w) <= Total(ledger, a, v)
  {
    if ledger != [] {
      assert forall r :: r in ledger[..|ledger| - 1] ==> r in ledger;
      WiderWindow(ledger[..|ledger| - 1], a, w, v);
      assert ledger[|ledger| - 1] in ledger;
    }
  }

  lemma ChecksCoverCharges(q: Request, r: CostRecord, l: Limit)
    requires Covered(q, r) && ChargedTo(OfLimit(l), r) && l.active && (l.scope == Organization ==> l.target == l.org)
    ensures Effective(l, q)
  {
  }

  /** The windows the theorem speaks of: any closed interval of the limit's length, or all time when it has none. */
  function Interval(l: Limit, from: int): Window {
    if l.period == Lifetime then Window(None, None) else Window(Some(from), Some(from + Length(l.period)))
  }

  lemma {:induction false} ClockOrders(run: seq<Charge>, i: nat, j: nat)
    requires AllDisciplined(run) && i <= j < |run|
    ensures run[i].rec.at <= run[j].rec.at
  {
    if i < j {
      assert Disciplined(run, j);
      ClockOrders(run, i, j - 1);
    }
  }

  lemma ChargesAreNonnegative(run: seq<Charge>, from: nat, to: nat)
    requires AllDisciplined(run) && from <= to <= |run|
    ensures forall r :: r in Ledger(run)[from..to] ==> r.actual >= 0.0
  {
    forall r | r in Ledger(run)[from..to] ensures r.actual >= 0.0 {
      var k :| 0 <= k < to - from && Ledger(run)[from..to][k] == r;
      assert Disciplined(run, from + k);
    }
  }

  lemma CheckedAgainst(run: seq<Charge>, l: Limit, i: nat)
    requires AllDisciplined(run) && InForce(run, l) && i < |run| && ChargedTo(OfLimit(l), run[i].rec)
    ensures run[i].seen <= i && run[i].checkedAt <= run[i].rec.at
    ensures Total(Ledger(run)[..run[i].seen], OfLimit(l), Trailing(l, run[i].checkedAt)) + run[i].rec.actual <= l.amount
  {
    var c := run[i];
    assert Disciplined(run, i);
    ChecksCoverCharges(c.q, c.rec, l);
    assert FitsIn(Ledger(run)[..c.seen], l, c.q, c.checkedAt);
  }

  /** The charge that completes an interval was checked against everything in it but the unseen records. */
  lemma LastChargeFits(run: seq<Charge>, l: Limit, from: int, i: nat)
    requires AllDisciplined(run) && InForce(run, l) && i < |run|
    requires ChargedTo(OfLimit(l), run[i].rec) && Within(Interval(l, from), run[i].rec.at)
    ensures run[i].seen <= i
    ensures Total(Ledger(run)[..i + 1], OfLimit(l), Interval(l, from)) <= l.amount + Unseen(run, l, i)
  {
    var ledger, seen, w, a := Ledger(run), run[i].seen, Interval(l, from), OfLimit(l);
    CheckedAgainst(run, l, i);
    ChargesAreNonnegative(run, 0, seen);
    ChargesAreNonnegative(run, seen, i);
    hide AllDisciplined, InForce, ChargedTo;
    assert ledger[0..seen] == ledger[..seen];
    WiderWindow(ledger[..seen], a, w, Trailing(l, run[i].checkedAt));
    WiderWindow(ledger[seen..i], a, w, Window(None, None));
    hide Within, Interval, Trailing, Total;
    TotalInParts(ledger, seen, i, a, w);
  }

  lemma TotalInParts(ledger: seq<CostRecord>, j: nat, i: nat, a: Account, w: Window)
    requires j <= i < |ledger|
    ensures Total(ledger[..i + 1], a, w) == Total(ledger[..j], a, w) + Total(ledger[j..i], a, w) + Share(a, w, ledger[i])
  {
    assert ledger[..i] == ledger[..j] + ledger[j..i];
    TotalAppends(ledger[..j], ledger[j..i], a, w);
    assert ledger[..i + 1][..i] == ledger[..i];
  }

  lemma {:induction false} PrefixWithin(run: seq<Charge>, l: Limit, from: int, slack: real, n: nat)
    requires AllDisciplined(run) && InForce(run, l) && n <= |run| && slack >= 0.0
    requires forall i :: 0 <= i < |run| ==> run[i].seen <= i && Unseen(run, l, i) <= slack
    ensures Total(Ledger(run)[..n], OfLimit(l), Interval(l, from)) <= (if l.amount > 0.0 then l.amount else 0.0) + slack
  {
    hide AllDisciplined, InForce, ChargedTo, Interval, Within, Ledger, Unseen;
    if n > 0 {
      var last := run[n - 1].rec;
      if ChargedTo(OfLimit(l), last) && Within(Interval(l, from), last.at) {
        LastChargeFits(run, l, from, n - 1);
      } else {
        PrefixWithin(run, l, from, slack, n - 1);
        assert Ledger(run)[..n][..n - 1] == Ledger(run)[..n - 1];
        assert Ledger(run)[..n][n - 1] == last;
      }
    }
  }

  /**
   Checks and records of concurrent renewals in any order: every closed interval of a limit's
   length holds at most its amount plus what some check could not see yet.
   */
  lemma OverspendBoundedByUnseen(run: seq<Charge>, l: Limit, from: int, slack: real)
    requires AllDisciplined(run) && InForce(run, l) && slack >= 0.0
    requires forall i :: 0 <= i < |run| ==> run[i].seen <= i && Unseen(run, l, i) <= slack
    ensures Total(Ledger(run), OfLimit(l), Interval(l, from)) <= (if l.amount > 0.0 then l.amount else 0.0) + slack
  {
    PrefixWithin(run, l, from, slack, |run|);
    assert Ledger(run)[..|run|] == Ledger(run);
  }

  /** Each allowed check was followed by its record before the next check. */
  predicate Serial(run: seq<Charge>) {
    forall i :: 0 <= i < |run| ==> run[i].seen == i
  }

  /** When renewals are serial, no interval of a limit's length ever holds more than its amount. */
  lemma SerialSpendingWithinLimit(run: seq<Charge>, l: Limit, from: int)
    requires AllDisciplined(run) && InForce(run, l) && Serial(run)
    ensures Total(Ledger(run), OfLimit(l), Interval(l, from)) <= if l.amount > 0.0 then l.amount else 0.0
  {
    forall i | 0 <= i < |run| ensures run[i].seen <= i && Unseen(run, l, i) <= 0.0 {
      assert Ledger(run)[i..i] == [];
    }
    OverspendBoundedByUnseen(run, l, from, 0.0);
  }

  /** Hence the trailing sum that the next check reads is within the limit at every instant. */
  lemma TrailingSumWithinLimit(run: seq<Charge>, l: Limit, now: int)
    requires AllDisciplined(run) && InForce(run, l) && Serial(run)
    requires run != [] ==> run[|run| - 1].rec.at <= now
    ensures LimitSpent(Ledger(run), l, now) <= if l.amount > 0.0 then l.amount else 0.0
  {
    SerialSpendingWithinLimit(run, l, now - Length(l.period));
    forall i | 0 <= i < |run| ensures run[i].rec.at <= now && run[i].rec.actual >= 0.0 {
      ClockOrders(run, i, |run| - 1);
      assert Disciplined(run, i);
    }
    WiderWindow(Ledger(run), OfLimit(l), Trailing(l, now), Interval(l, now - Length(l.period)));
  }

  /**
   Spelled out: no closed interval of 86_400_000, 604_800_000 or 2_592_000_000 milliseconds ever holds
   more than a daily, weekly or monthly limit's amount, and all time no more than a lifetime limit's.
   */
  lemma SerialSpendingPerPeriod(run: seq<Charge>, l: Limit, from: int)
    requires AllDisciplined(run) && InForce(run, l) && Serial(run) && l.amount >= 0.0
    ensures l.period == Daily ==> CostsBetween(Ledger(run), l, Some(from), Some(from + 86_400_000)) <= l.amount
    ensures l.period == Weekly ==> CostsBetween(Ledger(run), l, Some(from), Some(from + 604_800_000)) <= l.amount
    ensures l.period == Monthly ==> CostsBetween(Ledger(run), l, Some(from), Some(from + 2_592_000_000)) <= l.amount
    ensures l.period == Lifetime ==> CostsBetween(Ledger(run), l, None, None) <= l.amount
  {
    SerialSpendingWithinLimit(run, l, from);
    TotalIsCosts(Ledger(run), l, Interval(l, from));
    hide AllDisciplined, InForce, Ledger, Total, CostsBetween;
  }

  // ---------- Where the discipline is needed ----------

  const DAILY_TEN := Limit("limit", "org", Organization, "org", 10.0, Daily, true)

  /** Two checks before the first record: both pass, and the daily limit of 10 holds 12. */
  lemma OverlappingChecksOverspend()
    ensures exists run ::
              && AllDisciplined(run) && InForce(run, DAILY_TEN)
              && Total(Ledger(run), OfLimit(DAILY_TEN), Interval(DAILY_TEN, 0)) == 12.0
  {
    var q := Request("org", None, None, None, 6.0);
    var a := Charge([DAILY_TEN], q, 0, 0, CostRecord("a", "org", None, None, {}, 6.0, 1));
    var b := Charge([DAILY_TEN], q, 0, 0, CostRecord("b", "org", None, None, {}, 6.0, 1));
    var run := [a, b];
    assert Ledger(run) == [a.rec, b.rec];
    assert Ledger(run)[..0] == [];
    assert Disciplined(run, 0) && Disciplined(run, 1);
    assert [a.rec, b.rec][..1] == [a.rec] && [a.rec][..0] == [];
    var w := Interval(DAILY_TEN, 0);
    assert Share(OfLimit(DAILY_TEN), w, a.rec) == 6.0 == Share(OfLimit(DAILY_TEN), w, b.rec);
    assert Total([a.rec], OfLimit(DAILY_TEN), w) == 6.0;
    assert Total([a.rec, b.rec], OfLimit(DAILY_TEN), w) == 12.0;
  }

  /**
   The queue checks without a policy id. No policy limit, whatever its amount, is then effective,
   and one serial renewal charged to the policy exceeds it.
   */
  lemma PolicyLimitUncheckedByQueue(l: Limit)
    requires l.scope == Policy && l.active
    ensures forall q: Request :: q.policy.None? ==> !Effective(l, q)
    ensures exists c: Charge ::
              && l in c.limits && c.q.policy.None? && c.seen == 0
              && (forall m :: m in c.limits && Effective(m, c.q) ==> FitsIn([], m, c.q, c.checkedAt))
              && 0.0 <= c.rec.actual <= c.q.estimate && c.checkedAt <= c.rec.at
              && Total([c.rec], OfLimit(l), Interval(l, 0)) > l.amount
  {
    var cost := if l.amount > 0.0 then l.amount + 1.0 else 1.0;
    var c := Charge([l], Request(l.org, None, None, None, cost), 0, 0, CostRecord("job", l.org, None, None, {l.target}, cost, 0));
    assert [c.rec][..0] == [];
    assert Total([c.rec], OfLimit(l), Interval(l, 0)) == cost;
    assert l in c.limits;
  }

  // ---------- Budget windows ----------

  /** The budget after `k` rollovers. */
  function Rolled(b: Budget, k: nat): Budget
    requires b.windowEnd.Some?
    ensures Rolled(b, k).windowEnd.Some?
  {
    if k == 0 then b else RolledOver(Rolled(b, k - 1)).value
  }

  /** Rollovers shift the window by its own length, without gap or drift. */
  lemma {:induction false} WindowsAdvanceByTheirLength(b: Budget, k: nat)
    requires b.windowEnd.Some?
    ensures var d := b.windowEnd.value - b.windowStart;
            Rolled(b, k) == b.(windowStart := b.windowStart + k * d, windowEnd := Some(b.windowStart + (k + 1) * d),
                               active := if k == 0 then b.active else true)
  {
    if k > 0 {
      WindowsAdvanceByTheirLength(b, k - 1);
      var d := b.windowEnd.value - b.windowStart;
      assert k * d == (k - 1) * d + d && (k + 1) * d == k * d + d;
    }
  }

  /** Spending reported over the first `n` windows. */
  function WindowsSpent(ledger: seq<CostRecord>, b: Budget, n: nat): real
    requires b.windowEnd.Some?
  {
    if n == 0 then 0.0 else WindowsSpent(ledger, b, n - 1) + BudgetSpent(ledger, Rolled(b, n - 1))
  }

  /** Records dated exactly on the interior boundaries start + k * d, 0 < k < n. */
  function BoundarySpent(ledger: seq<CostRecord>, b: Budget, n: nat): real
    requires b.windowEnd.Some?
  {
    if n <= 1 then 0.0
    else BoundarySpent(ledger, b, n - 1) + Instant(ledger, b, b.windowStart + (n - 1) * (b.windowEnd.value - b.windowStart))
  }

  function Instant(ledger: seq<CostRecord>, b: Budget, at: int): real {
    Total(ledger, OfBudget(b.org, b.project), Window(Some(at), Some(at)))
  }

  lemma {:induction false} SplitAt(ledger: seq<CostRecord>, a: Account, x: int, y: int, z: int)
    requires x <= y <= z
    ensures Total(ledger, a, Window(Some(x), Some(y))) + Total(ledger, a, Window(Some(y), Some(z)))
            == Total(ledger, a, Window(Some(x), Some(z))) + Total(ledger, a, Window(Some(y), Some(y)))
  {
    if ledger != [] { SplitAt(ledger[..|ledger| - 1], a, x, y, z); }
  }

  /**
   Windows tile time, and both ends are inclusive: the spending of the first `n` windows is the
   ledger total over their union plus, once more, each record on an interior boundary.
   */
  lemma {:induction false} WindowsTile(ledger: seq<CostRecord>, b: Budget, n: nat)
    requires b.windowEnd.Some? && b.windowStart <= b.windowEnd.value && n >= 1
    ensures var d := b.windowEnd.value - b.windowStart;
            WindowsSpent(ledger, b, n)
            == Total(ledger, OfBudget(b.org, b.project), Window(Some(b.windowStart), Some(b.windowStart + n * d)))
               + BoundarySpent(ledger, b, n)
  {
    var d := b.windowEnd.value - b.windowStart;
    WindowsAdvanceByTheirLength(b, n - 1);
    if n == 1 {
      assert WindowsSpent(ledger, b, 1) == WindowsSpent(ledger, b, 0) + BudgetSpent(ledger, b);
    } else {
      WindowsTile(ledger, b, n - 1);
      MulMonotone(d, n - 1);
      SplitAt(ledger, OfBudget(b.org, b.project), b.windowStart, b.windowStart + (n - 1) * d, b.windowStart + n * d);
    }
  }

  lemma MulMonotone(d: int, k: int)
    requires d >= 0 && k >= 0
    ensures 0 <= k * d <= (k + 1) * d
  {
    assert (k + 1) * d == k * d + d;
  }
}
