/**
 `executeSchedule` run by any number of scheduler instances: read the clock, take the advisory
 lock of the schedule's hash, re-read the row, check the minimum interval, claim the run by a
 conditional UPDATE of `last_run_at`, run the handler, unlock. Each await is a step of one call.

 An instance is a database session. Its calls may overlap, and then the lock is re-entrant: a
 session can take it again and holds it until it has unlocked as often. Clocks of different calls
 need not agree, and an instance may crash at any step, which ends its calls and frees its locks.
 */
module SchedulerProtocol {
  import opened Common

  type Call = nat
  type Session = nat
  type ScheduleId = nat
  type Key = nat
  type Times = n: nat | n >= 1 witness 1

  /** The hash of schedule ids, and which session runs which call. */
  datatype Env = Env(hash: ScheduleId -> Key, session: Call -> Session)

  /** `minInterval` is 0 when the column is NULL. */
  datatype Row = Row(lastRun: Option<int>, minInterval: int, lastCompleted: Option<int>)

  datatype Hold = Hold(session: Session, times: Times)

  datatype Pc =
    | Idle
    | Clocked(id: ScheduleId, now: int)             // `now` is read before the lock
    | Locked(id: ScheduleId, now: int)
    | Checked(id: ScheduleId, now: int, min: int)   // row read, min-interval guard passed
    | Running(id: ScheduleId, now: int)
    | Ran(id: ScheduleId, now: int, success: bool)
    | Releasing(id: ScheduleId)

  /** One execution: its `last_run_at` stamp and the minimum interval it was checked against. */
  datatype Stamp = Stamp(at: int, min: int)

  datatype State = State(
    rows: map<ScheduleId, Row>,
    locks: map<Key, Hold>,
    pcs: map<Call, Pc>,
    history: map<ScheduleId, seq<Stamp>>)

  datatype Step =
    | ReadClock(i: Call, id: ScheduleId, now: int)
    | TryLock(i: Call)
    | Fetch(i: Call)
    | CompareAndSet(i: Call)
    | RunHandler(i: Call, success: bool)
    | Complete(i: Call)
    | Unlock(i: Call)
    | UnlockFails(i: Call)   // best effort: the error is swallowed and the lock stays held
    | Crash(x: Session)
    | Configure(id: ScheduleId, minInterval: int)
    | CreateSchedule(id: ScheduleId, minInterval: int)
    | DeleteSchedule(id: ScheduleId)

  function PcOf(s: State, i: Call): Pc { if i in s.pcs then s.pcs[i] else Idle }

  function HistoryOf(s: State, id: ScheduleId): seq<Stamp> { if id in s.history then s.history[id] else [] }

  function Goto(s: State, i: Call, pc: Pc): State { s.(pcs := s.pcs[i := pc]) }

  // ---------- Advisory locks ----------

  predicate CanTake(locks: map<Key, Hold>, key: Key, x: Session) { key !in locks || locks[key].session == x }

  /** `pg_try_advisory_lock` */
  function Take(locks: map<Key, Hold>, key: Key, x: Session): map<Key, Hold>
    requires CanTake(locks, key, x)
  {
    locks[key := Hold(x, if key in locks then locks[key].times + 1 else 1)]
  }

  /** `pg_advisory_unlock` */
  function Release(locks: map<Key, Hold>, key: Key, x: Session): map<Key, Hold> {
    if key !in locks || locks[key].session != x then locks
    else if locks[key].times > 1 then locks[key := Hold(x, locks[key].times - 1)]
    else locks - {key}
  }

  lemma ReleaseUndoesTake(locks: map<Key, Hold>, key: Key, x: Session)
    requires CanTake(locks, key, x)
    ensures Release(Take(locks, key, x), key, x) == locks
  {
  }

  // ---------- Steps ----------

  predicate TooSoon(row: Row, now: int) {
    row.lastRun.Some? && row.minInterval != 0 && now - row.lastRun.value < row.minInterval
  }

  predicate Enabled(s: State, step: Step) {
    match step
    case ReadClock(i, _, _) => PcOf(s, i).Idle?
    case TryLock(i) => PcOf(s, i).Clocked?
    case Fetch(i) => PcOf(s, i).Locked?
    case CompareAndSet(i) => PcOf(s, i).Checked?
    case RunHandler(i, _) => PcOf(s, i).Running?
    case Complete(i) => PcOf(s, i).Ran?
    case Unlock(i) => PcOf(s, i).Releasing?
    case UnlockFails(i) => PcOf(s, i).Releasing?
    case CreateSchedule(id, _) => id !in s.rows && HistoryOf(s, id) == []
    case _ => true
  }

  function Apply(env: Env, s: State, step: Step): State
    requires Enabled(s, step)
  {
    match step
    case ReadClock(i, id, now) => Goto(s, i, Clocked(id, now))
    case TryLock(i) =>
      var pc := PcOf(s, i);
      if CanTake(s.locks, env.hash(pc.id), env.session(i))
      then Goto(s.(locks := Take(s.locks, env.hash(pc.id), env.session(i))), i, Locked(pc.id, pc.now))
      else Goto(s, i, Idle)
    case Fetch(i) =>
      var pc := PcOf(s, i);
      if pc.id !in s.rows || TooSoon(s.rows[pc.id], pc.now) then Goto(s, i, Releasing(pc.id))
      else Goto(s, i, Checked(pc.id, pc.now, s.rows[pc.id].minInterval))
    case CompareAndSet(i) =>
      var pc := PcOf(s, i);
      if pc.id in s.rows && (s.rows[pc.id].lastRun.None? || s.rows[pc.id].lastRun.value < pc.now)
      then Goto(s.(rows := s.rows[pc.id := s.rows[pc.id].(lastRun := Some(pc.now))],
                   history := s.history[pc.id := HistoryOf(s, pc.id) + [Stamp(pc.now, pc.min)]]),
                i, Running(pc.id, pc.now))
      else Goto(s, i, Releasing(pc.id))
    case RunHandler(i, success) => Goto(s, i, Ran(PcOf(s, i).id, PcOf(s, i).now, success))
    case Complete(i) =>
      var pc := PcOf(s, i);
      var rows := if pc.success && pc.id in s.rows
                  then s.rows[pc.id := s.rows[pc.id].(lastCompleted := Some(pc.now))] else s.rows;
      Goto(s.(rows := rows), i, Releasing(pc.id))
    case Unlock(i) => Goto(s.(locks := Release(s.locks, env.hash(PcOf(s, i).id), env.session(i))), i, Idle)
    case UnlockFails(i) => Goto(s, i, Idle)
    case Crash(x) =>
      s.(locks := map k | k in s.locks && s.locks[k].session != x :: s.locks[k],
         pcs := map i | i in s.pcs && env.session(i) != x :: s.pcs[i])
    case Configure(id, min) => if id in s.rows then s.(rows := s.rows[id := s.rows[id].(minInterval := min)]) else s
    case CreateSchedule(id, min) => s.(rows := s.rows[id := Row(None, min, None)])
    case DeleteSchedule(id) => s.(rows := s.rows - {id})
  }

  /** A row that has run before starts with that run as its history. */
  ghost predicate Initial(s: State) {
    && s.locks == map[] && s.pcs == map[]
    && s.history.Keys == s.rows.Keys
    && forall id :: id in s.rows ==>
         && s.history[id] == (match s.rows[id].lastRun case Some(t) => [Stamp(t, 0)] case None => [])
         && (s.rows[id].lastCompleted.Some? ==> s.rows[id].lastRun.Some? && s.rows[id].lastCompleted.value <= s.rows[id].lastRun.value)
  }

  ghost predicate IsRun(env: Env, states: seq<State>, steps: seq<Step>) {
    && |states| == |steps| + 1
    && Initial(states[0])
    && forall k :: 0 <= k < |steps| ==> Enabled(states[k], steps[k]) && states[k + 1] == Apply(env, states[k], steps[k])
  }

  predicate InSection(pc: Pc) { !pc.Idle? && !pc.Clocked? }

  /** The call is between lock and unlock of the schedule. */
  predicate Inside(s: State, i: Call, id: ScheduleId) { InSection(PcOf(s, i)) && PcOf(s, i).id == id }

  // ---------- Locks are held ----------

  /** The calls in a section guarded by the key. */
  function Holders(env: Env, s: State, key: Key): set<Call> {
    set i | i in s.pcs && InSection(s.pcs[i]) && env.hash(s.pcs[i].id) == key
  }

  /** The calls are of the session that holds the lock, which has taken it at least as often as there are of them. */
  ghost predicate HeldFor(env: Env, calls: set<Call>, locks: map<Key, Hold>, key: Key) {
    calls != {} ==>
      && key in locks && |calls| <= locks[key].times
      && forall i :: i in calls ==> env.session(i) == locks[key].session
  }

  ghost predicate LockHeld(env: Env, s: State, key: Key) { HeldFor(env, Holders(env, s, key), s.locks, key) }

  lemma TakeForOneMore(env: Env, calls: set<Call>, locks: map<Key, Hold>, key: Key, i: Call)
    requires HeldFor(env, calls, locks, key) && CanTake(locks, key, env.session(i))
    ensures HeldFor(env, calls + {i}, Take(locks, key, env.session(i)), key)
  {
  }

  lemma ReleaseForOne(env: Env, calls: set<Call>, locks: map<Key, Hold>, key: Key, i: Call)
    requires HeldFor(env, calls, locks, key) && i in calls
    ensures HeldFor(env, calls - {i}, Release(locks, key, env.session(i)), key)
  {
    assert |calls - {i}| == |calls| - 1;
  }

  lemma GotoHolders(env: Env, s: State, i: Call, pc: Pc, key: Key)
    ensures Holders(env, Goto(s, i, pc), key)
            == if InSection(pc) && env.hash(pc.id) == key then Holders(env, s, key) + {i} else Holders(env, s, key) - {i}
  {
  }

  lemma SameHolders(env: Env, s: State, i: Call, locks: map<Key, Hold>, key: Key)
    ensures Holders(env, s.(locks := locks), key) == Holders(env, s, key)
    ensures i in Holders(env, s, key) <==> InSection(PcOf(s, i)) && env.hash(PcOf(s, i).id) == key
  {
  }

  lemma TryLockStep(env: Env, s: State, i: Call, key: Key)
    requires LockHeld(env, s, key) && Enabled(s, TryLock(i))
    ensures LockHeld(env, Apply(env, s, TryLock(i)), key)
  {
    var pc, held := PcOf(s, i), Holders(env, s, key);
    var t := Apply(env, s, TryLock(i));
    var base := s.(locks := t.locks);
    hide Holders, HeldFor;
    SameHolders(env, s, i, t.locks, key);
    assert held - {i} == held;
    if !CanTake(s.locks, env.hash(pc.id), env.session(i)) {
      GotoHolders(env, base, i, Idle, key);
    } else {
      GotoHolders(env, base, i, Locked(pc.id, pc.now), key);
      hide Apply, Goto;
      if env.hash(pc.id) == key {
        TakeForOneMore(env, held, s.locks, key, i);
      } else {
        OtherKey(env, held, s.locks, t.locks, key);
      }
    }
  }

  lemma UnlockStep(env: Env, s: State, i: Call, key: Key)
    requires LockHeld(env, s, key) && Enabled(s, Unlock(i))
    ensures LockHeld(env, Apply(env, s, Unlock(i)), key)
  {
    var held := Holders(env, s, key);
    var t := Apply(env, s, Unlock(i));
    var base := s.(locks := t.locks);
    hide Holders, HeldFor, Release;
    SameHolders(env, s, i, t.locks, key);
    GotoHolders(env, base, i, Idle, key);
    if env.hash(PcOf(s, i).id) == key {
      ReleaseForOne(env, held, s.locks, key, i);
    } else {
      assert held - {i} == held;
      ReleaseOther(s.locks, env.hash(PcOf(s, i).id), key, env.session(i));
      OtherKey(env, held, s.locks, t.locks, key);
    }
  }

  lemma ReleaseOther(locks: map<Key, Hold>, released: Key, key: Key, x: Session)
    requires released != key
    ensures key in locks ==> key in Release(locks, released, x) && Release(locks, released, x)[key] == locks[key]
  {
  }

  lemma OtherKey(env: Env, calls: set<Call>, locks: map<Key, Hold>, locks1: map<Key, Hold>, key: Key)
    requires HeldFor(env, calls, locks, key) && (key in locks ==> key in locks1 && locks1[key] == locks[key])
    ensures HeldFor(env, calls, locks1, key)
  {
  }

  lemma CrashStep(env: Env, s: State, x: Session, key: Key)
    requires LockHeld(env, s, key)
    ensures LockHeld(env, Apply(env, s, Crash(x)), key)
  {
    var t, before := Apply(env, s, Crash(x)), Holders(env, s, key);
    assert Holders(env, t, key) == set i | i in before && env.session(i) != x;
    hide Holders;
    SubsetSize(Holders(env, t, key), before);
  }

  lemma LockStep(env: Env, s: State, step: Step, key: Key)
    requires LockHeld(env, s, key) && Enabled(s, step)
    ensures LockHeld(env, Apply(env, s, step), key)
  {
    match step
    case ReadClock(i, id, now) =>
      GotoHolders(env, s, i, Clocked(id, now), key);
      SubsetSize(Holders(env, Apply(env, s, step), key), Holders(env, s, key));
    case TryLock(i) => TryLockStep(env, s, i, key);
    case Unlock(i) => UnlockStep(env, s, i, key);
    case Crash(x) => CrashStep(env, s, x, key);
    case Configure(_, _) => assert Holders(env, Apply(env, s, step), key) == Holders(env, s, key);
    case CreateSchedule(_, _) => assert Holders(env, Apply(env, s, step), key) == Holders(env, s, key);
    case DeleteSchedule(_) => assert Holders(env, Apply(env, s, step), key) == Holders(env, s, key);
    case _ =>
      InnerHolders(env, s, step, key);
      hide Holders, Apply;
  }

  /** Steps inside the section keep their call in it; giving up on the unlock only takes it out. */
  lemma InnerHolders(env: Env, s: State, step: Step, key: Key)
    requires Enabled(s, step) && (step.Fetch? || step.CompareAndSet? || step.RunHandler? || step.Complete? || step.UnlockFails?)
    ensures var t, before := Apply(env, s, step), Holders(env, s, key);
            && t.locks == s.locks && Holders(env, t, key) <= before && |Holders(env, t, key)| <= |before|
  {
    hide Apply, Goto, Holders;
    var t := Apply(env, s, step);
    var i, base, pc := InnerShape(env, s, step);
    GotoHolders(env, base, i, pc, key);
    SameHolders(env, s, i, s.locks, key);
    HoldersOfPcs(env, base, s, key);
    SubsetSize(Holders(env, t, key), Holders(env, s, key));
  }

  /** Such a step writes tables and history, and moves its call on. */
  lemma InnerShape(env: Env, s: State, step: Step) returns (i: Call, base: State, pc: Pc)
    requires Enabled(s, step) && (step.Fetch? || step.CompareAndSet? || step.RunHandler? || step.Complete? || step.UnlockFails?)
    ensures Apply(env, s, step) == Goto(base, i, pc) && base.pcs == s.pcs && base.locks == s.locks
    ensures Goto(base, i, pc).locks == s.locks
    ensures InSection(PcOf(s, i)) && (InSection(pc) ==> pc.id == PcOf(s, i).id)
  {
    hide TooSoon;
    var t := Apply(env, s, step);
    i, base, pc := step.i, s.(rows := t.rows, history := t.history), t.pcs[step.i];
  }

  lemma HoldersOfPcs(env: Env, s: State, r: State, key: Key)
    requires s.pcs == r.pcs
    ensures Holders(env, s, key) == Holders(env, r, key)
  {
  }

  lemma {:induction false} SubsetSize(a: set<Call>, b: set<Call>)
    requires a <= b
    ensures |a| <= |b|
  {
    if a != {} {
      var x :| x in a;
      SubsetSize(a - {x}, b - {x});
    }
  }

  lemma {:induction false} RunLocks(env: Env, states: seq<State>, steps: seq<Step>, k: nat, key: Key)
    requires IsRun(env, states, steps) && k < |states|
    ensures LockHeld(env, states[k], key)
  {
    hide LockHeld, Enabled, Apply;
    if k == 0 {
      NobodyInside(env, states[0], key);
    } else {
      RunLocks(env, states, steps, k - 1, key);
      LockStep(env, states[k - 1], steps[k - 1], key);
    }
  }

  lemma NobodyInside(env: Env, s: State, key: Key)
    requires Initial(s)
    ensures LockHeld(env, s, key)
  {
    assert Holders(env, s, key) == {};
  }

  /** Whatever the hash, only one session has calls between lock and unlock of a schedule. */
  lemma MutualExclusion(env: Env, states: seq<State>, steps: seq<Step>, k: nat, i: Call, j: Call, id: ScheduleId)
    requires IsRun(env, states, steps) && k < |states|
    requires Inside(states[k], i, id) && Inside(states[k], j, id)
    ensures env.session(i) == env.session(j)
  {
    var key := env.hash(id);
    RunLocks(env, states, steps, k, key);
    assert i in Holders(env, states[k], key) && j in Holders(env, states[k], key);
  }

  // ---------- Stamps ----------

  predicate Increasing(h: seq<Stamp>) { forall a, b :: 0 <= a < b < |h| ==> h[a].at < h[b].at }

  /** The row records the latest execution, and a completion never runs ahead of it. */
  ghost predicate RowMatches(s: State, id: ScheduleId) {
    var h := HistoryOf(s, id);
    && Increasing(h)
    && (id in s.rows ==>
          && s.rows[id].lastRun == (if h == [] then None else Some(h[|h| - 1].at))
          && (s.rows[id].lastCompleted.Some? ==> h != [] && s.rows[id].lastCompleted.value <= h[|h| - 1].at))
  }

  /** A call past its claim left its stamp in the history. */
  ghost predicate PcMatches(s: State, i: Call) {
    var pc := PcOf(s, i);
    pc.Running? || pc.Ran? ==> var h := HistoryOf(s, pc.id); h != [] && pc.now <= h[|h| - 1].at
  }

  ghost predicate Inv(s: State) {
    && (forall id :: RowMatches(s, id))
    && (forall i :: PcMatches(s, i))
  }

  lemma PcStep(env: Env, s: State, step: Step, j: Call)
    requires Inv(s) && Enabled(s, step)
    ensures PcMatches(Apply(env, s, step), j)
  {
    hide Increasing, TooSoon;
    assert PcMatches(s, j);
    if step.CompareAndSet? {
      assert RowMatches(s, PcOf(s, step.i).id);
    }
  }

  lemma RowStep(env: Env, s: State, step: Step, id: ScheduleId)
    requires Inv(s) && Enabled(s, step)
    ensures RowMatches(Apply(env, s, step), id)
  {
    assert RowMatches(s, id);
    if step.CompareAndSet? && PcOf(s, step.i).id == id {
      var pc := PcOf(s, step.i);
      if id in s.rows && (s.rows[id].lastRun.None? || s.rows[id].lastRun.value < pc.now) {
        IncreasingAppend(HistoryOf(s, id), Stamp(pc.now, pc.min));
      }
      hide Increasing;
    } else {
      hide Increasing;
      assert HistoryOf(Apply(env, s, step), id) == HistoryOf(s, id);
      if step.Complete? && PcOf(s, step.i).id == id {
        assert PcMatches(s, step.i);
      }
    }
  }

  lemma IncreasingAppend(h: seq<Stamp>, t: Stamp)
    requires Increasing(h) && (h != [] ==> h[|h| - 1].at < t.at)
    ensures Increasing(h + [t])
  {
  }

  lemma {:induction false} RunInv(env: Env, states: seq<State>, steps: seq<Step>, k: nat)
    requires IsRun(env, states, steps) && k < |states|
    ensures Inv(states[k])
  {
    if k > 0 {
      RunInv(env, states, steps, k - 1);
      var s, step := states[k - 1], steps[k - 1];
      forall i ensures PcMatches(states[k], i) { PcStep(env, s, step, i); }
      forall id ensures RowMatches(states[k], id) { RowStep(env, s, step, id); }
    }
  }

  /** No execution is triggered twice: in every run, overlapping calls included, the stamps of a schedule strictly increase. */
  lemma StampsIncrease(env: Env, states: seq<State>, steps: seq<Step>, k: nat, id: ScheduleId, a: nat, b: nat)
    requires IsRun(env, states, steps) && k < |states|
    requires a < b < |HistoryOf(states[k], id)|
    ensures HistoryOf(states[k], id)[a].at < HistoryOf(states[k], id)[b].at
  {
    RunInv(env, states, steps, k);
    assert RowMatches(states[k], id);
  }

  /** The row records the latest execution, and a completion never runs ahead of it. */
  lemma RowRecordsLatest(env: Env, states: seq<State>, steps: seq<Step>, k: nat, id: ScheduleId)
    requires IsRun(env, states, steps) && k < |states| && id in states[k].rows
    ensures var row, h := states[k].rows[id], HistoryOf(states[k], id);
            && (row.lastRun.None? <==> h == [])
            && (row.lastRun.Some? ==> row.lastRun.value == h[|h| - 1].at
                                      && forall a :: 0 <= a < |h| ==> h[a].at <= row.lastRun.value)
            && (row.lastCompleted.Some? ==> row.lastRun.Some? && row.lastCompleted.value <= row.lastRun.value)
  {
    RunInv(env, states, steps, k);
    assert RowMatches(states[k], id);
  }

  // ---------- The minimum interval ----------

  /** Each execution keeps the interval it was checked against to the one before. */
  predicate Spaced(h: seq<Stamp>) {
    forall k :: 0 <= k < |h| - 1 ==> h[k + 1].min != 0 ==> h[k].at + h[k + 1].min <= h[k + 1].at
  }

  /** The step executes the schedule: its conditional UPDATE matches the row. */
  ghost predicate Claims(s: State, step: Step, id: ScheduleId) {
    && step.CompareAndSet? && PcOf(s, step.i).Checked? && PcOf(s, step.i).id == id
    && id in s.rows && (s.rows[id].lastRun.None? || s.rows[id].lastRun.value < PcOf(s, step.i).now)
  }

  ghost function ClaimedStamp(s: State, step: Step, id: ScheduleId): Stamp
    requires Claims(s, step, id)
  {
    Stamp(PcOf(s, step.i).now, PcOf(s, step.i).min)
  }

  /** Step `f` is the one in which call `i`, now past the guard in state `c`, read the row. */
  ghost predicate ReadAt(states: seq<State>, steps: seq<Step>, i: Call, f: nat, c: nat)
    requires c < |states| == |steps| + 1
  {
    f < c && steps[f] == Fetch(i) && forall m :: f < m <= c ==> PcOf(states[m], i) == PcOf(states[c], i)
  }

  /** Step `d` executes the schedule less than `min` before the clock `now`. */
  ghost predicate ClaimsWithin(s: State, step: Step, id: ScheduleId, now: int, min: int) {
    Claims(s, step, id) && ClaimedStamp(s, step, id).at > now - min
  }

  /**
   Step `c` executes the schedule, and since its call read the row another call has executed it,
   less than the minimum interval before this call's clock.
   */
  ghost predicate Overtaken(states: seq<State>, steps: seq<Step>, id: ScheduleId, c: nat)
    requires c < |steps| && |states| == |steps| + 1
  {
    && Claims(states[c], steps[c], id)
    && var t := ClaimedStamp(states[c], steps[c], id);
       t.min != 0 && exists f: nat, d: nat :: ReadAt(states, steps, steps[c].i, f, c) && f < d < c
                                    && ClaimsWithin(states[d], steps[d], id, t.at, t.min)
  }

  lemma HistoryStep(env: Env, s: State, step: Step, id: ScheduleId)
    requires Enabled(s, step)
    ensures HistoryOf(Apply(env, s, step), id)
            == HistoryOf(s, id) + if Claims(s, step, id) then [ClaimedStamp(s, step, id)] else []
  {
  }

  lemma RunLength(env: Env, states: seq<State>, steps: seq<Step>)
    requires IsRun(env, states, steps)
    ensures |states| == |steps| + 1
  {
  }

  lemma RunHistoryStep(env: Env, states: seq<State>, steps: seq<Step>, id: ScheduleId, k: nat)
    requires IsRun(env, states, steps) && k < |steps|
    ensures var h, h1 := HistoryOf(states[k], id), HistoryOf(states[k + 1], id);
            h <= h1 && if Claims(states[k], steps[k], id) then h1 == h + [ClaimedStamp(states[k], steps[k], id)] else h1 == h
  {
    hide HistoryOf, Claims, ClaimedStamp, Apply, Enabled;
    HistoryStep(env, states[k], steps[k], id);
  }

  lemma PrefixTransitively(a: seq<Stamp>, b: seq<Stamp>, c: seq<Stamp>)
    requires a <= b <= c
    ensures a <= c
  {
  }

  lemma {:induction false} HistoryGrows(env: Env, states: seq<State>, steps: seq<Step>, id: ScheduleId, m: nat, k: nat)
    requires IsRun(env, states, steps) && m <= k < |states|
    ensures HistoryOf(states[m], id) <= HistoryOf(states[k], id)
    decreases k
  {
    hide Claims, ClaimedStamp, HistoryOf, IsRun;
    RunLength(env, states, steps);
    if m < k {
      HistoryGrows(env, states, steps, id, m, k - 1);
      RunHistoryStep(env, states, steps, id, k - 1);
      PrefixTransitively(HistoryOf(states[m], id), HistoryOf(states[k - 1], id), HistoryOf(states[k], id));
    }
  }

  /** What is new in the history was put there by a claim in between. */
  lemma {:induction false} LatestClaim(env: Env, states: seq<State>, steps: seq<Step>, id: ScheduleId, m: nat, k: nat) returns (d: nat)
    requires IsRun(env, states, steps) && m <= k < |states| && HistoryOf(states[m], id) != HistoryOf(states[k], id)
    ensures m <= d < k && Claims(states[d], steps[d], id)
    ensures var h := HistoryOf(states[k], id); h != [] && ClaimedStamp(states[d], steps[d], id) == h[|h| - 1]
    decreases k
  {
    hide Claims, ClaimedStamp, HistoryOf, IsRun;
    RunLength(env, states, steps);
    RunHistoryStep(env, states, steps, id, k - 1);
    if Claims(states[k - 1], steps[k - 1], id) {
      d := k - 1;
    } else {
      d := LatestClaim(env, states, steps, id, m, k - 1);
    }
  }

  /** Only reading the row takes a call past the guard. */
  lemma CheckedStep(env: Env, s: State, step: Step, i: Call)
    requires Enabled(s, step) && PcOf(Apply(env, s, step), i).Checked?
    ensures step != Fetch(i) ==> PcOf(s, i) == PcOf(Apply(env, s, step), i)
    ensures var pc := PcOf(Apply(env, s, step), i);
            step == Fetch(i) ==> pc.id in s.rows && s.rows[pc.id].minInterval == pc.min && !TooSoon(s.rows[pc.id], pc.now)
  {
    hide TooSoon;
  }

  /** A call past the guard read the row in some step, and the interval it read had passed then. */
  lemma {:induction false} ReadSomewhere(env: Env, states: seq<State>, steps: seq<Step>, i: Call, c: nat) returns (f: nat)
    requires IsRun(env, states, steps) && c < |states| && PcOf(states[c], i).Checked?
    ensures ReadAt(states, steps, i, f, c)
    ensures var pc := PcOf(states[c], i);
            pc.id in states[f].rows && states[f].rows[pc.id].minInterval == pc.min && !TooSoon(states[f].rows[pc.id], pc.now)
  {
    hide TooSoon, Apply, Enabled;
    if c == 0 {
      assert false;
    } else if steps[c - 1] == Fetch(i) {
      f := c - 1;
      CheckedStep(env, states[f], steps[f], i);
    } else {
      CheckedStep(env, states[c - 1], steps[c - 1], i);
      f := ReadSomewhere(env, states, steps, i, c - 1);
    }
  }

  /** The execution comes less than its minimum interval after the latest one. */
  predicate TooClose(h: seq<Stamp>, t: Stamp) {
    h != [] && t.min != 0 && h[|h| - 1].at + t.min > t.at
  }

  lemma ReadRowWasDue(s: State, id: ScheduleId, now: int, min: int)
    requires RowMatches(s, id) && id in s.rows && s.rows[id].minInterval == min && !TooSoon(s.rows[id], now)
    ensures !TooClose(HistoryOf(s, id), Stamp(now, min))
  {
  }

  lemma OvertakenTooClose(env: Env, states: seq<State>, steps: seq<Step>, id: ScheduleId, c: nat)
    requires IsRun(env, states, steps) && c < |steps| && Overtaken(states, steps, id, c)
    ensures TooClose(HistoryOf(states[c], id), ClaimedStamp(states[c], steps[c], id))
  {
    var t, h := ClaimedStamp(states[c], steps[c], id), HistoryOf(states[c], id);
    var f: nat, d: nat :| ReadAt(states, steps, steps[c].i, f, c) && f < d < c && ClaimsWithin(states[d], steps[d], id, t.at, t.min);
    assert |states| == |steps| + 1 && t.min != 0 && Claims(states[d], steps[d], id);
    hide IsRun, Overtaken, HistoryOf, Claims, ClaimedStamp, ReadAt, TooClose, Increasing;
    RunInv(env, states, steps, c);
    assert RowMatches(states[c], id);
    RunHistoryStep(env, states, steps, id, d);
    HistoryGrows(env, states, steps, id, d + 1, c);
    LaterStampsCloser(h, HistoryOf(states[d], id), ClaimedStamp(states[d], steps[d], id), t);
  }

  lemma LaterStampsCloser(h: seq<Stamp>, before: seq<Stamp>, claimed: Stamp, t: Stamp)
    requires Increasing(h) && before + [claimed] <= h && t.min != 0 && claimed.at > t.at - t.min
    ensures TooClose(h, t)
  {
    assert h[|before|] == claimed;
  }

  /** A claim comes too close to the execution before it exactly when it was overtaken. */
  lemma TooCloseExactlyWhenOvertaken(env: Env, states: seq<State>, steps: seq<Step>, id: ScheduleId, c: nat)
    requires IsRun(env, states, steps) && c < |steps| && Claims(states[c], steps[c], id)
    ensures TooClose(HistoryOf(states[c], id), ClaimedStamp(states[c], steps[c], id)) <==> Overtaken(states, steps, id, c)
  {
    var i, h, t := steps[c].i, HistoryOf(states[c], id), ClaimedStamp(states[c], steps[c], id);
    var f := ReadSomewhere(env, states, steps, i, c);
    RunInv(env, states, steps, f);
    assert RowMatches(states[f], id);
    ReadRowWasDue(states[f], id, t.at, t.min);
    assert !Claims(states[f], steps[f], id);
    hide Apply, Enabled, HistoryOf, Claims, ClaimedStamp, ReadAt, Inv, RowMatches, IsRun, TooSoon;
    if TooClose(h, t) {
      var d := LatestClaim(env, states, steps, id, f, c);
      assert ClaimsWithin(states[d], steps[d], id, t.at, t.min);
    }
    if Overtaken(states, steps, id, c) { OvertakenTooClose(env, states, steps, id, c); }
  }

  lemma SpacedAppend(h: seq<Stamp>, t: Stamp)
    ensures Spaced(h + [t]) <==> Spaced(h) && !TooClose(h, t)
  {
    var h1 := h + [t];
    if Spaced(h1) {
      forall k | 0 <= k < |h| - 1 && h[k + 1].min != 0 ensures h[k].at + h[k + 1].min <= h[k + 1].at {
        assert h1[k] == h[k] && h1[k + 1] == h[k + 1];
      }
    }
    var last := |h| - 1;
    if h != [] { assert h1[last] == h[last] && h1[last + 1] == t; }
    if Spaced(h) && h != [] {
      forall k | 0 <= k < last && h1[k + 1].min != 0 ensures h1[k].at + h1[k + 1].min <= h1[k + 1].at {
        assert h1[k] == h[k] && h1[k + 1] == h[k + 1];
      }
    }
  }

  lemma OneStampSpaced(s: State, id: ScheduleId)
    requires Initial(s)
    ensures Spaced(HistoryOf(s, id))
  {
  }

  /**
   In every run, whatever overlaps: the executions of a schedule keep the minimum interval they
   were checked against exactly when none of them was overtaken between its read and its claim.
   */
  lemma {:induction false} SpacedExactlyUnlessOvertaken(env: Env, states: seq<State>, steps: seq<Step>, k: nat, id: ScheduleId)
    requires IsRun(env, states, steps) && k < |states|
    ensures Spaced(HistoryOf(states[k], id)) <==> forall c :: 0 <= c < k ==> !Overtaken(states, steps, id, c)
  {
    hide Apply, Enabled, HistoryOf, Claims, ClaimedStamp, TooClose;
    if k == 0 {
      OneStampSpaced(states[0], id);
    } else {
      SpacedExactlyUnlessOvertaken(env, states, steps, k - 1, id);
      hide Spaced;
      var c := k - 1;
      RunHistoryStep(env, states, steps, id, c);
      if Claims(states[c], steps[c], id) {
        TooCloseExactlyWhenOvertaken(env, states, steps, id, c);
        SpacedAppend(HistoryOf(states[c], id), ClaimedStamp(states[c], steps[c], id));
      } else {
        assert HistoryOf(states[k], id) == HistoryOf(states[c], id) && !Overtaken(states, steps, id, c);
      }
    }
  }

  /** Only a call of the same session can overtake: both are inside when it does. */
  lemma OvertakenWithinSession(env: Env, states: seq<State>, steps: seq<Step>, id: ScheduleId, c: nat) returns (d: nat)
    requires IsRun(env, states, steps) && c < |steps| && Overtaken(states, steps, id, c)
    ensures d < c && Claims(states[d], steps[d], id) && steps[d].i != steps[c].i
    ensures Inside(states[d], steps[d].i, id) && Inside(states[d], steps[c].i, id)
    ensures env.session(steps[d].i) == env.session(steps[c].i)
  {
    var t := ClaimedStamp(states[c], steps[c], id);
    var f: nat, e: nat :| ReadAt(states, steps, steps[c].i, f, c) && f < e < c && ClaimsWithin(states[e], steps[e], id, t.at, t.min);
    d := e;
    assert PcOf(states[d], steps[c].i) == PcOf(states[d + 1], steps[c].i) == PcOf(states[c], steps[c].i);
    assert PcOf(states[d + 1], steps[d].i).Running?;
    MutualExclusion(env, states, steps, d, steps[d].i, steps[c].i, id);
  }

  /**
   So as long as no session overlaps two of its calls on the schedule, any two executions are at
   least the checked minimum interval apart, though clocks disagree and are read before the lock.
   */
  lemma ExecutionsSpaced(env: Env, states: seq<State>, steps: seq<Step>, k: nat, id: ScheduleId, a: nat, b: nat)
    requires IsRun(env, states, steps) && k < |states|
    requires forall l, i, j :: 0 <= l < k && Inside(states[l], i, id) && Inside(states[l], j, id) && env.session(i) == env.session(j) ==> i == j
    requires a < b < |HistoryOf(states[k], id)|
    ensures var h := HistoryOf(states[k], id);
            h[a].at < h[b].at && (h[b].min > 0 ==> h[a].at + h[b].min <= h[b].at)
  {
    hide Overtaken;
    forall c | 0 <= c < k ensures !Overtaken(states, steps, id, c) {
      if Overtaken(states, steps, id, c) {
        var d := OvertakenWithinSession(env, states, steps, id, c);
      }
    }
    SpacedExactlyUnlessOvertaken(env, states, steps, k, id);
    var h := HistoryOf(states[k], id);
    StampsIncrease(env, states, steps, k, id, a, b);
    if a < b - 1 { StampsIncrease(env, states, steps, k, id, a, b - 1); }
    var p := b - 1;
    assert h[p + 1].min != 0 ==> h[p].at + h[p + 1].min <= h[p + 1].at;
  }

  lemma Go(env: Env, states: seq<State>, steps: seq<Step>, step: Step, next: State) returns (states1: seq<State>, steps1: seq<Step>)
    requires IsRun(env, states, steps) && Enabled(states[|steps|], step) && Apply(env, states[|steps|], step) == next
    ensures states1 == states + [next] && steps1 == steps + [step] && IsRun(env, states1, steps1)
  {
    hide Enabled, Apply, Initial;
    states1, steps1 := states + [next], steps + [step];
    forall k | 0 <= k < |steps1| ensures Enabled(states1[k], steps1[k]) && states1[k + 1] == Apply(env, states1[k], steps1[k]) {
      if k < |steps| { assert Enabled(states[k], steps[k]) && states[k + 1] == Apply(env, states[k], steps[k]); }
    }
  }

  const FRESH := Row(None, 100, None)
  const CLOCKED := State(map[0 := FRESH], map[], map[0 := Clocked(0, 10), 1 := Clocked(0, 11)], map[0 := []])
  const LOCKED := CLOCKED.(locks := map[0 := Hold(0, 2)], pcs := map[0 := Locked(0, 10), 1 := Locked(0, 11)])
  const CHECKED := LOCKED.(pcs := map[0 := Checked(0, 10, 100), 1 := Checked(0, 11, 100)])
  const CLAIMED := CHECKED.(rows := map[0 := FRESH.(lastRun := Some(10))], pcs := map[0 := Running(0, 10), 1 := Checked(0, 11, 100)],
                            history := map[0 := [Stamp(10, 100)]])
  const TWICE := CLAIMED.(rows := map[0 := FRESH.(lastRun := Some(11))], pcs := map[0 := Running(0, 10), 1 := Running(0, 11)],
                          history := map[0 := [Stamp(10, 100), Stamp(11, 100)]])

  lemma BothClocked(env: Env) returns (states: seq<State>, steps: seq<Step>)
    ensures IsRun(env, states, steps) && |steps| == 2 && states[2] == CLOCKED
  {
    var s0 := State(map[0 := FRESH], map[], map[], map[0 := []]);
    var s1 := s0.(pcs := map[0 := Clocked(0, 10)]);
    states, steps := [s0], [];
    states, steps := Go(env, states, steps, ReadClock(0, 0, 10), s1);
    states, steps := Go(env, states, steps, ReadClock(1, 0, 11), CLOCKED);
  }

  lemma BothPassGuard(env: Env)
    requires env.hash(0) == 0 && env.session(0) == 0 && env.session(1) == 0
    ensures var one := CLOCKED.(locks := map[0 := Hold(0, 1)], pcs := map[0 := Locked(0, 10), 1 := Clocked(0, 11)]);
            && Apply(env, CLOCKED, TryLock(0)) == one && Apply(env, one, TryLock(1)) == LOCKED
    ensures var one := LOCKED.(pcs := map[0 := Checked(0, 10, 100), 1 := Locked(0, 11)]);
            && Apply(env, LOCKED, Fetch(0)) == one && Apply(env, one, Fetch(1)) == CHECKED
  {
  }

  lemma BothClaim(env: Env)
    ensures Apply(env, CHECKED, CompareAndSet(0)) == CLAIMED && Apply(env, CLAIMED, CompareAndSet(1)) == TWICE
  {
    assert HistoryOf(CHECKED, 0) + [Stamp(10, 100)] == [Stamp(10, 100)];
    assert HistoryOf(CLAIMED, 0) + [Stamp(11, 100)] == [Stamp(10, 100), Stamp(11, 100)];
    assert Apply(env, CHECKED, CompareAndSet(0)).history == CLAIMED.history;
    assert Apply(env, CLAIMED, CompareAndSet(1)).history == TWICE.history;
  }

  /** The lock does not keep overlapping calls of one session apart, and they can run closer together than the minimum interval. */
  lemma OverlapBreaksSpacing(env: Env) returns (states: seq<State>, steps: seq<Step>)
    requires env.hash(0) == 0 && env.session(0) == 0 && env.session(1) == 0
    ensures IsRun(env, states, steps)
    ensures HistoryOf(states[|steps|], 0) == [Stamp(10, 100), Stamp(11, 100)]
  {
    BothPassGuard(env);
    BothClaim(env);
    var one := CLOCKED.(locks := map[0 := Hold(0, 1)], pcs := map[0 := Locked(0, 10), 1 := Clocked(0, 11)]);
    var two := LOCKED.(pcs := map[0 := Checked(0, 10, 100), 1 := Locked(0, 11)]);
    states, steps := BothClocked(env);
    hide IsRun, Apply;
    states, steps := Go(env, states, steps, TryLock(0), one);
    states, steps := Go(env, states, steps, TryLock(1), LOCKED);
    states, steps := Go(env, states, steps, Fetch(0), two);
    states, steps := Go(env, states, steps, Fetch(1), CHECKED);
    states, steps := Go(env, states, steps, CompareAndSet(0), CLAIMED);
    states, steps := Go(env, states, steps, CompareAndSet(1), TWICE);
  }

  // ---------- The call as the scheduler writes it ----------

  predicate Claimable(rows: map<ScheduleId, Row>, id: ScheduleId, now: int) {
    id in rows && !TooSoon(rows[id], now) && (rows[id].lastRun.None? || rows[id].lastRun.value < now)
  }

  /** An undisturbed call runs the handler exactly under these conditions. */
  predicate MayRun(env: Env, rows: map<ScheduleId, Row>, locks: map<Key, Hold>, i: Call, id: ScheduleId, now: int) {
    CanTake(locks, env.hash(id), env.session(i)) && Claimable(rows, id, now)
  }

  /** The rows after a call that ran the handler. */
  function AfterRun(rows: map<ScheduleId, Row>, id: ScheduleId, now: int, success: bool): map<ScheduleId, Row>
    requires id in rows
  {
    rows[id := rows[id].(lastRun := Some(now), lastCompleted := if success then Some(now) else rows[id].lastCompleted)]
  }

  /** Between lock and unlock: fetch and guard, claim, run, complete. */
  function Section(env: Env, s: State, i: Call, success: bool): State
    requires PcOf(s, i).Locked?
  {
    var s1 := Apply(env, s, Fetch(i));
    if !PcOf(s1, i).Checked? then s1
    else
      var s2 := Apply(env, s1, CompareAndSet(i));
      if !PcOf(s2, i).Running? then s2
      else Apply(env, Apply(env, s2, RunHandler(i, success)), Complete(i))
  }

  /** The protocol steps of one call with no other step in between. */
  function UndisturbedCall(env: Env, s: State, i: Call, id: ScheduleId, now: int, success: bool): State
    requires PcOf(s, i).Idle?
  {
    var s1 := Apply(env, Apply(env, s, ReadClock(i, id, now)), TryLock(i));
    if PcOf(s1, i).Idle? then s1
    else
      var s2 := Section(env, s1, i, success);
      if PcOf(s2, i).Releasing? then Apply(env, s2, Unlock(i)) else s2
  }

  lemma SectionEffect(env: Env, s: State, i: Call, success: bool)
    requires PcOf(s, i).Locked?
    ensures var pc, r := PcOf(s, i), Section(env, s, i, success);
            && r.rows == (if Claimable(s.rows, pc.id, pc.now) then AfterRun(s.rows, pc.id, pc.now, success) else s.rows)
            && r.locks == s.locks
            && HistoryOf(r, pc.id) == HistoryOf(s, pc.id)
                                      + (if Claimable(s.rows, pc.id, pc.now) then [Stamp(pc.now, s.rows[pc.id].minInterval)] else [])
            && PcOf(r, i) == Releasing(pc.id)
  {
    hide TooSoon, Take, Release;
    var pc, s1 := PcOf(s, i), Apply(env, s, Fetch(i));
    if Claimable(s.rows, pc.id, pc.now) {
      assert s1 == Goto(s, i, Checked(pc.id, pc.now, s.rows[pc.id].minInterval));
      var s2 := Apply(env, s1, CompareAndSet(i));
      assert PcOf(s2, i) == Running(pc.id, pc.now);
    }
  }

  /** What such a call does to the tables: the handler runs exactly when `MayRun`, and the locks are as before. */
  lemma UndisturbedEffect(env: Env, s: State, i: Call, id: ScheduleId, now: int, success: bool)
    requires PcOf(s, i).Idle?
    ensures var r := UndisturbedCall(env, s, i, id, now, success);
            && r.rows == (if MayRun(env, s.rows, s.locks, i, id, now) then AfterRun(s.rows, id, now, success) else s.rows)
            && r.locks == s.locks
            && |HistoryOf(r, id)| == |HistoryOf(s, id)| + (if MayRun(env, s.rows, s.locks, i, id, now) then 1 else 0)
            && PcOf(r, i).Idle?
  {
    hide Section, TooSoon, Take, Release;
    var s1 := Apply(env, Apply(env, s, ReadClock(i, id, now)), TryLock(i));
    if PcOf(s1, i).Locked? {
      SectionEffect(env, s1, i, success);
      ReleaseUndoesTake(s.locks, env.hash(id), env.session(i));
    }
  }

  /**
   Spelled out: with nothing in between, the handler runs if and only if the lock is free or held
   by the call's own session, the schedule exists, its clock is past the last run, and the minimum
   interval, if there is one, has passed since.
   */
  lemma UndisturbedCallRunsExactlyWhenDue(env: Env, s: State, i: Call, id: ScheduleId, now: int, success: bool)
    requires PcOf(s, i).Idle?
    ensures var r, key := UndisturbedCall(env, s, i, id, now, success), env.hash(id);
            && HistoryOf(s, id) <= HistoryOf(r, id)
            && (HistoryOf(r, id) != HistoryOf(s, id) <==>
                  && (key in s.locks ==> s.locks[key].session == env.session(i))
                  && id in s.rows
                  && (s.rows[id].lastRun.Some? ==>
                        && s.rows[id].lastRun.value < now
                        && (s.rows[id].minInterval == 0 || s.rows[id].lastRun.value + s.rows[id].minInterval <= now)))
            && (HistoryOf(r, id) != HistoryOf(s, id) ==>
                  && HistoryOf(r, id) == HistoryOf(s, id) + [Stamp(now, s.rows[id].minInterval)]
                  && r.rows[id].lastRun == Some(now)
                  && r.rows[id].lastCompleted == (if success then Some(now) else s.rows[id].lastCompleted)
                  && r.rows[id].minInterval == s.rows[id].minInterval && r.rows - {id} == s.rows - {id})
            && (HistoryOf(r, id) == HistoryOf(s, id) ==> r.rows == s.rows)
  {
    UndisturbedEffect(env, s, i, id, now, success);
    UndisturbedHistory(env, s, i, id, now, success);
    hide UndisturbedCall, HistoryOf;
  }

  lemma UndisturbedHistory(env: Env, s: State, i: Call, id: ScheduleId, now: int, success: bool)
    requires PcOf(s, i).Idle?
    ensures var r := UndisturbedCall(env, s, i, id, now, success);
            HistoryOf(r, id) == HistoryOf(s, id) + if MayRun(env, s.rows, s.locks, i, id, now) then [Stamp(now, s.rows[id].minInterval)] else []
  {
    hide Section, TooSoon, Take, Release;
    var s1 := Apply(env, Apply(env, s, ReadClock(i, id, now)), TryLock(i));
    if PcOf(s1, i).Locked? {
      SectionEffect(env, s1, i, success);
    }
  }

  /**
   And in every run: a call that reads the row goes on to its claim if and only if the schedule
   exists and has not run, has no minimum interval, or last ran at least that long before the call's clock.
   */
  lemma GuardPassedExactlyWhenDue(env: Env, states: seq<State>, steps: seq<Step>, k: nat)
    requires IsRun(env, states, steps) && k < |steps| && steps[k].Fetch?
    ensures var i, s := steps[k].i, states[k];
            var pc := PcOf(s, i);
            && pc.Locked?
            && (PcOf(states[k + 1], i).Checked? <==>
                  && pc.id in s.rows
                  && (s.rows[pc.id].lastRun.None? || s.rows[pc.id].minInterval == 0
                      || s.rows[pc.id].lastRun.value + s.rows[pc.id].minInterval <= pc.now))
            && (PcOf(states[k + 1], i).Checked? ==> PcOf(states[k + 1], i) == Checked(pc.id, pc.now, s.rows[pc.id].minInterval))
            && (!PcOf(states[k + 1], i).Checked? ==> PcOf(states[k + 1], i) == Releasing(pc.id))
  {
    assert Enabled(states[k], steps[k]) && states[k + 1] == Apply(env, states[k], steps[k]);
  }

  class Scheduler {
    const env: Env
    const self: Call
    var rows: map<ScheduleId, Row>
    var locks: map<Key, Hold>

    constructor (env: Env, self: Call, rows: map<ScheduleId, Row>)
      ensures this.env == env && this.self == self && this.rows == rows && this.locks == map[]
    {
      this.env, this.self, this.rows, this.locks := env, self, rows, map[];
    }

    /** The tables end as after the protocol's undisturbed call, from any protocol state with these tables. */
    method ExecuteSchedule(id: ScheduleId, now: int, success: bool) returns (ran: bool)
      modifies this
      ensures ran <==>
                && (env.hash(id) in old(locks) ==> old(locks)[env.hash(id)].session == env.session(self))
                && id in old(rows)
                && (old(rows)[id].lastRun.Some? ==>
                      && old(rows)[id].lastRun.value < now
                      && (old(rows)[id].minInterval == 0 || old(rows)[id].lastRun.value + old(rows)[id].minInterval <= now))
      ensures forall s: State :: s.rows == old(rows) && s.locks == old(locks) && PcOf(s, self).Idle? ==>
                rows == UndisturbedCall(env, s, self, id, now, success).rows
                && locks == UndisturbedCall(env, s, self, id, now, success).locks
    {
      ghost var rows0, locks0 := rows, locks;
      ran := false;
      var key := env.hash(id);
      if CanTake(locks, key, env.session(self)) {
        locks := Take(locks, key, env.session(self));
        if id in rows && !TooSoon(rows[id], now) && (rows[id].lastRun.None? || rows[id].lastRun.value < now) {
          rows := rows[id := rows[id].(lastRun := Some(now))];
          ran := true;
          if success {
            rows := rows[id := rows[id].(lastCompleted := Some(now))];
          }
        }
        locks := Release(locks, key, env.session(self));
        ReleaseUndoesTake(locks0, key, env.session(self));
      }
      hide UndisturbedCall;
      forall s: State | s.rows == rows0 && s.locks == locks0 && PcOf(s, self).Idle?
        ensures rows == UndisturbedCall(env, s, self, id, now, success).rows
                && locks == UndisturbedCall(env, s, self, id, now, success).locks
      {
        UndisturbedEffect(env, s, self, id, now, success);
      }
    }
  }
}
