/**
 Missed-run arithmetic of the scheduler: the interval read off a cron expression, the number
 of missed windows, and the catch-up jobs published for them. Times are epoch milliseconds.
 */
module CronWindows {
  import opened Common

  const MINUTE_MS := 60_000
  const CATCHUP_BATCH_LIMIT := 50
  const DEFAULT_STALENESS_MS := 300_000

  // ---------- Strings of a cron field ----------

  predicate AllDigits(s: string) { forall i :: 0 <= i < |s| ==> '0' <= s[i] <= '9' }

  /** `/^\*\/(\d+)$/` */
  predicate IsEvery(field: string) { |field| >= 3 && field[0] == '*' && field[1] == '/' && AllDigits(field[2..]) }

  function ParseDigits(s: string): nat
    requires AllDigits(s)
  {
    if s == "" then 0 else 10 * ParseDigits(s[..|s| - 1]) + (s[|s| - 1] - '0') as nat
  }

  function Split(s: string, sep: char): (parts: seq<string>)
    ensures |parts| >= 1
    ensures |parts| >= 2 <==> sep in s
  {
    if s == "" then [""]
    else
      var rest := Split(s[1..], sep);
      if s[0] == sep then [""] + rest else [[s[0]] + rest[0]] + rest[1..]
  }

  /** `.map(Number).filter((n) => !isNaN(n))`, for whatever strings `number` accepts. */
  function Numbers(parts: seq<string>, number: string -> Option<real>): seq<real> {
    if parts == [] then []
    else (match number(parts[0]) case Some(x) => [x] case None => []) + Numbers(parts[1..], number)
  }

  // ---------- Comma lists ----------

  function Insert(x: real, xs: seq<real>): (r: seq<real>)
    ensures |r| == |xs| + 1
  {
    if xs == [] || x <= xs[0] then [x] + xs else [xs[0]] + Insert(x, xs[1..])
  }

  /** `parts.sort((a, b) => a - b)` */
  function Sorted(xs: seq<real>): (r: seq<real>)
    ensures |r| == |xs|
  {
    if xs == [] then [] else Insert(xs[0], Sorted(xs[1..]))
  }

  function Sum(xs: seq<real>): real {
    if xs == [] then 0.0 else Sum(xs[..|xs| - 1]) + xs[|xs| - 1]
  }

  lemma SumAppend(xs: seq<real>, x: real)
    ensures Sum(xs + [x]) == Sum(xs) + x
  {
    assert (xs + [x])[..|xs|] == xs;
  }

  /** Gaps between consecutive minutes plus the wrap-around gap; the gaps telescope to the full hour. */
  method AverageGap(minutes: seq<real>) returns (avgGap: real)
    requires |minutes| >= 2
    ensures avgGap == 60.0 / |minutes| as real
  {
    var parts := Sorted(minutes);
    var gaps: seq<real> := [];
    for i := 1 to |parts|
      invariant |gaps| == i - 1 && Sum(gaps) == parts[i - 1] - parts[0]
    {
      SumAppend(gaps, parts[i] - parts[i - 1]);
      gaps := gaps + [parts[i] - parts[i - 1]];
    }
    SumAppend(gaps, 60.0 - parts[|parts| - 1] + parts[0]);
    gaps := gaps + [60.0 - parts[|parts| - 1] + parts[0]];
    var total := 0.0;
    for i := 0 to |gaps|
      invariant total == Sum(gaps[..i])
    {
      assert gaps[..i + 1][..i] == gaps[..i];
      total := total + gaps[i];
    }
    assert gaps[..|gaps|] == gaps;
    avgGap := total / |gaps| as real;
  }

  // ---------- Interval of an expression ----------

  /** The interval `parseCronInterval` must return for the fields of an expression; 0 is "not recognised". */
  function Interval(parts: seq<string>, number: string -> Option<real>): real {
    if |parts| < 5 then 0.0
    else
      var minute, hour := parts[0], parts[1];
      if IsEvery(minute) then ParseDigits(minute[2..]) as real * 60_000.0
      else if IsEvery(hour) && minute == "0" then ParseDigits(hour[2..]) as real * 3_600_000.0
      else if ',' in minute && |Numbers(Split(minute, ','), number)| >= 2 then
        3_600_000.0 / |Numbers(Split(minute, ','), number)| as real
      else if minute == "*" && hour == "*" && parts[2] == "*" && parts[4] == "*" then 60_000.0
      else if minute == "0" && hour == "*" then 3_600_000.0
      else if minute == "0" && hour != "*" && '/' !in hour then 86_400_000.0
      else 0.0
  }

  method ParseCronInterval(parts: seq<string>, number: string -> Option<real>) returns (intervalMs: real)
    ensures intervalMs == Interval(parts, number)
  {
    if |parts| < 5 {
      return 0.0;
    }
    var minute, hour := parts[0], parts[1];
    if IsEvery(minute) {
      return ParseDigits(minute[2..]) as real * 60_000.0;
    }
    if IsEvery(hour) && minute == "0" {
      return ParseDigits(hour[2..]) as real * 3_600_000.0;
    }
    if ',' in minute {
      var minutes := Numbers(Split(minute, ','), number);
      if |minutes| >= 2 {
        var avgGap := AverageGap(minutes);
        return avgGap * 60_000.0;
      }
    }
    if minute == "*" && hour == "*" && parts[2] == "*" && parts[4] == "*" {
      return 60_000.0;
    }
    if minute == "0" && hour == "*" {
      return 3_600_000.0;
    }
    if minute == "0" && hour != "*" && '/' !in hour {
      return 86_400_000.0;
    }
    return 0.0;
  }

  /**
   No expression is given a negative interval; too few fields, or a minute field that is neither `*`,
   nor `0`, nor a step, nor a list, are not recognised; every comma list of k numbers gets an hour over k.
   */
  lemma IntervalFacts(parts: seq<string>, number: string -> Option<real>)
    ensures Interval(parts, number) >= 0.0
    ensures |parts| < 5 ==> Interval(parts, number) == 0.0
    ensures |parts| >= 5 && parts[0] != "*" && parts[0] != "0" && !IsEvery(parts[0]) && ',' !in parts[0] ==> Interval(parts, number) == 0.0
    ensures |parts| >= 5 && ',' in parts[0] && |Numbers(Split(parts[0], ','), number)| >= 2 ==>
              Interval(parts, number) == 3_600_000.0 / |Numbers(Split(parts[0], ','), number)| as real
  {
    if |parts| >= 5 && IsEvery(parts[0]) {
      EveryHasNoComma(parts[0]);
    }
  }

  lemma EveryHasNoComma(field: string)
    requires IsEvery(field)
    ensures ',' !in field
  {
    forall i | 2 <= i < |field| ensures field[i] != ',' {
      assert field[i] == field[2..][i - 2];
    }
  }

  // ---------- Missed windows ----------

  function MissedWindows(interval: real, lastCompleted: Option<int>, now: int): (missed: int)
    ensures missed >= 0
  {
    if lastCompleted.None? then 0
    else
      var elapsed := now - lastCompleted.value;
      if elapsed <= 0 then 0
      else if interval <= 0.0 then 1
      else Max(0, (elapsed as real / interval).Floor - 1)
  }

  /** Every `step` units, counted anew in every cycle of so many units, as cron does for minutes of the hour and hours of the day. */
  datatype Grid = Grid(unit: int, cycle: int, step: int)

  predicate Sound(g: Grid) { g.unit >= 1 && g.cycle >= 1 && g.step >= 1 }

  /** The expression fires at millisecond `t`. */
  predicate Fires(g: Grid, t: int)
    requires Sound(g)
  {
    t % g.unit == 0 && ((t / g.unit) % g.cycle) % g.step == 0
  }

  /** Fires in `(last, now]`. */
  function CountFires(g: Grid, last: int, now: int): nat
    requires Sound(g)
    decreases now - last
  {
    if now <= last then 0 else CountFires(g, last, now - 1) + if Fires(g, now) then 1 else 0
  }

  /** The interval of a grid. */
  function Spacing(g: Grid): (d: int)
    requires Sound(g)
    ensures d >= 1
  {
    MulAtLeast(g.step, g.unit);
    g.step * g.unit
  }

  lemma FloorOfQuotient(a: int, d: int)
    requires a >= 0 && d >= 1
    ensures (a as real / d as real).Floor == a / d
  {
    var x := a as real / d as real;
    QuotientBounds(a, d, a / d, a % d);
    assert (a / d) as real <= x < (a / d) as real + 1.0;
  }

  lemma QuotientBounds(a: int, d: int, q: int, r: int)
    requires d >= 1 && a == d * q + r && 0 <= r < d
    ensures q as real <= a as real / d as real < q as real + 1.0
  {
    var x, k := a as real / d as real, d as real;
    assert x * k == a as real;
    assert (d * q) as real == k * q as real;
    BelowWhenScaled(q as real, x, k);
    BelowWhenScaled(x, q as real + 1.0, k);
    StrictWhenScaled(x, q as real + 1.0, k);
    assert (q as real + 1.0) * k == k * q as real + k;
  }

  lemma BelowWhenScaled(x: real, y: real, k: real)
    requires k > 0.0
    ensures x * k <= y * k ==> x <= y
  {
    if x > y { assert (x - y) * k > 0.0; }
  }

  lemma StrictWhenScaled(x: real, y: real, k: real)
    requires k > 0.0
    ensures x * k < y * k ==> x < y
  {
    if x >= y { assert (x - y) * k >= 0.0; }
  }

  /** When the step divides the cycle, the grid has no seam. */
  lemma FiresOnMultiples(g: Grid, t: int)
    requires Sound(g) && g.cycle % g.step == 0
    ensures Fires(g, t) <==> t % Spacing(g) == 0
  {
    var n, m, k := g.step, t / g.unit, g.cycle / g.step;
    assert g.cycle == n * k;
    var h, r := m / g.cycle, m % g.cycle;
    assert m == g.cycle * h + r;
    assert g.cycle * h == n * (k * h) by { assert (n * k) * h == n * (k * h); }
    ModShift(r, n, k * h);
    assert m % n == r % n;
    if t % g.unit == 0 {
      assert t == m * g.unit;
      ScaledMod(m, n, g.unit);
    } else {
      CoarserMultiple(t, n, g.unit);
    }
  }

  lemma CoarserMultiple(t: int, n: int, unit: int)
    requires n >= 1 && unit >= 1
    ensures n * unit >= 1 && (t % (n * unit) == 0 ==> t % unit == 0)
  {
    MulAtLeast(n, unit);
    var d := n * unit;
    var q := t / d;
    if t % d == 0 {
      assert d * q == unit * (n * q);
      QuotientUnique(t, unit, n * q, 0);
    }
  }

  lemma ModShift(r: int, n: int, k: int)
    requires n >= 1
    ensures (n * k + r) % n == r % n
  {
    var q, s := r / n, r % n;
    assert n * k + r == n * (k + q) + s;
    QuotientUnique(n * k + r, n, k + q, s);
  }

  lemma ScaledMod(m: int, n: int, c: int)
    requires n >= 1 && c >= 1
    ensures (m * c) % (n * c) == 0 <==> m % n == 0
  {
    var q, r := m / n, m % n;
    assert m * c == (n * c) * q + r * c;
    assert 0 <= r * c < n * c by { assert r + 1 <= n; assert (r + 1) * c <= n * c; assert (r + 1) * c == r * c + c; }
    QuotientUnique(m * c, n * c, q, r * c);
  }

  /** One more multiple in `(last, now]` exactly when `now` is a multiple. */
  lemma QuotientStep(now: int, d: int)
    requires d >= 1
    ensures now / d == (now - 1) / d + if now % d == 0 then 1 else 0
  {
    var q, r := now / d, now % d;
    assert now == d * q + r;
    if r == 0 {
      assert now - 1 == d * (q - 1) + (d - 1);
      QuotientUnique(now - 1, d, q - 1, d - 1);
    } else {
      QuotientUnique(now - 1, d, q, r - 1);
    }
  }

  lemma {:induction false} CountOnGrid(g: Grid, last: int, now: int)
    requires Sound(g) && g.cycle % g.step == 0 && last <= now
    ensures CountFires(g, last, now) == now / Spacing(g) - last / Spacing(g)
    decreases now - last
  {
    hide Spacing, Fires;
    if last < now {
      CountOnGrid(g, last, now - 1);
      FiresOnMultiples(g, now);
      QuotientStep(now, Spacing(g));
    }
  }

  /** Floor division of a difference: within one of the difference of the floor divisions. */
  lemma QuotientDifference(last: int, now: int, d: int)
    requires d >= 1
    ensures now / d - last / d - 1 <= (now - last) / d <= now / d - last / d
  {
    var q1, r1, q0, r0 := now / d, now % d, last / d, last % d;
    assert now - last == d * (q1 - q0) + (r1 - r0);
    if r1 >= r0 {
      QuotientUnique(now - last, d, q1 - q0, r1 - r0);
    } else {
      assert now - last == d * (q1 - q0 - 1) + (d + r1 - r0);
      QuotientUnique(now - last, d, q1 - q0 - 1, d + r1 - r0);
    }
  }

  lemma MissedIsQuotient(d: int, last: int, now: int)
    requires d >= 1 && last < now
    ensures MissedWindows(d as real, Some(last), now) == Max(0, (now - last) / d - 1)
  {
    FloorOfQuotient(now - last, d);
  }

  /** When the step divides the cycle the estimate is the true number of earlier fires, or one less. */
  lemma MissedNearFires(g: Grid, last: int, now: int)
    requires Sound(g) && g.cycle % g.step == 0 && last < now
    ensures var f := CountFires(g, last, now);
            Max(0, f - 2) <= MissedWindows(Spacing(g) as real, Some(last), now) <= Max(0, f - 1)
  {
    hide Spacing, CountFires;
    MissedIsQuotient(Spacing(g), last, now);
    CountOnGrid(g, last, now);
    QuotientDifference(last, now, Spacing(g));
  }

  lemma Distribute(a: int, b: int, u: int)
    ensures (a + b) * u == a * u + b * u
  {
  }

  lemma WithinWindow(x: int, unit: int, n: int, k: int)
    requires unit >= 1 && 0 <= k <= n - 1
    ensures x < (x / unit + 1 + k) * unit <= x + n * unit
  {
    var q, r := x / unit, x % unit;
    assert x == unit * q + r;
    Distribute(q, 1 + k, unit);
    Distribute(1, k, unit);
    Distribute(1 + k, n - 1 - k, unit);
    assert (n - 1 - k) * unit >= 0;
    assert k * unit >= 0;
  }

  /** Every window of `step` units contains a fire, whatever the step. */
  lemma FireInWindow(g: Grid, x: int) returns (t: int)
    requires Sound(g)
    ensures x < t <= x + Spacing(g) && Fires(g, t)
  {
    var n, unit, c := g.step, g.unit, g.cycle;
    var m := x / unit + 1;   // first whole unit after x
    var r := m % c;
    var up := if r % n == 0 then 0 else n - r % n;
    var k := Min(up, if r == 0 then 0 else c - r);
    t := (m + k) * unit;
    QuotientUnique(t, unit, m + k, 0);
    assert m == c * (m / c) + r;
    if r + k == c {
      assert m + k == c * (m / c + 1);
      QuotientUnique(m + k, c, m / c + 1, 0);
      QuotientUnique(0, n, 0, 0);
    } else {
      QuotientUnique(m + k, c, m / c, r + k);
      if r % n != 0 {
        assert r + k == n * (r / n + 1) by { assert r == n * (r / n) + r % n; }
        QuotientUnique(r + k, n, r / n + 1, 0);
      }
    }
    assert k <= n - 1;
    WithinWindow(x, unit, n, k);
  }

  lemma {:induction false} CountSplits(g: Grid, a: int, b: int, c: int)
    requires Sound(g) && a <= b <= c
    ensures CountFires(g, a, c) == CountFires(g, a, b) + CountFires(g, b, c)
    decreases c - b
  {
    if b < c { CountSplits(g, a, b, c - 1); }
  }

  lemma {:induction false} AtLeastOnePerWindow(g: Grid, last: int, now: int, q: nat)
    requires Sound(g) && last + q * Spacing(g) <= now
    ensures CountFires(g, last, now) >= q
    decreases q
  {
    hide Spacing, Fires;
    if q > 0 {
      var d := Spacing(g);
      var mid := last + (q - 1) * d;
      assert mid + d == last + q * d by { assert (q - 1) * d + d == q * d; }
      assert (q - 1) * d >= 0;
      AtLeastOnePerWindow(g, last, mid, q - 1);
      var t := FireInWindow(g, mid);
      CountSplits(g, last, mid, now);
      CountSplits(g, mid, t, now);
      assert CountFires(g, mid, t) == CountFires(g, mid, t - 1) + 1;
    }
  }

  /** For every step the estimate never exceeds the fires already past: contrary to its documentation the heuristic does not over-count. */
  lemma GridNeverOvercounted(g: Grid, last: int, now: int)
    requires Sound(g) && last < now
    ensures MissedWindows(Spacing(g) as real, Some(last), now) <= Max(0, CountFires(g, last, now) - 1)
  {
    hide Spacing, CountFires;
    var d := Spacing(g);
    MissedIsQuotient(d, last, now);
    var q := (now - last) / d;
    assert q * d <= now - last by { assert now - last == d * q + (now - last) % d; }
    assert q >= 0;
    AtLeastOnePerWindow(g, last, now, q);
  }

  // ---------- Expressions and the clock ----------

  function Decimal(n: nat): string {
    (if n < 10 then "" else Decimal(n / 10)) + [('0' as int + n % 10) as char]
  }

  lemma {:induction false} DecimalParses(n: nat)
    ensures |Decimal(n)| >= 1 && AllDigits(Decimal(n)) && ParseDigits(Decimal(n)) == n
    ensures ',' !in Decimal(n) && '/' !in Decimal(n) && Decimal(n) != "*"
  {
    var s := Decimal(n);
    if n >= 10 { DecimalParses(n / 10); }
    var front := if n < 10 then "" else Decimal(n / 10);
    assert s == front + [s[|s| - 1]] && s[..|s| - 1] == front;
  }

  /** Every N minutes of the hour, on the hour every N hours of the day, every minute, or every hour. */
  predicate Denotes(parts: seq<string>, g: Grid) {
    && |parts| >= 5 && parts[2] == "*" && parts[3] == "*" && parts[4] == "*"
    && g.step >= 1
    && ((parts[0] == "*/" + Decimal(g.step) && parts[1] == "*" && g.unit == 60_000 && g.cycle == 60)
       || (parts[0] == "0" && parts[1] == "*/" + Decimal(g.step) && g.unit == 3_600_000 && g.cycle == 24)
       || (parts[0] == "*" && parts[1] == "*" && g == Grid(60_000, 60, 1))
       || (parts[0] == "0" && parts[1] == "*" && g == Grid(3_600_000, 24, 1)))
  }

  lemma FixedFields()
    ensures !IsEvery("*") && !IsEvery("0") && ',' !in "*" && ',' !in "0" && '/' !in "*" && "0" != "*"
  {
    assert "0"[0] != "*"[0];
  }

  lemma EveryField(digits: string)
    requires AllDigits(digits) && digits != ""
    ensures IsEvery("*/" + digits) && ("*/" + digits)[2..] == digits && "*/" + digits != "0" && "*/" + digits != "*"
  {
    assert ("*/" + digits)[2..] == digits && |"*/" + digits| >= 3;
  }

  /** Digits alone are no step expression. */
  lemma PlainField(digits: string)
    requires AllDigits(digits) && digits != ""
    ensures !IsEvery(digits) && digits[0] != '*'
  {
    assert '0' <= digits[0] <= '9';
  }

  lemma IntervalOfGrid(parts: seq<string>, number: string -> Option<real>, g: Grid)
    requires Denotes(parts, g)
    ensures Sound(g) && Interval(parts, number) == Spacing(g) as real
  {
    hide IsEvery, AllDigits, ParseDigits, Decimal, Split, Numbers, Spacing;
    DecimalParses(g.step);
    EveryField(Decimal(g.step));
    FixedFields();
    SpacingProduct(g, 60_000);
    SpacingProduct(g, 3_600_000);
  }

  lemma SpacingProduct(g: Grid, unit: int)
    requires Sound(g)
    ensures g.unit == unit ==> Spacing(g) as real == g.step as real * unit as real
  {
  }

  /** For such an expression whose step divides the hour or the day, the estimate is the number of earlier fires, or one less. */
  lemma StepExpressionNearFires(parts: seq<string>, number: string -> Option<real>, g: Grid, last: int, now: int)
    requires Denotes(parts, g) && g.cycle % g.step == 0 && last < now
    ensures Sound(g)
    ensures var f := CountFires(g, last, now);
            Max(0, f - 2) <= MissedWindows(Interval(parts, number), Some(last), now) <= Max(0, f - 1)
  {
    IntervalOfGrid(parts, number, g);
    MissedNearFires(g, last, now);
  }

  /** And for whatever step it never exceeds them. */
  lemma MissedNeverOvercounts(parts: seq<string>, number: string -> Option<real>, g: Grid, last: int, now: int)
    requires Denotes(parts, g) && last < now
    ensures Sound(g)
    ensures MissedWindows(Interval(parts, number), Some(last), now) <= Max(0, CountFires(g, last, now) - 1)
  {
    IntervalOfGrid(parts, number, g);
    GridNeverOvercounted(g, last, now);
  }

  const DAILY := Grid(86_400_000, 1, 1)

  lemma IntervalOfDay(parts: seq<string>, number: string -> Option<real>, hour: nat)
    requires |parts| >= 5 && parts[0] == "0" && parts[1] == Decimal(hour)
    ensures Interval(parts, number) == 86_400_000.0
  {
    hide IsEvery, AllDigits, ParseDigits, Decimal, Split, Numbers;
    DecimalParses(hour);
    PlainField(Decimal(hour));
    FixedFields();
  }

  /** `0 H * * *` fires at H o'clock every day: on the days, shifted by H hours. */
  lemma DailyExpressionNearFires(parts: seq<string>, number: string -> Option<real>, hour: nat, last: int, now: int)
    requires |parts| >= 5 && parts[0] == "0" && parts[1] == Decimal(hour) && hour < 24 && last < now
    ensures var f := CountFires(DAILY, last - hour * 3_600_000, now - hour * 3_600_000);
            Max(0, f - 2) <= MissedWindows(Interval(parts, number), Some(last), now) <= Max(0, f - 1)
  {
    IntervalOfDay(parts, number, hour);
    hide Interval, Decimal, MissedWindows, CountFires;
    MissedNearFires(DAILY, last - hour * 3_600_000, now - hour * 3_600_000);
    SameElapsed(86_400_000.0, last, now, hour * 3_600_000);
  }

  lemma SameElapsed(interval: real, last: int, now: int, shift: int)
    ensures MissedWindows(interval, Some(last - shift), now - shift) == MissedWindows(interval, Some(last), now)
  {
  }

  // ---------- Comma lists against the clock ----------

  const HOUR_MS := 60 * MINUTE_MS

  /** Minute 0 of every hour. */
  const HOURLY := Grid(MINUTE_MS, 60, 60)

  /** A comma list of minutes with `*` as its hour fires on those minutes of every hour. */
  predicate FiresAt(minutes: seq<int>, t: int) { t % MINUTE_MS == 0 && (t / MINUTE_MS) % 60 in minutes }

  function CountAt(minutes: seq<int>, last: int, now: int): nat
    decreases now - last
  {
    if now <= last then 0 else CountAt(minutes, last, now - 1) + if FiresAt(minutes, now) then 1 else 0
  }

  predicate MinutesOfHour(minutes: seq<int>) {
    && (forall i :: 0 <= i < |minutes| ==> 0 <= minutes[i] < 60)
    && forall i, j :: 0 <= i < j < |minutes| ==> minutes[i] != minutes[j]
  }

  /** One minute of the hour fires on the hours, shifted by itself. */
  lemma MinuteIsShiftedHour(t: int, minute: int)
    requires 0 <= minute < 60
    ensures t % MINUTE_MS == 0 && (t / MINUTE_MS) % 60 == minute <==> Fires(HOURLY, t - minute * MINUTE_MS)
  {
    var q, r := t / MINUTE_MS, t % MINUTE_MS;
    var u := t - minute * MINUTE_MS;
    assert u == MINUTE_MS * (q - minute) + r;
    QuotientUnique(u, MINUTE_MS, q - minute, r);
  }

  lemma {:induction false} MinuteCountsApart(minutes: seq<int>, last: int, now: int)
    requires minutes != [] && MinutesOfHour(minutes)
    ensures var at := minutes[0] * MINUTE_MS;
            CountAt(minutes, last, now) == CountFires(HOURLY, last - at, now - at) + CountAt(minutes[1..], last, now)
    decreases now - last
  {
    if now > last {
      MinuteCountsApart(minutes, last, now - 1);
      MinuteIsShiftedHour(now, minutes[0]);
      assert minutes[0] !in minutes[1..];
    }
  }

  lemma {:induction false} EachMinuteOncePerHour(minutes: seq<int>, last: int, now: int)
    requires MinutesOfHour(minutes) && last <= now
    ensures var h := (now - last) / HOUR_MS;
            |minutes| * h <= CountAt(minutes, last, now) <= |minutes| * (h + 1)
    decreases |minutes|
  {
    hide CountFires;
    var h := (now - last) / HOUR_MS;
    if minutes == [] {
      NoMinutes(last, now);
    } else {
      var n := |minutes| - 1;
      hide CountAt;
      MinuteCountsApart(minutes, last, now);
      EachMinuteOncePerHour(minutes[1..], last, now);
      OneMinuteOncePerHour(minutes[0] * MINUTE_MS, last, now);
      assert (n + 1) * h == n * h + h;
      assert (n + 1) * (h + 1) == n * (h + 1) + h + 1;
    }
  }

  lemma OneMinuteOncePerHour(at: int, last: int, now: int)
    requires last <= now
    ensures var h := (now - last) / HOUR_MS;
            h <= CountFires(HOURLY, last - at, now - at) <= h + 1
  {
    if last < now {
      CountOnGrid(HOURLY, last - at, now - at);
      QuotientDifference(last - at, now - at, HOUR_MS);
    } else {
      QuotientUnique(0, HOUR_MS, 0, 0);
    }
  }

  lemma {:induction false} NoMinutes(last: int, now: int)
    ensures CountAt([], last, now) == 0
    decreases now - last
  {
    if now > last { NoMinutes(last, now - 1); }
  }

  /**
   For a list of k distinct minutes, in any order and however unevenly spaced, the estimate made
   from the average gap stays within k of the fires already past: the error does not grow with time.
   */
  lemma CommaListNearFires(minutes: seq<int>, last: int, now: int)
    requires MinutesOfHour(minutes) && |minutes| >= 2 && last < now
    ensures var k, fires := |minutes|, CountAt(minutes, last, now);
            Max(0, fires - 1 - k) <= MissedWindows(3_600_000.0 / k as real, Some(last), now) <= Max(0, fires - 2 + k)
  {
    var k, e := |minutes|, now - last;
    EachMinuteOncePerHour(minutes, last, now);
    MissedOfList(k, e);
    HourShare(k, e);
  }

  lemma HourShare(k: nat, e: int)
    requires k >= 1 && e >= 0
    ensures var h := e / HOUR_MS; k * h <= (e * k) / HOUR_MS < k * (h + 1)
  {
    var h, r := e / HOUR_MS, e % HOUR_MS;
    assert e * k == HOUR_MS * (k * h) + r * k;
    var q, rest := (r * k) / HOUR_MS, (r * k) % HOUR_MS;
    assert 0 <= r * k < HOUR_MS * k;
    assert 0 <= q < k by {
      assert r * k == HOUR_MS * q + rest;
    }
    assert e * k == HOUR_MS * (k * h + q) + rest;
    QuotientUnique(e * k, HOUR_MS, k * h + q, rest);
  }

  lemma MissedOfList(k: nat, e: int)
    requires k >= 1 && e >= 0
    ensures (e as real / (3_600_000.0 / k as real)).Floor == (e * k) / HOUR_MS
  {
    assert e as real / (3_600_000.0 / k as real) == (e * k) as real / HOUR_MS as real;
    FloorOfQuotient(e * k, HOUR_MS);
  }

  /** The minute field of a comma list. */
  function Joined(minutes: seq<int>): string
    requires minutes != [] && forall i :: 0 <= i < |minutes| ==> minutes[i] >= 0
  {
    if |minutes| == 1 then Decimal(minutes[0]) else Decimal(minutes[0]) + "," + Joined(minutes[1..])
  }

  lemma {:induction false} SplitAtComma(field: string, rest: string)
    requires ',' !in field
    ensures Split(field, ',') == [field]
    ensures Split(field + "," + rest, ',') == [field] + Split(rest, ',')
  {
    if field == "" {
      assert "" + "," + rest == "," + rest && ("," + rest)[1..] == rest;
    } else {
      var tail := field[1..];
      assert forall c :: c in tail ==> c in field;
      SplitAtComma(tail, rest);
      var whole := field + "," + rest;
      assert whole[0] == field[0] && whole[1..] == tail + "," + rest;
      assert [field[0]] + tail == field;
    }
  }

  lemma {:induction false} NumbersOfJoined(minutes: seq<int>, number: string -> Option<real>)
    requires minutes != [] && MinutesOfHour(minutes)
    requires forall i :: 0 <= i < |minutes| ==> number(Decimal(minutes[i])).Some?
    ensures |Numbers(Split(Joined(minutes), ','), number)| == |minutes|
    ensures |minutes| >= 2 ==> ',' in Joined(minutes)
    ensures Joined(minutes) != "" && Joined(minutes)[0] != '*'
  {
    var first := Decimal(minutes[0]);
    DecimalParses(minutes[0]);
    assert first[0] != '*' by { assert AllDigits(first); }
    if |minutes| == 1 {
      SplitAtComma(first, "");
      assert Numbers([first][1..], number) == [];
    } else {
      NumbersOfJoined(minutes[1..], number);
      SplitAtComma(first, Joined(minutes[1..]));
      var parts := Split(Joined(minutes), ',');
      assert parts[0] == first && parts[1..] == Split(Joined(minutes[1..]), ',');
      assert Joined(minutes)[|first|] == ',';
    }
  }

  /** So for the expression of such a list, whatever number each minute is read as. */
  lemma ListExpressionNearFires(parts: seq<string>, number: string -> Option<real>, minutes: seq<int>, last: int, now: int)
    requires MinutesOfHour(minutes) && |minutes| >= 2 && |parts| >= 5 && parts[0] == Joined(minutes) && last < now
    requires forall i :: 0 <= i < |minutes| ==> number(Decimal(minutes[i])).Some?
    ensures var k, fires := |minutes|, CountAt(minutes, last, now);
            Max(0, fires - 1 - k) <= MissedWindows(Interval(parts, number), Some(last), now) <= Max(0, fires - 2 + k)
  {
    NumbersOfJoined(minutes, number);
    assert ',' !in "0";
    CommaListNearFires(minutes, last, now);
    hide MissedWindows, CountAt, Split, Numbers;
  }

  // ---------- Catch-up ----------

  /** `missedAt` of the jobs `handleMissedRuns` publishes, in publishing order. */
  method HandleMissedRuns(interval: real, maxStaleness: Option<int>, lastCompleted: Option<int>, now: int)
    returns (published: seq<real>)
    requires interval >= 0.0
    ensures |published| == if lastCompleted.None? then 0
                           else Min(MissedWindows(interval, lastCompleted, now), 50)
    ensures interval == 0.0 && published != [] ==> published == [now as real]
    ensures interval > 0.0 ==> CatchUp(published, interval, lastCompleted, now)
  {
    published := [];
    if lastCompleted.None? {
      return;
    }
    var elapsed := now - lastCompleted.value;
    var staleness := if maxStaleness.Some? then maxStaleness.value else DEFAULT_STALENESS_MS;
    var missed := MissedWindows(interval, lastCompleted, now);
    if missed <= 0 && elapsed < staleness {
      return;
    }
    var missedCount := Min(missed, CATCHUP_BATCH_LIMIT);
    var intervalMs := if interval == 0.0 then 60_000.0 else interval;
    var i := missedCount;
    while i > 0
      invariant 0 <= i <= missedCount && |published| == missedCount - i
      invariant forall k :: 0 <= k < |published| ==> published[k] == now as real - (missedCount - 1 - k) as real * intervalMs
    {
      published := published + [now as real - (i - 1) as real * intervalMs];
      i := i - 1;
    }
    if interval > 0.0 {
      CatchUpHolds(published, interval, lastCompleted.value, now);
    }
  }

  /** Increasing, one interval apart, ending now, and starting at least two intervals after the last completion. */
  predicate CatchUp(published: seq<real>, interval: real, lastCompleted: Option<int>, now: int) {
    && (forall k :: 0 <= k < |published| - 1 ==> published[k + 1] == published[k] + interval)
    && (published != [] ==> published[|published| - 1] == now as real)
    && (forall k :: 0 <= k < |published| ==>
          lastCompleted.Some? && lastCompleted.value as real + 2.0 * interval <= published[k])
  }

  lemma BackBound(q: real, interval: real, back: real, last: real, now: real)
    requires interval > 0.0 && q * interval <= now - last && back <= q - 2.0
    ensures last + 2.0 * interval <= now - back * interval
  {
    var slack := q - 2.0 - back;
    assert slack * interval >= 0.0;
    assert q * interval == back * interval + slack * interval + 2.0 * interval;
  }

  lemma CatchUpHolds(published: seq<real>, interval: real, last: int, now: int)
    requires interval > 0.0
    requires |published| <= MissedWindows(interval, Some(last), now)
    requires forall k :: 0 <= k < |published| ==> published[k] == now as real - (|published| - 1 - k) as real * interval
    ensures CatchUp(published, interval, Some(last), now)
  {
    if published != [] {
      var elapsed := (now - last) as real;
      var q := (elapsed / interval).Floor;
      assert elapsed == now as real - last as real;
      assert |published| <= q - 1;
      assert q as real * interval <= elapsed by {
        assert q as real <= elapsed / interval;
        assert q as real * interval <= elapsed / interval * interval;
      }
      forall k | 0 <= k < |published| ensures last as real + 2.0 * interval <= published[k] {
        var back := (|published| - 1 - k) as real;
        assert back <= q as real - 2.0;
        BackBound(q as real, interval, back, last as real, now as real);
      }
      forall k | 0 <= k < |published| - 1 ensures published[k + 1] == published[k] + interval {
        assert (|published| - 1 - k) as real == (|published| - 1 - (k + 1)) as real + 1.0;
      }
    }
  }
}
