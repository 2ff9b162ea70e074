/**
 Budget cycles: cycle 0 opens on the start date and runs to the first reset after it, every later
 cycle is a full one. Iterated resets tile time, whatever the month lengths.
 */
module BudgetCycles {
  import opened Records
  import opened Calendar

  datatype Every = Week | TwoWeeks | Month
  datatype CarryMode = Periods | Cap

  datatype Budget = Budget(
    anchor: Day, every: Every, resetDay: Option<int>, amountCents: int,
    carryOver: bool, carryMode: Option<CarryMode>, carryPeriods: Option<int>, carryCapCents: Option<int>)

  // a date of our era, and a reset day of the month
  predicate Sound(b: Budget) {
    Valid(b.anchor) && Ordinal(b.anchor) >= 1 && (b.resetDay.Some? ==> b.resetDay.value >= 1)
  }

  const MAX_CYCLES := 2000

  function ResetDay(b: Budget): (r: int)
    requires Sound(b)
    ensures r >= 1
  {
    if b.resetDay.Some? then b.resetDay.value else b.anchor.day
  }

  function Length(b: Budget): int { if b.every.Week? then 7 else 14 }

  function WeekTarget(sundayStart: bool): int { if sundayStart then 0 else 1 }

  // `n` days after a Sunday, the next day that is `target` days after one
  function DaysUntil(n: int, target: int): (gap: int)
    requires 0 <= target < 7
    ensures 0 <= gap < 7 && (n + gap) % 7 == target
  {
    var gap := (target - n % 7 + 7) % 7;
    assert gap == target - n % 7 || gap == target - n % 7 + 7;
    gap
  }

  function WeekStartOnOrAfter(d: Day, sundayStart: bool): (e: Day)
    requires Ordinal(d) >= 1
    ensures Valid(e) && Ordinal(d) <= Ordinal(e) < Ordinal(d) + 7 && Weekday(e) == WeekTarget(sundayStart)
  {
    ShiftDays(d, DaysUntil(Ordinal(d), WeekTarget(sundayStart)))
  }

  function MonthResetOnOrAfter(d: Day, day: int): (e: Day)
    requires Valid(d) && day >= 1
    ensures Valid(e) && Ordinal(d) <= Ordinal(e) && d.month <= e.month <= d.month + 1 && e == DayOfMonth(e.month, day)
  {
    var inMonth := DayOfMonth(d.month, day);
    OrdinalKeepsOrder(inMonth, d);
    OrdinalKeepsOrder(d, DayOfMonth(d.month + 1, day));
    if Ordinal(inMonth) >= Ordinal(d) then inMonth else DayOfMonth(d.month + 1, day)
  }

  function FirstReset(b: Budget, sundayStart: bool): (e: Day)
    requires Sound(b)
    ensures Valid(e) && Ordinal(e) > Ordinal(b.anchor)
  {
    if b.every.Month? then MonthResetOnOrAfter(ShiftDays(b.anchor, 1), ResetDay(b))
    else
      var aligned := WeekStartOnOrAfter(b.anchor, sundayStart);
      if Ordinal(aligned) == Ordinal(b.anchor) then ShiftDays(b.anchor, Length(b)) else aligned
  }

  function NextReset(b: Budget, start: Day): (e: Day)
    requires Sound(b) && Valid(start) && Ordinal(start) >= 1
    ensures Valid(e) && Ordinal(e) > Ordinal(start)
  {
    if b.every.Month? then
      OrdinalKeepsOrder(start, DayOfMonth(start.month + 1, ResetDay(b)));
      DayOfMonth(start.month + 1, ResetDay(b))
    else ShiftDays(start, Length(b))
  }

  // the start of cycle `k`, reset after reset
  function Start(b: Budget, sundayStart: bool, k: nat): (d: Day)
    requires Sound(b)
    ensures Valid(d) && Ordinal(d) >= Ordinal(b.anchor) + k
  {
    if k == 0 then b.anchor
    else if k == 1 then FirstReset(b, sundayStart)
    else NextReset(b, Start(b, sundayStart, k - 1))
  }

  method CycleStart(b: Budget, index: int, sundayStart: bool) returns (start: Day)
    requires Sound(b)
    ensures start == Start(b, sundayStart, if index <= 0 then 0 else index)
  {
    if index <= 0 {
      return b.anchor;
    }
    start := FirstReset(b, sundayStart);
    for i := 1 to index
      invariant start == Start(b, sundayStart, i)
    {
      start := NextReset(b, start);
    }
  }

  // first and last day of a cycle, as ordinals
  datatype Period = Period(first: int, last: int)

  predicate In(n: int, p: Period) { p.first <= n <= p.last }

  // the ordinals of the cycle starts
  function Starts(b: Budget, sundayStart: bool): nat -> int
    requires Sound(b)
  {
    (k: nat) => Ordinal(Start(b, sundayStart, k))
  }

  function Cycle(starts: nat -> int, k: nat): Period { Period(starts(k), starts(k + 1) - 1) }

  // the same, told day by day
  ghost predicate StartsOf(b: Budget, sundayStart: bool, starts: nat -> int) {
    Sound(b) &&
    forall k: nat {:trigger Start(b, sundayStart, k)} :: starts(k) == Ordinal(Start(b, sundayStart, k))
  }

  method StartOrdinal(b: Budget, index: nat, sundayStart: bool, ghost starts: nat -> int) returns (n: int)
    requires StartsOf(b, sundayStart, starts)
    ensures n == starts(index)
  {
    var start := CycleStart(b, index, sundayStart);
    n := Ordinal(start);
  }

  method PeriodOf(b: Budget, index: nat, sundayStart: bool, ghost starts: nat -> int) returns (p: Period)
    requires StartsOf(b, sundayStart, starts)
    ensures p == Cycle(starts, index)
  {
    var first := StartOrdinal(b, index, sundayStart, starts);
    var next := StartOrdinal(b, index + 1, sundayStart, starts);
    p := Period(first, next - 1);
  }

  method BudgetPeriodAt(b: Budget, index: int, sundayStart: bool) returns (p: Period)
    requires Sound(b)
    ensures p == Cycle(Starts(b, sundayStart), if index <= 0 then 0 else index)
  {
    var i: nat := if index <= 0 then 0 else index;
    p := PeriodOf(b, i, sundayStart, Starts(b, sundayStart));
  }

  // ---- tiling ----

  ghost predicate Increasing(starts: nat -> int) { forall i: nat, j: nat :: i < j ==> starts(i) < starts(j) }

  /** Each cycle starts after the one before, whatever the month lengths. */
  lemma StartsIncrease(b: Budget, sundayStart: bool)
    requires Sound(b)
    ensures Increasing(Starts(b, sundayStart))
  {
    var starts := Starts(b, sundayStart);
    forall k: nat ensures Steps(starts, k) {
      StartBeforeNext(b, sundayStart, k);
    }
    forall i: nat, j: nat | i < j ensures starts(i) < starts(j) {
      StepByStep(starts, i, j);
    }
  }

  ghost predicate Steps(starts: nat -> int, k: nat) { starts(k) < starts(k + 1) }

  lemma {:induction false} StepByStep(starts: nat -> int, i: nat, j: nat)
    requires i < j && (forall k: nat :: Steps(starts, k))
    ensures starts(i) < starts(j)
  {
    assert Steps(starts, j - 1);
    if i + 1 < j {
      StepByStep(starts, i, j - 1);
    }
  }

  lemma StartBeforeNext(b: Budget, sundayStart: bool, k: nat)
    requires Sound(b)
    ensures Ordinal(Start(b, sundayStart, k)) < Ordinal(Start(b, sundayStart, k + 1))
  {
  }

  lemma {:induction false} NotAfter(starts: nat -> int, i: nat, j: nat)
    requires Increasing(starts) && i <= j
    ensures starts(i) + (j - i) <= starts(j)
    decreases j - i
  {
    if i < j { NotAfter(starts, i, j - 1); }
  }

  // the cycle a day falls in: the last one that has started
  lemma CycleFrom(starts: nat -> int, n: int, k: nat) returns (r: nat)
    requires Increasing(starts) && starts(k) <= n
    ensures r >= k && In(n, Cycle(starts, r))
    decreases n - starts(k)
  {
    if n < starts(k + 1) { r := k; } else { r := CycleFrom(starts, n, k + 1); }
  }

  lemma LaterCycle(starts: nat -> int, n: int, i: nat, j: nat)
    requires Increasing(starts) && i < j && starts(j) <= n
    ensures starts(i + 1) <= n
  {
    NotAfter(starts, i + 1, j);
  }

  lemma OneCycle(starts: nat -> int, n: int, i: nat, j: nat)
    requires Increasing(starts) && In(n, Cycle(starts, i)) && In(n, Cycle(starts, j))
    ensures i == j
  {
    if i < j { LaterCycle(starts, n, i, j); }
    if j < i { LaterCycle(starts, n, j, i); }
  }

  /** From the start date on every day lies in exactly one cycle; no cycle is empty, and each ends
      the day before the next one starts. */
  lemma CyclesTileTime(b: Budget, sundayStart: bool, n: int)
    requires Sound(b) && n >= Ordinal(b.anchor)
    ensures var starts := Starts(b, sundayStart);
      && starts(0) == Ordinal(b.anchor)
      && (exists k: nat :: In(n, Cycle(starts, k)))
      && (forall i: nat, j: nat :: In(n, Cycle(starts, i)) && In(n, Cycle(starts, j)) ==> i == j)
      && (forall k: nat :: Cycle(starts, k).first <= Cycle(starts, k).last)
      && (forall k: nat :: Cycle(starts, k).last + 1 == Cycle(starts, k + 1).first)
  {
    var starts := Starts(b, sundayStart);
    StartsIncrease(b, sundayStart);
    var k := CycleFrom(starts, n, 0);
    forall i: nat, j: nat | In(n, Cycle(starts, i)) && In(n, Cycle(starts, j)) ensures i == j {
      OneCycle(starts, n, i, j);
    }
  }

  // ---- closed forms ----

  predicate OnResetDay(b: Budget, month: int, d: Day)
    requires Sound(b)
  {
    d == DayOfMonth(month, ResetDay(b))
  }

  lemma NextStart(b: Budget, sundayStart: bool, k: nat)
    requires Sound(b) && k > 1
    ensures var start := Start(b, sundayStart, k - 1);
      Valid(start) && Ordinal(start) >= 1 && Start(b, sundayStart, k) == NextReset(b, start)
  {
  }

  lemma NextMonthly(b: Budget, month: int, start: Day)
    requires Sound(b) && b.every.Month? && Valid(start) && Ordinal(start) >= 1 && OnResetDay(b, month, start)
    ensures OnResetDay(b, month + 1, NextReset(b, start))
  {
  }

  lemma {:induction false} ResetMonth(b: Budget, sundayStart: bool, k: nat) returns (month: int)
    requires Sound(b) && b.every.Month? && k >= 1
    ensures month == FirstReset(b, sundayStart).month + (k - 1) && OnResetDay(b, month, Start(b, sundayStart, k))
  {
    if k > 1 {
      month := ResetMonth(b, sundayStart, k - 1);
      NextStart(b, sundayStart, k);
      NextMonthly(b, month, Start(b, sundayStart, k - 1));
      month := month + 1;
    } else {
      month := FirstReset(b, sundayStart).month;
    }
  }

  /** Monthly resets never drift: cycle k starts on the reset day clamped into the (k-1)-th month
      after the first reset's, however short the months between were. */
  lemma MonthlyResetsAreClamped(b: Budget, sundayStart: bool, k: nat)
    requires Sound(b) && b.every.Month? && k >= 1
    ensures Start(b, sundayStart, k) == DayOfMonth(FirstReset(b, sundayStart).month + (k - 1), ResetDay(b))
  {
    var month := ResetMonth(b, sundayStart, k);
  }

  lemma FirstWeeklyReset(b: Budget, sundayStart: bool)
    requires Sound(b) && !b.every.Month?
    ensures Weekday(FirstReset(b, sundayStart)) == WeekTarget(sundayStart)
  {
    var aligned := WeekStartOnOrAfter(b.anchor, sundayStart);
    if Ordinal(aligned) == Ordinal(b.anchor) {
      WeekdayAfter(b.anchor, FirstReset(b, sundayStart), Length(b));
    }
  }

  lemma WeeklyStep(b: Budget, sundayStart: bool, k: nat)
    requires Sound(b) && !b.every.Month? && k >= 1
    ensures Ordinal(Start(b, sundayStart, k + 1)) == Ordinal(Start(b, sundayStart, k)) + Length(b)
    ensures Weekday(Start(b, sundayStart, k + 1)) == Weekday(Start(b, sundayStart, k))
  {
    WeekdayAfter(Start(b, sundayStart, k), Start(b, sundayStart, k + 1), Length(b));
  }

  /** Weekly cycles after the first start on the week's first day and last their full length. */
  lemma {:induction false} WeeklyResetsAreAligned(b: Budget, sundayStart: bool, k: nat)
    requires Sound(b) && !b.every.Month? && k >= 1
    ensures Ordinal(Start(b, sundayStart, k)) == Ordinal(FirstReset(b, sundayStart)) + (k - 1) * Length(b)
    ensures Weekday(Start(b, sundayStart, k)) == WeekTarget(sundayStart)
    ensures Ordinal(Start(b, sundayStart, k + 1)) == Ordinal(Start(b, sundayStart, k)) + Length(b)
  {
    WeeklyStep(b, sundayStart, k);
    if k > 1 {
      WeeklyResetsAreAligned(b, sundayStart, k - 1);
      WeeklyStep(b, sundayStart, k - 1);
    } else {
      FirstWeeklyReset(b, sundayStart);
    }
  }

  lemma WeekdayAfter(d: Day, e: Day, length: int)
    requires Ordinal(e) == Ordinal(d) + length && (length == 7 || length == 14)
    ensures Weekday(e) == Weekday(d)
  {
    var n := Ordinal(d);
    assert (n + length) % 7 == n % 7;
  }

  // ---- the index of a day ----

  // what the index of day `n` is: none before the start, then the day's own cycle, up to the bound
  ghost predicate IsIndex(starts: nat -> int, n: int, index: nat) {
    && (n < starts(0) ==> index == 0)
    && (forall k: nat :: k < MAX_CYCLES && In(n, Cycle(starts, k)) ==> index == k)
    && (n >= starts(MAX_CYCLES) ==> index == MAX_CYCLES)
    && (n >= starts(0) && index < MAX_CYCLES ==> In(n, Cycle(starts, index)))
    && index <= MAX_CYCLES
  }

  lemma OneIndex(starts: nat -> int, n: int, i: nat, j: nat)
    requires IsIndex(starts, n, i) && IsIndex(starts, n, j)
    ensures i == j
  {
  }

  lemma IndexBeforeStart(starts: nat -> int, n: int)
    requires Increasing(starts) && n < starts(0)
    ensures IsIndex(starts, n, 0)
  {
    forall k: nat ensures starts(0) <= starts(k) { NotAfter(starts, 0, k); }
  }

  lemma IndexFound(starts: nat -> int, n: int, index: nat)
    requires Increasing(starts) && index < MAX_CYCLES && starts(index) <= n < starts(index + 1)
    ensures IsIndex(starts, n, index)
  {
    NotAfter(starts, 0, index);
    NotAfter(starts, index + 1, MAX_CYCLES);
    forall k: nat | In(n, Cycle(starts, k)) ensures index == k { OneCycle(starts, n, index, k); }
  }

  lemma IndexBeyond(starts: nat -> int, n: int)
    requires Increasing(starts) && starts(MAX_CYCLES) <= n
    ensures IsIndex(starts, n, MAX_CYCLES)
  {
    NotAfter(starts, 0, MAX_CYCLES);
    forall k: nat | k < MAX_CYCLES && In(n, Cycle(starts, k)) ensures false { NotAfter(starts, k + 1, MAX_CYCLES); }
  }

  // `now` is the ordinal of the day asked about
  method CycleIndex(b: Budget, now: int, sundayStart: bool) returns (index: nat)
    requires Sound(b)
    ensures IsIndex(Starts(b, sundayStart), now, index)
  {
    StartsIncrease(b, sundayStart);
    index := IndexOf(b, now, sundayStart, Starts(b, sundayStart));
  }

  method IndexOf(b: Budget, now: int, sundayStart: bool, ghost starts: nat -> int) returns (index: nat)
    requires StartsOf(b, sundayStart, starts) && Increasing(starts)
    ensures IsIndex(starts, now, index)
  {
    var anchor := StartOrdinal(b, 0, sundayStart, starts);
    if now < anchor {
      IndexBeforeStart(starts, now);
      return 0;
    }
    index := 0;
    while index < MAX_CYCLES
      invariant 0 <= index <= MAX_CYCLES && starts(index) <= now
    {
      var next := StartOrdinal(b, index + 1, sundayStart, starts);
      if now < next {
        IndexFound(starts, now, index);
        return;
      }
      index := index + 1;
    }
    IndexBeyond(starts, now);
  }
}
