/**
 Spending, resets and the carry, told from the fields of a budget and of the transactions.
 */
module BudgetFacts {
  import opened Records
  import opened Numbers
  import opened Calendar
  import opened BudgetCycles
  import opened BudgetCarry

  // ---- what counts as spent ----

  /** Transactions add up. */
  lemma {:induction false} TxsAddUp(a: seq<TxView>, b: seq<TxView>, family: set<string>, p: Period)
    ensures Spent(a + b, family, p) == Spent(a, family, p) + Spent(b, family, p)
  {
    if b == [] {
      assert a + b == a;
    } else {
      assert (a + b)[..|a + b| - 1] == a + b[..|b| - 1];
      TxsAddUp(a, b[..|b| - 1], family, p);
    }
  }

  lemma {:induction false} SlicesConcat(a: seq<Slice>, b: seq<Slice>, family: set<string>)
    ensures SlicesSpent(a + b, family) == SlicesSpent(a, family) + SlicesSpent(b, family)
  {
    if b == [] {
      assert a + b == a;
    } else {
      assert (a + b)[..|a + b| - 1] == a + b[..|b| - 1];
      SlicesConcat(a, b[..|b| - 1], family);
    }
  }

  lemma OneTx(tx: TxView, family: set<string>, p: Period)
    ensures Spent([tx], family, p) == TxSpent(tx, family, p)
  {
    assert [tx][..0] == [];
  }

  /** The slices of one transaction add up. */
  lemma SlicesAddUp(tx: TxView, a: seq<Slice>, b: seq<Slice>, family: set<string>, p: Period)
    ensures Spent([tx.(slices := a + b)], family, p) ==
            Spent([tx.(slices := a)], family, p) + Spent([tx.(slices := b)], family, p)
  {
    SlicesConcat(a, b, family);
    OneTx(tx.(slices := a + b), family, p);
    OneTx(tx.(slices := a), family, p);
    OneTx(tx.(slices := b), family, p);
  }

  /** One slice: an expense of the family counts, in a live transaction of the period, a whole row by
      minus its signed amount (a refund lowers the total), a part by its magnitude; nothing else counts. */
  lemma OneSliceSpends(day: int, deleted: bool, s: Slice, family: set<string>, p: Period)
    ensures Spent([TxView(day, deleted, [s])], family, p) ==
      if deleted || day < p.first || day > p.last || !s.expense || s.catId !in family then 0
      else if !s.fromParts then -s.amountCents
      else if s.amountCents < 0 then -s.amountCents
      else s.amountCents
  {
    OneTx(TxView(day, deleted, [s]), family, p);
    assert SlicesSpent([s], family) == SlicesSpent([s][..0], family) + SliceSpent(s, family);
  }

  // ---- resets ----

  // the day of the month a budget resets on: its own, or the day it started on
  function MonthDay(b: Budget): int { if b.resetDay.None? then b.anchor.day else b.resetDay.value }

  predicate FallsOn(d: Day, day: int) { d.day == Min(day, MonthLength(d.month)) }

  lemma MonthResets(d: Day, e: Day, day: int)
    requires Valid(d) && Valid(e) && day >= 1 && e == MonthResetOnOrAfter(d, day)
    ensures FallsOn(e, day)
    ensures forall c :: Valid(c) && Ordinal(d) <= Ordinal(c) < Ordinal(e) ==> !FallsOn(c, day)
  {
    forall c | Valid(c) && Ordinal(d) <= Ordinal(c) < Ordinal(e) ensures !FallsOn(c, day) {
      OrdinalKeepsOrder(c, e);
      OrdinalKeepsOrder(c, d);
      OrdinalKeepsOrder(DayOfMonth(d.month, day), d);
    }
  }

  lemma NextMonthReset(before: Day, start: Day, month: int, day: int)
    requires day >= 1 && before == DayOfMonth(month, day) && start == DayOfMonth(month + 1, day)
    ensures Valid(before) && Valid(start) && start.month == before.month + 1 && FallsOn(start, day)
    ensures forall c :: Valid(c) && Ordinal(before) < Ordinal(c) < Ordinal(start) ==> !FallsOn(c, day)
  {
    forall c | Valid(c) && Ordinal(before) < Ordinal(c) < Ordinal(start) ensures !FallsOn(c, day) {
      OrdinalKeepsOrder(before, c);
      OrdinalKeepsOrder(c, start);
    }
  }

  /** A monthly budget first resets on the first reset day after its start date. */
  lemma FirstMonthly(b: Budget, sundayStart: bool)
    requires Sound(b) && b.every.Month?
    ensures var first := FirstReset(b, sundayStart);
      && Valid(first) && Ordinal(b.anchor) < Ordinal(first) && FallsOn(first, MonthDay(b))
      && forall c :: Valid(c) && Ordinal(b.anchor) < Ordinal(c) < Ordinal(first) ==> !FallsOn(c, MonthDay(b))
  {
    MonthResets(ShiftDays(b.anchor, 1), FirstReset(b, sundayStart), MonthDay(b));
  }

  /** After a reset it resets again on the next reset day, a month on, clamped into short months. */
  lemma NextMonthly(b: Budget, start: Day)
    requires Sound(b) && b.every.Month? && Valid(start) && Ordinal(start) >= 1 && FallsOn(start, MonthDay(b))
    ensures var next := NextReset(b, start);
      && Valid(next) && next.month == start.month + 1 && FallsOn(next, MonthDay(b))
      && forall c :: Valid(c) && Ordinal(start) < Ordinal(c) < Ordinal(next) ==> !FallsOn(c, MonthDay(b))
  {
    NextMonthReset(start, NextReset(b, start), start.month, MonthDay(b));
  }

  /** A weekly or two-weekly budget always resets on the first day of the week; first on the next one after
      its start date, a full cycle later if it started on one, and then every 7 or 14 days. */
  lemma WeeklyResets(b: Budget, sundayStart: bool, k: nat)
    requires Sound(b) && !b.every.Month? && k >= 1
    ensures var n, before := Ordinal(Start(b, sundayStart, k)), Ordinal(Start(b, sundayStart, k - 1));
      var first, days := if sundayStart then 0 else 1, if b.every.Week? then 7 else 14;
      && n % 7 == first
      && (if k > 1 || before % 7 == first then n == before + days else before < n < before + 7)
  {
    WeeklyResetsAreAligned(b, sundayStart, k);
    if k > 1 { WeeklyStep(b, sundayStart, k - 1); } else { FirstWeekly(b, sundayStart); }
  }

  lemma WeekdaysDiffer(m: int, n: int)
    requires 0 < n - m < 7
    ensures m % 7 != n % 7
  {
    assert n - m == 7 * (n / 7 - m / 7) + (n % 7 - m % 7);
  }

  lemma FirstWeekly(b: Budget, sundayStart: bool)
    requires Sound(b) && !b.every.Month?
    ensures var n, anchor := Ordinal(FirstReset(b, sundayStart)), Ordinal(b.anchor);
      if anchor % 7 == (if sundayStart then 0 else 1) then n == anchor + (if b.every.Week? then 7 else 14)
      else anchor < n < anchor + 7
  {
    var aligned := WeekStartOnOrAfter(b.anchor, sundayStart);
    if Ordinal(aligned) != Ordinal(b.anchor) {
      WeekdaysDiffer(Ordinal(b.anchor), Ordinal(aligned));
    }
  }

  // ---- the carry ----

  /** What is rolled over: nothing without a carry or in the first cycle; otherwise the replay of the last
      so many cycles (one if none is named), or of the last 260 up to the cap. */
  lemma CarryWindow(b: Budget, spent: nat -> int, current: nat)
    ensures var back: nat :=
        if b.carryMode != Some(Periods) then 260
        else if b.carryPeriods.None? || b.carryPeriods.value < 1 then 1 else b.carryPeriods.value;
      var cap := if b.carryMode != Some(Cap) then None
                 else if b.carryCapCents.None? || b.carryCapCents.value < 0 then Some(0)
                 else Some(b.carryCapCents.value);
      Carried(b, spent, current) ==
        if !b.carryOver || current == 0 then 0
        else Replay(b.amountCents, cap, spent, if current > back then current - back else 0, current)
  {
  }
}
