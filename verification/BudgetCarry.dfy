/**
 What a budget spent in a period, and the unused money rolled into the current cycle by replaying
 history: a bounded replay that may only under-report the unbounded one.
 */
module BudgetCarry {
  import opened Numbers
  import opened Records
  import opened BudgetCycles

  // one slice of a transaction: a part counts as a magnitude, a whole row with its sign
  datatype Slice = Slice(expense: bool, catId: string, fromParts: bool, amountCents: int)

  datatype TxView = TxView(day: int, deleted: bool, slices: seq<Slice>)

  // ---- spending ----

  function SliceSpent(s: Slice, family: set<string>): int {
    if s.expense && s.catId in family then (if s.fromParts then Abs(s.amountCents) else -s.amountCents) else 0
  }

  function SlicesSpent(slices: seq<Slice>, family: set<string>): int {
    if slices == [] then 0
    else SlicesSpent(slices[..|slices| - 1], family) + SliceSpent(slices[|slices| - 1], family)
  }

  function TxSpent(tx: TxView, family: set<string>, p: Period): int {
    if tx.deleted || !In(tx.day, p) then 0 else SlicesSpent(tx.slices, family)
  }

  function Spent(txs: seq<TxView>, family: set<string>, p: Period): int {
    if txs == [] then 0
    else Spent(txs[..|txs| - 1], family, p) + TxSpent(txs[|txs| - 1], family, p)
  }

  method BudgetSpentCents(txs: seq<TxView>, family: set<string>, p: Period) returns (total: int)
    ensures total == Spent(txs, family, p)
  {
    total := 0;
    for i := 0 to |txs|
      invariant total == Spent(txs[..i], family, p)
    {
      var tx := txs[i];
      assert txs[..i + 1][..i] == txs[..i];
      if !tx.deleted && !(tx.day < p.first || tx.day > p.last) {
        ghost var before := total;
        for k := 0 to |tx.slices|
          invariant total == before + SlicesSpent(tx.slices[..k], family)
        {
          var view := tx.slices[k];
          assert tx.slices[..k + 1][..k] == tx.slices[..k];
          if view.expense && view.catId in family {
            total := total + if view.fromParts then Abs(view.amountCents) else -view.amountCents;
          }
        }
        assert tx.slices[..|tx.slices|] == tx.slices;
      }
    }
    assert txs[..|txs|] == txs;
  }

  /** Adjoining periods add up. */
  lemma {:induction false} SpentAddsUp(txs: seq<TxView>, family: set<string>, first: int, middle: int, last: int)
    requires first <= middle + 1 && middle <= last
    ensures Spent(txs, family, Period(first, last))
         == Spent(txs, family, Period(first, middle)) + Spent(txs, family, Period(middle + 1, last))
  {
    if txs != [] {
      SpentAddsUp(txs[..|txs| - 1], family, first, middle, last);
    }
  }

  function SpentOverCycles(txs: seq<TxView>, family: set<string>, starts: nat -> int, n: nat): int {
    if n == 0 then 0 else SpentOverCycles(txs, family, starts, n - 1) + Spent(txs, family, Cycle(starts, n - 1))
  }

  lemma {:induction false} AnyCyclesAddUp(txs: seq<TxView>, family: set<string>, starts: nat -> int, n: nat)
    requires Increasing(starts)
    ensures SpentOverCycles(txs, family, starts, n) == Spent(txs, family, Period(starts(0), starts(n) - 1))
  {
    if n == 0 {
      NothingSpent(txs, family, Period(starts(0), starts(0) - 1));
    } else {
      AnyCyclesAddUp(txs, family, starts, n - 1);
      NotAfter(starts, 0, n - 1);
      SpentAddsUp(txs, family, starts(0), starts(n - 1) - 1, starts(n) - 1);
    }
  }

  /** The first n cycles of a budget together spend what the whole span from its start date to the
      end of the last of them spends. */
  lemma CyclesAddUp(txs: seq<TxView>, family: set<string>, b: Budget, sundayStart: bool, starts: nat -> int, n: nat)
    requires Sound(b) && starts == Starts(b, sundayStart)
    ensures SpentOverCycles(txs, family, starts, n) == Spent(txs, family, Period(starts(0), starts(n) - 1))
  {
    StartsIncrease(b, sundayStart);
    AnyCyclesAddUp(txs, family, starts, n);
  }

  lemma {:induction false} NothingSpent(txs: seq<TxView>, family: set<string>, p: Period)
    requires p.last < p.first
    ensures Spent(txs, family, p) == 0
  {
    if txs != [] { NothingSpent(txs[..|txs| - 1], family, p); }
  }

  lemma {:induction false} SpentWithout(txs: seq<TxView>, family: set<string>, p: Period, i: int)
    requires 0 <= i < |txs|
    ensures Spent(txs, family, p) == Spent(txs[..i] + txs[i + 1..], family, p) + TxSpent(txs[i], family, p)
  {
    var n := |txs| - 1;
    var rest := txs[..i] + txs[i + 1..];
    if i == n {
      assert rest == txs[..n];
    } else {
      SpentWithout(txs[..n], family, p, i);
      assert rest[..|rest| - 1] == txs[..n][..i] + txs[..n][i + 1..];
      assert rest[|rest| - 1] == txs[n];
    }
  }

  lemma RemoveAt(txs: seq<TxView>, i: int)
    requires 0 <= i < |txs|
    ensures multiset(txs[..i] + txs[i + 1..]) == multiset(txs) - multiset{txs[i]}
  {
    assert txs == txs[..i] + [txs[i]] + txs[i + 1..];
  }

  /** The order of the transactions does not matter. */
  lemma {:induction false} SpentIsOrderFree(a: seq<TxView>, b: seq<TxView>, family: set<string>, p: Period)
    requires multiset(a) == multiset(b)
    ensures Spent(a, family, p) == Spent(b, family, p)
    decreases |a|
  {
    assert |a| == |multiset(a)| && |b| == |multiset(b)|;
    if a != [] {
      var n := |a| - 1;
      assert a[n] in multiset(a);
      var i :| 0 <= i < |b| && b[i] == a[n];
      RemoveAt(a, n);
      RemoveAt(b, i);
      assert a[..n] + a[n + 1..] == a[..n];
      SpentIsOrderFree(a[..n], b[..i] + b[i + 1..], family, p);
      SpentWithout(b, family, p, i);
    }
  }

  // ---- the replay ----

  // without a cap there is no ceiling
  function Clamp(leftover: int, cap: Option<nat>): int {
    var floor := Max(leftover, 0);
    if cap.Some? then Min(floor, cap.value) else floor
  }

  // money carried into cycle `until` when the replay starts empty at cycle `from`
  function Replay(amount: int, cap: Option<nat>, spent: nat -> int, from: nat, until: nat): int
    decreases until
  {
    if until <= from then 0
    else Clamp(amount + Replay(amount, cap, spent, from, until - 1) - spent(until - 1), cap)
  }

  lemma {:induction false} ReplayBounds(amount: int, cap: Option<nat>, spent: nat -> int, from: nat, until: nat)
    requires from <= until
    ensures 0 <= Replay(amount, cap, spent, from, until)
    ensures cap.Some? ==> Replay(amount, cap, spent, from, until) <= cap.value
    ensures (forall k: nat :: spent(k) >= 0) ==>
      Replay(amount, cap, spent, from, until) <= (until - from) * Max(amount, 0)
    decreases until
  {
    if from < until {
      ReplayBounds(amount, cap, spent, from, until - 1);
      assert (until - from) * Max(amount, 0) == (until - 1 - from) * Max(amount, 0) + Max(amount, 0);
    }
  }

  /** A replay that starts later never carries more. */
  lemma {:induction false} LaterStartCarriesLess(
    amount: int, cap: Option<nat>, spent: nat -> int, early: nat, late: nat, until: nat)
    requires early <= late <= until
    ensures Replay(amount, cap, spent, late, until) <= Replay(amount, cap, spent, early, until)
    decreases until
  {
    ReplayBounds(amount, cap, spent, early, until);
    if late < until { LaterStartCarriesLess(amount, cap, spent, early, late, until - 1); }
  }

  // the longer replay was used up, or the shorter one was full, when cycle `k` began
  predicate Meet(amount: int, cap: Option<nat>, spent: nat -> int, early: nat, late: nat, k: nat) {
    Replay(amount, cap, spent, early, k) == 0 || (cap.Some? && Replay(amount, cap, spent, late, k) == cap.value)
  }

  /** Two replays agree if and only if somewhere since the later start the longer one ended a cycle
      at nothing or the shorter one at the cap. */
  lemma {:induction false} ReplaysAgree(
    amount: int, cap: Option<nat>, spent: nat -> int, early: nat, late: nat, until: nat)
    requires early <= late <= until
    ensures Replay(amount, cap, spent, late, until) == Replay(amount, cap, spent, early, until)
       <==> exists k: nat :: late <= k <= until && Meet(amount, cap, spent, early, late, k)
    decreases until
  {
    ReplayBounds(amount, cap, spent, early, until);
    ReplayBounds(amount, cap, spent, late, until);
    LaterStartCarriesLess(amount, cap, spent, early, late, until);
    if Meet(amount, cap, spent, early, late, until) {
    } else if late < until {
      ReplaysAgree(amount, cap, spent, early, late, until - 1);
      LaterStartCarriesLess(amount, cap, spent, early, late, until - 1);
    }
  }

  function Saved(amount: int, spent: nat -> int, from: nat, until: nat): int
    decreases until
  {
    if until <= from then 0 else Saved(amount, spent, from, until - 1) + amount - spent(until - 1)
  }

  /** Uncapped, the carry is the best saving streak that is still running: the largest sum of unspent
      money over the last cycles, never less than nothing. */
  lemma {:induction false} CarryIsBestStreak(amount: int, spent: nat -> int, from: nat, until: nat)
    requires from <= until
    ensures forall s: nat :: from <= s <= until ==>
      Saved(amount, spent, s, until) <= Replay(amount, None, spent, from, until)
    ensures exists s: nat ::
      from <= s <= until && Saved(amount, spent, s, until) == Replay(amount, None, spent, from, until)
    decreases until
  {
    if from == until {
      assert Saved(amount, spent, from, until) == 0;
    } else {
      CarryIsBestStreak(amount, spent, from, until - 1);
      var s: nat :| from <= s <= until - 1 &&
                    Saved(amount, spent, s, until - 1) == Replay(amount, None, spent, from, until - 1);
      assert Saved(amount, spent, s, until) == Saved(amount, spent, s, until - 1) + amount - spent(until - 1);
      assert Saved(amount, spent, until, until) == 0;
      forall r: nat | from <= r <= until
        ensures Saved(amount, spent, r, until) <= Replay(amount, None, spent, from, until)
      {
        if r < until {
          assert Saved(amount, spent, r, until) == Saved(amount, spent, r, until - 1) + amount - spent(until - 1);
        }
      }
    }
  }

  // ---- the carry of a budget ----

  const MAX_REPLAY_PERIODS := 260

  function Window(b: Budget, current: nat): (w: nat)
    ensures w <= current
  {
    if b.carryMode == Some(Periods) then Min(current, Max(1, if b.carryPeriods.Some? then b.carryPeriods.value else 1))
    else Min(current, MAX_REPLAY_PERIODS)
  }

  function CapOf(b: Budget): Option<nat> {
    if b.carryMode == Some(Cap) then Some(Max(0, if b.carryCapCents.Some? then b.carryCapCents.value else 0)) else None
  }

  function SpentIn(txs: seq<TxView>, family: set<string>, starts: nat -> int): nat -> int {
    (k: nat) => Spent(txs, family, Cycle(starts, k))
  }

  function Carried(b: Budget, spent: nat -> int, current: nat): int {
    if !b.carryOver || current == 0 then 0
    else Replay(b.amountCents, CapOf(b), spent, current - Window(b, current), current)
  }

  // `starts` are the budget's cycle starts
  method ReplayCents(amount: int, cap: Option<nat>, txs: seq<TxView>, family: set<string>, starts: nat -> int,
                     first: nat, current: nat)
    returns (carried: int)
    requires first <= current
    ensures carried == Replay(amount, cap, SpentIn(txs, family, starts), first, current)
  {
    carried := 0;
    for k := first to current
      invariant carried == Replay(amount, cap, SpentIn(txs, family, starts), first, k)
    {
      var cents := BudgetSpentCents(txs, family, Cycle(starts, k));
      var leftover := amount + carried - cents;
      carried := Clamp(leftover, cap);
    }
  }

  method CarriedAt(b: Budget, txs: seq<TxView>, family: set<string>, starts: nat -> int, index: nat)
    returns (carried: int)
    ensures carried == Carried(b, SpentIn(txs, family, starts), index)
  {
    carried := 0;
    if b.carryOver && index > 0 {
      carried := ReplayCents(b.amountCents, CapOf(b), txs, family, starts, index - Window(b, index), index);
    }
  }

  method CarriedCents(b: Budget, txs: seq<TxView>, family: set<string>, now: int, sundayStart: bool)
    returns (carried: int)
    requires Sound(b)
    ensures forall current: nat :: IsIndex(Starts(b, sundayStart), now, current) ==>
      carried == Carried(b, SpentIn(txs, family, Starts(b, sundayStart)), current)
  {
    var index := CycleIndex(b, now, sundayStart);
    carried := CarriedAt(b, txs, family, Starts(b, sundayStart), index);
    forall current: nat | IsIndex(Starts(b, sundayStart), now, current) ensures current == index {
      OneIndex(Starts(b, sundayStart), now, current, index);
    }
  }

  /** The bounded replay stays within 0, the cap and the window's worth of budget, and never
      over-reports what replaying the whole history would carry. */
  lemma CarryIsSound(b: Budget, spent: nat -> int, current: nat)
    ensures var r := Carried(b, spent, current);
      && 0 <= r <= Replay(b.amountCents, CapOf(b), spent, 0, current)
      && (CapOf(b).Some? ==> r <= CapOf(b).value)
      && ((forall k: nat :: spent(k) >= 0) ==> r <= Window(b, current) * Max(b.amountCents, 0))
  {
    var from := current - Window(b, current);
    ReplayBounds(b.amountCents, CapOf(b), spent, 0, current);
    ReplayBounds(b.amountCents, CapOf(b), spent, from, current);
    LaterStartCarriesLess(b.amountCents, CapOf(b), spent, 0, from, current);
    NonNegative(Window(b, current), Max(b.amountCents, 0));
  }

  lemma NonNegative(a: nat, b: nat)
    ensures 0 <= a * b
  {
  }
}
