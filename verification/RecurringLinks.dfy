/**
 The automatic linker of recurring costs: an unlinked payment takes the recurring whose
 merchant and amount it fits, unless that recurring's billing cycle has its payment already.
 */
module RecurringLinks {
  import opened Numbers
  import opened Records

  datatype TxType = Expense | FundingMove | OtherType

  datatype Rec = Rec(
    id: string, merchantKey: string, amountCents: int, catId: Option<Cat>,
    link: Option<AccountId>, active: bool, deleted: bool)

  // a transaction as the space sees it
  datatype Row = Row(
    date: Date, amountCents: int, merchant: string, recurringId: Option<string>,
    catId: Option<Cat>, link: Option<AccountId>, splits: seq<Part>)

  type View = map<TxId, Row>

  // what the linker asks the domain: a row's derived type, its merchant, a date's billing cycle
  datatype Rules = Rules(typeOf: Row -> TxType, merchantKey: string -> string, cycleKey: (Rec, Date) -> string)

  const REIMBURSED := Plain("reimbursed")
  const EXPECTED_BACK := Plain("expenseReimburse")

  predicate Linked(row: Row) {
    row.recurringId.Some? && row.recurringId.value != ""
  }

  // the empty id unlinks
  predicate Reconcilable(rules: Rules, row: Row) {
    !Linked(row) && row.amountCents < 0 && (rules.typeOf(row).Expense? || rules.typeOf(row).FundingMove?)
  }

  function OpenParts(parts: seq<Part>): nat {
    if parts == [] then 0
    else OpenParts(parts[..|parts| - 1]) + if parts[|parts| - 1].catId == REIMBURSED then 0 else 1
  }

  // within a quarter of the estimate, or one unit of money for small ones
  predicate AmountMatches(rec: Rec, amountCents: int) {
    var gap := Abs(Abs(amountCents) - rec.amountCents);
    gap <= 100 || 4 * gap <= rec.amountCents
  }

  predicate Usable(rec: Rec) {
    !rec.deleted && rec.active && rec.merchantKey != ""
  }

  predicate Fits(rules: Rules, rec: Rec, row: Row) {
    Usable(rec) && rec.merchantKey == rules.merchantKey(row.merchant) && AmountMatches(rec, row.amountCents)
  }

  // the first recurring that fits
  function Pick(rules: Rules, recs: seq<Rec>, row: Row): Option<Rec> {
    if recs == [] then None
    else if Fits(rules, recs[0], row) then Some(recs[0])
    else Pick(rules, recs[1..], row)
  }

  function UsableById(recs: seq<Rec>, id: string): Option<Rec> {
    if recs == [] then None
    else if Usable(recs[0]) && recs[0].id == id then Some(recs[0])
    else UsableById(recs[1..], id)
  }

  predicate Eligible(rules: Rules, recs: seq<Rec>, row: Row) {
    Reconcilable(rules, row) && OpenParts(row.splits) <= 1 && Pick(rules, recs, row).Some?
  }

  // a recurring's one place in one billing cycle
  type Slot = (string, string)

  function SlotFor(rules: Rules, recs: seq<Rec>, row: Row): Slot
    requires Pick(rules, recs, row).Some?
  {
    var rec := Pick(rules, recs, row).value;
    (rec.id, rules.cycleKey(rec, row.date))
  }

  function LinkedSlot(rules: Rules, recs: seq<Rec>, row: Row): Option<Slot> {
    if !Linked(row) then None
    else match UsableById(recs, row.recurringId.value)
      case None => None
      case Some(rec) => Some((rec.id, rules.cycleKey(rec, row.date)))
  }

  // the link, and what the row adopts from its recurring
  function Adopted(rec: Rec, row: Row): Row {
    row.(recurringId := Some(rec.id),
         catId := if rec.catId.Some? && row.catId != Some(REIMBURSED) && row.catId != Some(EXPECTED_BACK)
                  then rec.catId else row.catId,
         link := if rec.link.Some? then rec.link else row.link)
  }

  // ---- the sort ----

  function InsertByDate(view: View, sorted: seq<TxId>, tx: TxId): seq<TxId>
    requires tx in view && forall x :: x in sorted ==> x in view
  {
    if sorted == [] || view[sorted[|sorted| - 1]].date <= view[tx].date then sorted + [tx]
    else InsertByDate(view, sorted[..|sorted| - 1], tx) + [sorted[|sorted| - 1]]
  }

  ghost predicate InDateOrder(view: View, s: seq<TxId>)
    requires forall x :: x in s ==> x in view
  {
    forall i, j :: 0 <= i < j < |s| ==> view[s[i]].date <= view[s[j]].date
  }

  lemma {:induction false} InsertKeeps(view: View, sorted: seq<TxId>, tx: TxId)
    requires tx in view && (forall x :: x in sorted ==> x in view)
    ensures multiset(InsertByDate(view, sorted, tx)) == multiset(sorted) + multiset{tx}
    ensures forall x :: x in InsertByDate(view, sorted, tx) <==> x in sorted || x == tx
  {
    if sorted != [] && view[sorted[|sorted| - 1]].date > view[tx].date {
      var rest := sorted[..|sorted| - 1];
      InsertKeeps(view, rest, tx);
      assert sorted == rest + [sorted[|sorted| - 1]];
    }
  }

  // the rows of one day, in the order they stand in
  function OnDay(view: View, s: seq<TxId>, day: Date): seq<TxId>
    requires forall x :: x in s ==> x in view
  {
    if s == [] then []
    else
      var rest := OnDay(view, s[..|s| - 1], day);
      if view[s[|s| - 1]].date == day then rest + [s[|s| - 1]] else rest
  }

  // a row goes behind the rows of its own day, and disturbs no other day
  lemma {:induction false} InsertIsStable(view: View, sorted: seq<TxId>, tx: TxId, day: Date)
    requires tx in view && (forall x :: x in sorted ==> x in view) && InDateOrder(view, sorted)
    ensures forall x :: x in InsertByDate(view, sorted, tx) ==> x in view
    ensures OnDay(view, InsertByDate(view, sorted, tx), day) ==
            OnDay(view, sorted, day) + if view[tx].date == day then [tx] else []
  {
    InsertKeeps(view, sorted, tx);
    if sorted == [] || view[sorted[|sorted| - 1]].date <= view[tx].date {
      OnDayAppend(view, sorted, tx, day);
    } else {
      var rest, last := sorted[..|sorted| - 1], sorted[|sorted| - 1];
      InsertIsStable(view, rest, tx, day);
      InsertedBefore(view, rest, InsertByDate(view, rest, tx), last, tx, day);
      assert sorted == rest + [last];
    }
  }

  // a row went in somewhere before a later one
  lemma InsertedBefore(view: View, was: seq<TxId>, now: seq<TxId>, last: TxId, tx: TxId, day: Date)
    requires last in view && tx in view && view[tx].date < view[last].date
    requires (forall x :: x in was ==> x in view) && (forall x :: x in now ==> x in view)
    requires OnDay(view, now, day) == OnDay(view, was, day) + if view[tx].date == day then [tx] else []
    ensures (forall x :: x in was + [last] ==> x in view) && (forall x :: x in now + [last] ==> x in view)
    ensures OnDay(view, now + [last], day) ==
            OnDay(view, was + [last], day) + if view[tx].date == day then [tx] else []
  {
    OnDayAppend(view, was, last, day);
    OnDayAppend(view, now, last, day);
  }

  lemma OnDayAppend(view: View, s: seq<TxId>, last: TxId, day: Date)
    requires last in view && forall x :: x in s ==> x in view
    ensures forall x :: x in s + [last] ==> x in view
    ensures OnDay(view, s + [last], day) == OnDay(view, s, day) + if view[last].date == day then [last] else []
  {
    assert (s + [last])[..|s|] == s;
  }

  lemma AppendInOrder(view: View, s: seq<TxId>, last: TxId)
    requires last in view && (forall x :: x in s ==> x in view && view[x].date <= view[last].date)
    requires InDateOrder(view, s)
    ensures forall x :: x in s + [last] ==> x in view
    ensures InDateOrder(view, s + [last])
  {
  }

  lemma {:induction false} InsertSorts(view: View, sorted: seq<TxId>, tx: TxId)
    requires tx in view && (forall x :: x in sorted ==> x in view)
    requires InDateOrder(view, sorted)
    ensures forall x :: x in InsertByDate(view, sorted, tx) ==> x in view
    ensures InDateOrder(view, InsertByDate(view, sorted, tx))
  {
    if sorted == [] || view[sorted[|sorted| - 1]].date <= view[tx].date {
      AppendInOrder(view, sorted, tx);
    } else {
      var rest, last := sorted[..|sorted| - 1], sorted[|sorted| - 1];
      InsertSorts(view, rest, tx);
      InsertKeeps(view, rest, tx);
      AppendInOrder(view, InsertByDate(view, rest, tx), last);
    }
  }

  // the same rows, each as often, oldest first, those of one day in the order they had
  ghost predicate SortOf(view: View, sorted: seq<TxId>, txs: seq<TxId>)
    requires forall x :: x in txs ==> x in view
  {
    && multiset(sorted) == multiset(txs)
    && (forall x :: x in sorted <==> x in txs)
    && InDateOrder(view, sorted)
    && forall day :: OnDay(view, sorted, day) == OnDay(view, txs, day)
  }

  lemma SortOneMore(view: View, sorted: seq<TxId>, txs: seq<TxId>, tx: TxId)
    requires tx in view && (forall x :: x in txs ==> x in view) && SortOf(view, sorted, txs)
    ensures (forall x :: x in txs + [tx] ==> x in view) && SortOf(view, InsertByDate(view, sorted, tx), txs + [tx])
  {
    var next := InsertByDate(view, sorted, tx);
    InsertKeeps(view, sorted, tx);
    InsertSorts(view, sorted, tx);
    forall day ensures OnDay(view, next, day) == OnDay(view, txs + [tx], day) {
      InsertIsStable(view, sorted, tx, day);
      OnDayAppend(view, txs, tx, day);
    }
  }

  /** The space's rows, oldest first, those of one day in the order they came. */
  method SortByDate(view: View, txs: seq<TxId>) returns (sorted: seq<TxId>)
    requires forall x :: x in txs ==> x in view
    ensures SortOf(view, sorted, txs)
  {
    sorted := [];
    for i := 0 to |txs|
      invariant SortOf(view, sorted, txs[..i])
    {
      SortOneMore(view, sorted, txs[..i], txs[i]);
      sorted := InsertByDate(view, sorted, txs[i]);
      assert txs[..i + 1] == txs[..i] + [txs[i]];
    }
    assert txs[..|txs|] == txs;
  }

  // ---- the pass ----

  datatype Pass = Pass(view: View, cycles: set<Slot>, linked: seq<TxId>)

  function LinkedSlots(rules: Rules, recs: seq<Rec>, view: View, txs: seq<TxId>): set<Slot>
    requires forall x :: x in txs ==> x in view
  {
    set x | x in txs && LinkedSlot(rules, recs, view[x]).Some? :: LinkedSlot(rules, recs, view[x]).value
  }

  function PassOver(rules: Rules, recs: seq<Rec>, view: View, cycles: set<Slot>, order: seq<TxId>): (p: Pass)
    requires forall x :: x in order ==> x in view
    ensures p.view.Keys == view.Keys
  {
    if order == [] then Pass(view, cycles, [])
    else
      var tx := order[|order| - 1];
      var p := PassOver(rules, recs, view, cycles, order[..|order| - 1]);
      if !Eligible(rules, recs, view[tx]) || SlotFor(rules, recs, view[tx]) in p.cycles then p
      else Pass(p.view[tx := Adopted(Pick(rules, recs, view[tx]).value, view[tx])],
                p.cycles + {SlotFor(rules, recs, view[tx])},
                p.linked + [tx])
  }

  method LinkedCyclesOf(rules: Rules, recs: seq<Rec>, view: View, txs: seq<TxId>) returns (cycles: set<Slot>)
    requires forall x :: x in txs ==> x in view
    ensures cycles == LinkedSlots(rules, recs, view, txs)
  {
    cycles := {};
    for i := 0 to |txs|
      invariant cycles == LinkedSlots(rules, recs, view, txs[..i])
    {
      assert txs[..i + 1] == txs[..i] + [txs[i]];
      var row := view[txs[i]];
      if Linked(row) {
        var rec := UsableById(recs, row.recurringId.value);
        if rec.Some? {
          cycles := cycles + {(rec.value.id, rules.cycleKey(rec.value, row.date))};
        }
      }
    }
    assert txs[..|txs|] == txs;
  }

  class Space {
    var view: View

    /** One run of the linker; `txs` lists the space's rows as the view gives them. */
    method ReconcileRecurringLinks(rules: Rules, recs: seq<Rec>, txs: seq<TxId>)
      returns (linked: nat, ghost order: seq<TxId>)
      requires forall x :: x in txs ==> x in view
      modifies this
      ensures multiset(order) == multiset(txs) && (forall x :: x in order <==> x in txs)
      ensures InDateOrder(old(view), order) && forall day :: OnDay(old(view), order, day) == OnDay(old(view), txs, day)
      ensures var p := PassOver(rules, recs, old(view), LinkedSlots(rules, recs, old(view), txs), order);
        view == p.view && linked == |p.linked|
    {
      ghost var start := view;
      var read := view;
      var sorted := SortByDate(read, txs);
      order := sorted;
      var cycles := LinkedCyclesOf(rules, recs, read, txs);
      ghost var atFirst := cycles;
      linked := 0;
      for i := 0 to |sorted|
        invariant read == start
        invariant view == PassOver(rules, recs, start, atFirst, sorted[..i]).view
        invariant cycles == PassOver(rules, recs, start, atFirst, sorted[..i]).cycles
        invariant linked == |PassOver(rules, recs, start, atFirst, sorted[..i]).linked|
      {
        assert sorted[..i + 1][..i] == sorted[..i];
        var tx := sorted[i];
        var row := read[tx];
        if !Reconcilable(rules, row) {
          continue;
        }
        if OpenParts(row.splits) > 1 {
          continue;
        }
        var rec := Pick(rules, recs, row);
        if rec.None? {
          continue;
        }
        var slot := (rec.value.id, rules.cycleKey(rec.value, row.date));
        if slot in cycles {
          continue;
        }
        cycles := cycles + {slot};
        view := view[tx := Adopted(rec.value, row)];
        linked := linked + 1;
      }
      assert sorted[..|sorted|] == sorted;
    }
  }

  // ---- what a run does ----

  // recurrings are told apart by id, and an id is never empty
  ghost predicate Keyed(recs: seq<Rec>) {
    && (forall i, j :: 0 <= i < j < |recs| ==> recs[i].id != recs[j].id)
    && (forall i :: 0 <= i < |recs| ==> recs[i].id != "")
  }

  lemma {:induction false} PickedIsFound(rules: Rules, recs: seq<Rec>, row: Row)
    requires Keyed(recs) && Pick(rules, recs, row).Some?
    ensures Pick(rules, recs, row).value in recs
    ensures UsableById(recs, Pick(rules, recs, row).value.id) == Pick(rules, recs, row)
  {
    if !Fits(rules, recs[0], row) {
      PickedIsFound(rules, recs[1..], row);
    }
  }

  // an adopted row fills the slot it was picked for
  lemma AdoptedFills(rules: Rules, recs: seq<Rec>, row: Row)
    requires Keyed(recs) && Pick(rules, recs, row).Some?
    ensures var now := Adopted(Pick(rules, recs, row).value, row);
      Linked(now) && LinkedSlot(rules, recs, now) == Some(SlotFor(rules, recs, row))
  {
    PickedIsFound(rules, recs, row);
  }

  predicate Wants(rules: Rules, recs: seq<Rec>, view: View, tx: TxId, slot: Slot) {
    tx in view && Eligible(rules, recs, view[tx]) && SlotFor(rules, recs, view[tx]) == slot
  }

  // a row was linked by the run exactly when it was the first to want a slot nobody had
  predicate FirstToWant(rules: Rules, recs: seq<Rec>, view: View, cycles: set<Slot>, order: seq<TxId>, i: nat)
    requires i < |order| && order[i] in view
  {
    && Eligible(rules, recs, view[order[i]])
    && SlotFor(rules, recs, view[order[i]]) !in cycles
    && forall j :: 0 <= j < i ==> !Wants(rules, recs, view, order[j], SlotFor(rules, recs, view[order[i]]))
  }

  function RowAfter(rules: Rules, recs: seq<Rec>, view: View, cycles: set<Slot>, order: seq<TxId>, i: nat): Row
    requires i < |order| && order[i] in view
  {
    if FirstToWant(rules, recs, view, cycles, order, i)
    then Adopted(Pick(rules, recs, view[order[i]]).value, view[order[i]])
    else view[order[i]]
  }

  // every wanted slot is taken after a run
  lemma {:induction false} WantedSlotsAreTaken(
    rules: Rules, recs: seq<Rec>, view: View, cycles: set<Slot>, order: seq<TxId>)
    requires forall x :: x in order ==> x in view
    ensures forall slot :: slot in PassOver(rules, recs, view, cycles, order).cycles <==>
              slot in cycles || exists i :: 0 <= i < |order| && Wants(rules, recs, view, order[i], slot)
  {
    if order != [] {
      var n := |order| - 1;
      var rest := order[..n];
      WantedSlotsAreTaken(rules, recs, view, cycles, rest);
      var p, q := PassOver(rules, recs, view, cycles, order), PassOver(rules, recs, view, cycles, rest);
      forall slot
        ensures slot in p.cycles <==> slot in q.cycles || Wants(rules, recs, view, order[n], slot)
        ensures (exists i :: 0 <= i < |order| && Wants(rules, recs, view, order[i], slot)) <==>
                  (exists i :: 0 <= i < n && Wants(rules, recs, view, rest[i], slot)) ||
                  Wants(rules, recs, view, order[n], slot)
      {
        assert forall i :: 0 <= i < n ==> rest[i] == order[i];
        if i :| 0 <= i < |order| && Wants(rules, recs, view, order[i], slot) {
          assert i < n ==> Wants(rules, recs, view, rest[i], slot);
        }
        if i :| 0 <= i < n && Wants(rules, recs, view, rest[i], slot) {
          assert Wants(rules, recs, view, order[i], slot);
        }
      }
    }
  }

  // the row read last is linked exactly when it is the first to want its slot
  lemma LastIsLinkedIfFirst(rules: Rules, recs: seq<Rec>, view: View, cycles: set<Slot>, order: seq<TxId>)
    requires order != [] && (forall x :: x in order ==> x in view)
    ensures var n := |order| - 1;
      var q := PassOver(rules, recs, view, cycles, order[..n]);
      PassOver(rules, recs, view, cycles, order).view ==
        if FirstToWant(rules, recs, view, cycles, order, n)
        then q.view[order[n] := Adopted(Pick(rules, recs, view[order[n]]).value, view[order[n]])] else q.view
  {
    var n := |order| - 1;
    WantedSlotsAreTaken(rules, recs, view, cycles, order[..n]);
    assert forall j :: 0 <= j < n ==> order[..n][j] == order[j];
  }

  lemma SameStart(rules: Rules, recs: seq<Rec>, view: View, cycles: set<Slot>, order: seq<TxId>, i: nat)
    requires i < |order| - 1 && order[i] in view
    ensures RowAfter(rules, recs, view, cycles, order, i) ==
      RowAfter(rules, recs, view, cycles, order[..|order| - 1], i)
  {
    assert forall j :: 0 <= j <= i ==> order[..|order| - 1][j] == order[j];
  }

  lemma {:induction false} RowIsAsSaid(
    rules: Rules, recs: seq<Rec>, view: View, cycles: set<Slot>, order: seq<TxId>, i: nat) returns (row: Row)
    requires Once(order) && (forall x :: x in order ==> x in view)
    requires i < |order|
    ensures row == RowAfter(rules, recs, view, cycles, order, i)
    ensures PassOver(rules, recs, view, cycles, order).view[order[i]] == row
  {
    var n := |order| - 1;
    var rest := order[..n];
    if i < n {
      OnceBefore(order);
      row := RowIsAsSaid(rules, recs, view, cycles, rest, i);
      SaidBefore(rules, recs, view, cycles, order, i, row);
    } else {
      row := RowAfter(rules, recs, view, cycles, order, i);
      LastIsAsSaid(rules, recs, view, cycles, order);
    }
  }

  lemma LastIsAsSaid(rules: Rules, recs: seq<Rec>, view: View, cycles: set<Slot>, order: seq<TxId>)
    requires Once(order) && (forall x :: x in order ==> x in view) && order != []
    ensures var n := |order| - 1;
      PassOver(rules, recs, view, cycles, order).view[order[n]] == RowAfter(rules, recs, view, cycles, order, n)
  {
    var n := |order| - 1;
    LastIsLinkedIfFirst(rules, recs, view, cycles, order);
    OthersStay(rules, recs, view, cycles, order[..n], order[n]);
  }

  lemma OnceBefore(order: seq<TxId>)
    requires Once(order) && order != []
    ensures Once(order[..|order| - 1]) && forall x :: x in order[..|order| - 1] ==> x in order
  {
  }

  // what the run said of an earlier row it still says after the last one
  lemma SaidBefore(
    rules: Rules, recs: seq<Rec>, view: View, cycles: set<Slot>, order: seq<TxId>, i: nat, row: Row)
    requires Once(order) && (forall x :: x in order ==> x in view) && i < |order| - 1
    requires row == RowAfter(rules, recs, view, cycles, order[..|order| - 1], i)
    requires PassOver(rules, recs, view, cycles, order[..|order| - 1]).view[order[..|order| - 1][i]] == row
    ensures row == RowAfter(rules, recs, view, cycles, order, i)
    ensures PassOver(rules, recs, view, cycles, order).view[order[i]] == row
  {
    SameStart(rules, recs, view, cycles, order, i);
  }

  lemma {:induction false} OthersStay(
    rules: Rules, recs: seq<Rec>, view: View, cycles: set<Slot>, order: seq<TxId>, x: TxId)
    requires (forall y :: y in order ==> y in view) && x in view && x !in order
    ensures PassOver(rules, recs, view, cycles, order).view[x] == view[x]
  {
    if order != [] {
      OthersStay(rules, recs, view, cycles, order[..|order| - 1], x);
    }
  }

  /** The link goes to the earliest row that wants a free slot; every other row stays as it is. */
  lemma EarliestIsLinked(rules: Rules, recs: seq<Rec>, view: View, cycles: set<Slot>, order: seq<TxId>)
    requires Once(order) && (forall x :: x in order ==> x in view)
    ensures forall i :: 0 <= i < |order| ==>
      PassOver(rules, recs, view, cycles, order).view[order[i]] == RowAfter(rules, recs, view, cycles, order, i)
    ensures forall x :: x in view && x !in order ==> PassOver(rules, recs, view, cycles, order).view[x] == view[x]
  {
    forall i | 0 <= i < |order|
      ensures PassOver(rules, recs, view, cycles, order).view[order[i]] == RowAfter(rules, recs, view, cycles, order, i)
    {
      var row := RowIsAsSaid(rules, recs, view, cycles, order, i);
    }
    forall x | x in view && x !in order ensures PassOver(rules, recs, view, cycles, order).view[x] == view[x] {
      OthersStay(rules, recs, view, cycles, order, x);
    }
  }

  // ---- one payment per cycle ----

  function Ran(rules: Rules, recs: seq<Rec>, view: View, order: seq<TxId>): Pass
    requires forall x :: x in order ==> x in view
  {
    PassOver(rules, recs, view, LinkedSlots(rules, recs, view, order), order)
  }

  ghost predicate OnePerCycle(rules: Rules, recs: seq<Rec>, view: View, order: seq<TxId>)
    requires forall x :: x in order ==> x in view
  {
    forall i, j :: 0 <= i < j < |order| && LinkedSlot(rules, recs, view[order[i]]).Some? ==>
      LinkedSlot(rules, recs, view[order[i]]) != LinkedSlot(rules, recs, view[order[j]])
  }

  // what one row's slot is after a run, and why
  lemma SlotAfter(rules: Rules, recs: seq<Rec>, view: View, order: seq<TxId>, i: nat)
    requires Keyed(recs) && Once(order) && (forall x :: x in order ==> x in view)
    requires i < |order|
    ensures var cycles := LinkedSlots(rules, recs, view, order);
      LinkedSlot(rules, recs, Ran(rules, recs, view, order).view[order[i]]) ==
        if FirstToWant(rules, recs, view, cycles, order, i)
        then Some(SlotFor(rules, recs, view[order[i]]))
        else LinkedSlot(rules, recs, view[order[i]])
  {
    var cycles := LinkedSlots(rules, recs, view, order);
    EarliestIsLinked(rules, recs, view, cycles, order);
    if FirstToWant(rules, recs, view, cycles, order, i) {
      AdoptedFills(rules, recs, view[order[i]]);
    }
  }

  /** If every cycle of every recurring starts with at most one linked payment, it ends with at most one. */
  lemma RunKeepsOnePerCycle(rules: Rules, recs: seq<Rec>, view: View, order: seq<TxId>)
    requires Keyed(recs) && Once(order) && (forall x :: x in order ==> x in view)
    requires OnePerCycle(rules, recs, view, order)
    ensures OnePerCycle(rules, recs, Ran(rules, recs, view, order).view, order)
  {
    var cycles := LinkedSlots(rules, recs, view, order);
    EarliestIsLinked(rules, recs, view, cycles, order);
    forall i, j | 0 <= i < j < |order| && LinkedSlot(rules, recs, Ran(rules, recs, view, order).view[order[i]]).Some?
      ensures LinkedSlot(rules, recs, Ran(rules, recs, view, order).view[order[i]])
           != LinkedSlot(rules, recs, Ran(rules, recs, view, order).view[order[j]])
    {
      SlotAfter(rules, recs, view, order, i);
      SlotAfter(rules, recs, view, order, j);
      assert LinkedSlot(rules, recs, view[order[i]]).Some? ==> LinkedSlot(rules, recs, view[order[i]]).value in cycles;
      assert LinkedSlot(rules, recs, view[order[j]]).Some? ==> LinkedSlot(rules, recs, view[order[j]]).value in cycles;
    }
  }

  /** A row that is linked already is never touched, whatever it is linked to. */
  lemma LinkedRowsStay(rules: Rules, recs: seq<Rec>, view: View, order: seq<TxId>, tx: TxId)
    requires Once(order) && (forall x :: x in order ==> x in view)
    requires tx in view && Linked(view[tx])
    ensures Ran(rules, recs, view, order).view[tx] == view[tx]
  {
    EarliestIsLinked(rules, recs, view, LinkedSlots(rules, recs, view, order), order);
    if tx in order {
      var i: nat :| i < |order| && order[i] == tx;
      assert Ran(rules, recs, view, order).view[order[i]] ==
        RowAfter(rules, recs, view, LinkedSlots(rules, recs, view, order), order, i);
    }
  }

  lemma {:induction false} FirstWanter(rules: Rules, recs: seq<Rec>, view: View, order: seq<TxId>, slot: Slot, i: nat)
    returns (first: nat)
    requires i < |order| && Wants(rules, recs, view, order[i], slot)
    ensures first <= i && Wants(rules, recs, view, order[first], slot)
    ensures forall j :: 0 <= j < first ==> !Wants(rules, recs, view, order[j], slot)
  {
    if j: nat :| j < i && Wants(rules, recs, view, order[j], slot) {
      first := FirstWanter(rules, recs, view, order, slot, j);
    } else {
      first := i;
    }
  }

  // a row that still wants a slot after a run finds it filled by a payment
  lemma WantedIsFilled(rules: Rules, recs: seq<Rec>, view: View, order: seq<TxId>, i: nat)
    requires Keyed(recs) && Once(order) && (forall x :: x in order ==> x in view)
    requires i < |order|
    ensures var now := Ran(rules, recs, view, order).view;
      Eligible(rules, recs, now[order[i]]) ==>
        SlotFor(rules, recs, now[order[i]]) in LinkedSlots(rules, recs, now, order)
  {
    var cycles := LinkedSlots(rules, recs, view, order);
    EarliestIsLinked(rules, recs, view, cycles, order);
    var now := Ran(rules, recs, view, order).view;
    if Eligible(rules, recs, now[order[i]]) {
      assert now[order[i]] == RowAfter(rules, recs, view, cycles, order, i);
      if FirstToWant(rules, recs, view, cycles, order, i) {
        AdoptedFills(rules, recs, view[order[i]]);
      }
      assert now[order[i]] == view[order[i]];
      var slot := SlotFor(rules, recs, view[order[i]]);
      if slot in cycles {
        var x :| x in order && LinkedSlot(rules, recs, view[x]) == Some(slot);
        LinkedRowsStay(rules, recs, view, order, x);
        assert LinkedSlot(rules, recs, now[x]) == Some(slot);
      } else {
        var first := FirstWanter(rules, recs, view, order, slot, i);
        SlotAfter(rules, recs, view, order, first);
        assert LinkedSlot(rules, recs, now[order[first]]) == Some(slot);
      }
    }
  }

  lemma {:induction false} NothingFree(rules: Rules, recs: seq<Rec>, view: View, cycles: set<Slot>, order: seq<TxId>)
    requires forall x :: x in order ==> x in view
    requires forall x :: x in order && Eligible(rules, recs, view[x]) ==> SlotFor(rules, recs, view[x]) in cycles
    ensures PassOver(rules, recs, view, cycles, order) == Pass(view, cycles, [])
  {
    if order != [] {
      NothingFree(rules, recs, view, cycles, order[..|order| - 1]);
    }
  }

  /**
   A second run links nothing. It may read the rows in another order and find new ones, as long
   as the new ones are not outgoing money: the counter legs the links mint are incoming.
   */
  lemma SecondRunLinksNothing(rules: Rules, recs: seq<Rec>, view: View, order: seq<TxId>, later: View, again: seq<TxId>)
    requires Keyed(recs) && Once(order) && (forall x :: x in order ==> x in view)
    requires forall x :: x in again ==> x in later
    requires forall x :: x in order ==> x in again && later[x] == Ran(rules, recs, view, order).view[x]
    requires forall x :: x in again && x !in order ==> later[x].amountCents >= 0
    ensures Ran(rules, recs, later, again).linked == [] && Ran(rules, recs, later, again).view == later
  {
    var now := Ran(rules, recs, view, order).view;
    var cycles := LinkedSlots(rules, recs, later, again);
    forall x | x in again && Eligible(rules, recs, later[x]) ensures SlotFor(rules, recs, later[x]) in cycles {
      var i: nat :| i < |order| && order[i] == x;
      WantedIsFilled(rules, recs, view, order, i);
      var slot := SlotFor(rules, recs, later[x]);
      var y :| y in order && LinkedSlot(rules, recs, now[y]) == Some(slot);
      assert y in again && LinkedSlot(rules, recs, later[y]) == Some(slot);
    }
    NothingFree(rules, recs, later, cycles, again);
  }

}
