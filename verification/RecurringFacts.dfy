/**
 Which payments the automatic linker links, and to what, told from the fields of the rows and of the
 recurring costs.
 */
module RecurringFacts {
  import opened Records
  import opened RecurringLinks

  // a part that is still the payer's own cost
  predicate OwnCost(p: Part) { p.catId != Plain("reimbursed") }

  // an outgoing cost or funding row that is linked to nothing and is not split into several own costs
  ghost predicate Unclaimed(rules: Rules, row: RecurringLinks.Row) {
    && (row.recurringId.None? || row.recurringId.value == "") && row.amountCents < 0
    && (rules.typeOf(row) == Expense || rules.typeOf(row) == FundingMove)
    && forall i, j :: 0 <= i < j < |row.splits| ==> !OwnCost(row.splits[i]) || !OwnCost(row.splits[j])
  }

  // a live recurring cost of the row's merchant, its estimate within one unit of money or a quarter
  predicate Suits(rules: Rules, rec: Rec, row: RecurringLinks.Row) {
    && !rec.deleted && rec.active && rec.merchantKey != "" && rec.merchantKey == rules.merchantKey(row.merchant)
    && var off := (if row.amountCents < 0 then -row.amountCents else row.amountCents) - rec.amountCents;
       (-100 <= off <= 100 || -rec.amountCents <= 4 * off <= rec.amountCents)
  }

  // the first one that suits
  ghost predicate Chosen(rules: Rules, recs: seq<Rec>, row: RecurringLinks.Row, r: nat) {
    r < |recs| && Suits(rules, recs[r], row) && forall q :: 0 <= q < r ==> !Suits(rules, recs[q], row)
  }

  lemma SuitsIs(rules: Rules, rec: Rec, row: RecurringLinks.Row)
    ensures Fits(rules, rec, row) <==> Suits(rules, rec, row)
  {
  }

  lemma {:induction false} PickIs(rules: Rules, recs: seq<Rec>, row: RecurringLinks.Row)
    ensures forall r: nat :: Chosen(rules, recs, row, r) ==> Pick(rules, recs, row) == Some(recs[r])
    ensures Pick(rules, recs, row).Some? ==> exists r: nat :: Chosen(rules, recs, row, r)
  {
    if recs != [] {
      SuitsIs(rules, recs[0], row);
      PickIs(rules, recs[1..], row);
      if Fits(rules, recs[0], row) {
        assert Chosen(rules, recs, row, 0);
      } else {
        forall r: nat | Chosen(rules, recs, row, r) ensures r > 0 && Chosen(rules, recs[1..], row, r - 1) {
        }
        forall r: nat | Chosen(rules, recs[1..], row, r) ensures Chosen(rules, recs, row, r + 1) {
          assert forall q :: 0 < q < r + 1 ==> recs[q] == recs[1..][q - 1];
        }
      }
    }
  }

  lemma {:induction false} OpenPartsAre(parts: seq<Part>)
    ensures OpenParts(parts) == 0 <==> forall i :: 0 <= i < |parts| ==> !OwnCost(parts[i])
    ensures OpenParts(parts) <= 1 <==>
      forall i, j :: 0 <= i < j < |parts| ==> !OwnCost(parts[i]) || !OwnCost(parts[j])
  {
    if parts != [] {
      var n := |parts| - 1;
      OpenPartsAre(parts[..n]);
      assert forall i :: 0 <= i < n ==> parts[..n][i] == parts[i];
    }
  }

  lemma UnclaimedIs(rules: Rules, recs: seq<Rec>, row: RecurringLinks.Row)
    ensures Eligible(rules, recs, row) <==>
      Unclaimed(rules, row) && exists r: nat :: Chosen(rules, recs, row, r)
  {
    OpenPartsAre(row.splits);
    PickIs(rules, recs, row);
  }

  // some row of the list is a payment of this recurring in this billing cycle
  ghost predicate Paid(rules: Rules, rec: Rec, view: View, order: seq<TxId>, key: string) {
    exists x ::
      x in order && x in view && view[x].recurringId == Some(rec.id) && rules.cycleKey(rec, view[x].date) == key
  }

  lemma {:induction false} FoundById(recs: seq<Rec>, r: nat)
    requires Keyed(recs) && r < |recs| && Usable(recs[r])
    ensures UsableById(recs, recs[r].id) == Some(recs[r])
  {
    if r > 0 {
      assert recs[0].id != recs[r].id;
      FoundById(recs[1..], r - 1);
    }
  }

  lemma {:induction false} FoundHasId(recs: seq<Rec>, id: string)
    ensures UsableById(recs, id).Some? ==> UsableById(recs, id).value.id == id
  {
    if recs != [] { FoundHasId(recs[1..], id); }
  }

  lemma PaidIs(rules: Rules, recs: seq<Rec>, view: View, order: seq<TxId>, r: nat, key: string)
    requires Keyed(recs) && r < |recs| && Usable(recs[r]) && forall x :: x in order ==> x in view
    ensures (recs[r].id, key) in LinkedSlots(rules, recs, view, order) <==> Paid(rules, recs[r], view, order, key)
  {
    FoundById(recs, r);
    forall x | x in order
      ensures LinkedSlot(rules, recs, view[x]) == Some((recs[r].id, key)) <==>
        view[x].recurringId == Some(recs[r].id) && rules.cycleKey(recs[r], view[x].date) == key
    {
      if view[x].recurringId.Some? { FoundHasId(recs, view[x].recurringId.value); }
    }
  }

  // row i is the first of the list that recurring `r` may still take in that row's billing cycle
  ghost predicate Takes(rules: Rules, recs: seq<Rec>, view: View, order: seq<TxId>, i: nat, r: nat)
    requires i < |order| && forall x :: x in order ==> x in view
  {
    var row := view[order[i]];
    && Unclaimed(rules, row) && Chosen(rules, recs, row, r)
    && var key := rules.cycleKey(recs[r], row.date);
       && !Paid(rules, recs[r], view, order, key)
       && forall j :: 0 <= j < i ==> !(Unclaimed(rules, view[order[j]]) && Chosen(rules, recs, view[order[j]], r) &&
                                       rules.cycleKey(recs[r], view[order[j]].date) == key)
  }

  // the link, the recurring's category unless the row is filed as a reimbursement, its counterparty
  function Took(rec: Rec, row: RecurringLinks.Row): RecurringLinks.Row {
    var kept := rec.catId.None? || row.catId in {Some(Plain("reimbursed")), Some(Plain("expenseReimburse"))};
    row.(recurringId := Some(rec.id), catId := if kept then row.catId else rec.catId,
         link := if rec.link.None? then row.link else rec.link)
  }

  // wanting the slot of a recurring is being unclaimed and choosing it in that cycle
  lemma WantsIs(rules: Rules, recs: seq<Rec>, view: View, tx: TxId, r: nat, key: string)
    requires Keyed(recs) && r < |recs| && tx in view
    ensures Wants(rules, recs, view, tx, (recs[r].id, key)) <==>
      Unclaimed(rules, view[tx]) && Chosen(rules, recs, view[tx], r) && rules.cycleKey(recs[r], view[tx].date) == key
  {
    UnclaimedIs(rules, recs, view[tx]);
    PickIs(rules, recs, view[tx]);
    if Wants(rules, recs, view, tx, (recs[r].id, key)) {
      var q: nat :| Chosen(rules, recs, view[tx], q);
      assert recs[q].id == recs[r].id;
      assert q == r;
    }
  }

  lemma TakesIs(rules: Rules, recs: seq<Rec>, view: View, order: seq<TxId>, i: nat, r: nat)
    requires Keyed(recs) && i < |order| && (forall x :: x in order ==> x in view)
    requires Chosen(rules, recs, view[order[i]], r)
    ensures Takes(rules, recs, view, order, i, r) <==>
      FirstToWant(rules, recs, view, LinkedSlots(rules, recs, view, order), order, i)
  {
    var row := view[order[i]];
    var key := rules.cycleKey(recs[r], row.date);
    UnclaimedIs(rules, recs, row);
    PickIs(rules, recs, row);
    SuitsIs(rules, recs[r], row);
    PaidIs(rules, recs, view, order, r, key);
    forall j | 0 <= j < i ensures Wants(rules, recs, view, order[j], (recs[r].id, key)) <==>
      Unclaimed(rules, view[order[j]]) && Chosen(rules, recs, view[order[j]], r) &&
      rules.cycleKey(recs[r], view[order[j]].date) == key
    {
      WantsIs(rules, recs, view, order[j], r, key);
    }
  }

  /** A run links a row if and only if it is unclaimed, some recurring suits it, and it is the first such
      row of a billing cycle that the first suiting recurring has no payment in; every other row stays. */
  lemma RunLinks(rules: Rules, recs: seq<Rec>, view: View, order: seq<TxId>, i: nat)
    requires Keyed(recs) && Once(order) && i < |order| && (forall x :: x in order ==> x in view)
    ensures var row, now := view[order[i]], Ran(rules, recs, view, order).view[order[i]];
      && (forall r: nat :: Takes(rules, recs, view, order, i, r) ==> now == Took(recs[r], row))
      && ((forall r: nat :: !Takes(rules, recs, view, order, i, r)) ==> now == row)
  {
    var row := view[order[i]];
    var cycles := LinkedSlots(rules, recs, view, order);
    EarliestIsLinked(rules, recs, view, cycles, order);
    PickIs(rules, recs, row);
    assert Ran(rules, recs, view, order).view[order[i]] == RowAfter(rules, recs, view, cycles, order, i);
    forall r: nat | Chosen(rules, recs, row, r)
      ensures Takes(rules, recs, view, order, i, r) <==> FirstToWant(rules, recs, view, cycles, order, i)
    {
      TakesIs(rules, recs, view, order, i, r);
    }
  }
}
