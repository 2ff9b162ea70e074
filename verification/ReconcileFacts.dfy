/**
 What a reconciliation does to overlays, receipts and space links, told from their fields.
 */
module ReconcileFacts {
  import opened Records
  import R = ReceiptLinks
  import opened Reconcile

  // the space has reviewed this overlay: it is live and says so
  predicate SaysReviewed(o: Option<Overlay>) {
    o.Some? && !o.value.deleted && o.value.ops.needsReview == Set(Some(false))
  }

  // a live overlay's own field, present or null, or else what the truth row's overlay had
  function Handed<T>(own: Change<T>, had: Change<T>): Change<T> {
    match own
    case Keep => had
    case Set(_) => own
  }

  /** What a space's overlay on the truth row becomes: every field the import's live overlay holds, but for
      the pairing and the balance flag, over what was there; a removed overlay hands nothing over; and a
      verdict the space had not given on the import is taken back. */
  lemma HandsOver(given: Option<Overlay>, truth: Option<Overlay>)
    ensures var now := HandOver(given, truth);
      if given.None? || given.value.deleted then
        if SaysReviewed(truth) then
          now == Some(truth.value.(ops := truth.value.ops.(needsReview := Set(Some(true)))))
        else now == truth
      else
        var own, had := given.value.ops, if truth.Some? then truth.value.ops else NO_CHANGE;
        var review := Handed(own.needsReview, had.needsReview);
        now == Some(Overlay(false, Patch(
          Handed(own.catId, had.catId),
          if review == Set(Some(false)) && own.needsReview.Keep? then Set(Some(true)) else review,
          Handed(own.notes, had.notes), Handed(own.titleOverride, had.titleOverride), Handed(own.cats, had.cats),
          Handed(own.splits, had.splits), Handed(own.reimbursements, had.reimbursements),
          Handed(own.link, had.link), had.peer,
          Handed(own.recurringId, had.recurringId), Handed(own.eventId, had.eventId), had.loanCounted)))
  {
  }

  /** The number reported is that of the matches whose import is not ignored. */
  lemma {:induction false} HandedOverCounts(matches: seq<Match>, ignored: set<TxId>)
    ensures HandedOver(matches, ignored) == |set i | 0 <= i < |matches| && matches[i].imported !in ignored|
  {
    var all := set i | 0 <= i < |matches| && matches[i].imported !in ignored;
    if matches != [] {
      var n := |matches| - 1;
      HandedOverCounts(matches[..n], ignored);
      var rest := set i | 0 <= i < |matches[..n]| && matches[..n][i].imported !in ignored;
      assert all == rest + if matches[n].imported in ignored then {} else {n};
    } else {
      assert all == {};
    }
  }

  lemma {:induction false} RemovedReceiptStays(
    b: Books, matches: seq<Match>, ignored: set<TxId>, k: (SpaceId, R.ReceiptId))
    requires FromStore(b, matches) && k in b.receipts && (b.receipts[k].deleted || k.0 !in b.spaces)
    ensures MigratedAll(b, matches, ignored).receipts[k] == b.receipts[k]
  {
    if matches != [] { RemovedReceiptStays(b, matches[..|matches| - 1], ignored, k); }
  }

  function RelinkedTo(link: SpaceLink, spaces: set<SpaceId>, was: AccountId, now: AccountId): SpaceLink {
    if link.spaceId !in spaces || link.deleted || link.accountId != was then link
    else SpaceLink(link.spaceId, now, false)
  }

  /** A merge leaves removed receipts and those of other spaces as they are, and re-points exactly the live
      space links of member spaces that named the retired account. */
  lemma MergeKeeps(b: Books, imported: AccountId, bank: AccountId, plan: Plan, ignored: set<TxId>)
    requires FromStore(b, plan.matches)
    ensures var e := Merged(b, imported, bank, plan, ignored);
      && (forall k :: k in b.receipts && (b.receipts[k].deleted || k.0 !in b.spaces) ==>
            k in e.receipts && e.receipts[k] == b.receipts[k])
      && e.links.Keys == b.links.Keys
      && (forall k :: k in b.links ==> e.links[k] == RelinkedTo(b.links[k], b.spaces, imported, bank))
  {
    forall k | k in b.receipts && (b.receipts[k].deleted || k.0 !in b.spaces)
      ensures MigratedAll(b, plan.matches, ignored).receipts[k] == b.receipts[k]
    {
      RemovedReceiptStays(b, plan.matches, ignored, k);
    }
  }
}
