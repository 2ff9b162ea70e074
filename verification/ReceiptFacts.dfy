/**
 When the matcher asks, and what marks a link as automatic, told from the stored links.
 */
module ReceiptFacts {
  import opened Records
  import opened ReceiptLinks

  // a live link is attached to the transaction, first or further, or asks about it
  predicate Uses(link: Link, tx: TxId) {
    !link.deleted && tx != Row("") &&
    (link.proposed == Some(tx) ||
     (link.txId.Some? && link.txId.value != Row("") &&
      (tx == link.txId.value || (link.also.Some? && tx in link.also.value))))
  }

  // a live receipt whose live link, if it has one, is attached to nothing and asks nothing
  predicate Unanswered(start: Book, r: Receipt) {
    !r.deleted &&
    (r.id in start && !start[r.id].deleted ==>
       start[r.id].txId in {None, Some(Row(""))} && start[r.id].proposed in {None, Some(Row(""))})
  }

  function TurnedDown(start: Book, r: Receipt): seq<TxId> {
    if r.id in start && !start[r.id].deleted && start[r.id].rejected.Some? then start[r.id].rejected.value else []
  }

  lemma HoldsAre(link: Link, tx: TxId)
    ensures !link.deleted ==> (tx in Holds(link) <==> Uses(link, tx))
  {
    if link.txId.Some? {
      var all := [link.txId.value] + OrEmpty(link.also);
      WithoutMembers(all, NO_ID);
      DistinctOnce(Without(all, NO_ID));
    }
  }

  lemma SpokenForIs(book: Book, tx: TxId)
    ensures tx in SpokenFor(book) <==> exists id :: id in book && Uses(book[id], tx)
  {
    forall id | id in book && !book[id].deleted ensures tx in Holds(book[id]) <==> Uses(book[id], tx) {
      HoldsAre(book[id], tx);
    }
  }

  lemma {:induction false} AsksGrow(start: Book, receipts: seq<Receipt>, txs: seq<TxId>, best: Matcher, i: nat)
    requires i <= |receipts|
    ensures PassOver(start, receipts[..i], txs, best).asks <= PassOver(start, receipts, txs, best).asks
  {
    if i < |receipts| {
      var n := |receipts| - 1;
      AsksGrow(start, receipts[..n], txs, best, i);
      assert receipts[..n][..i] == receipts[..i];
    } else {
      assert receipts[..i] == receipts;
    }
  }

  predicate AskedAbout(asks: seq<(ReceiptId, TxId)>, tx: TxId) {
    exists k :: 0 <= k < |asks| && asks[k].1 == tx
  }

  // every transaction a live link had to do with when the pass began, or the pass asked about so far
  ghost predicate InUse(start: Book, asks: seq<(ReceiptId, TxId)>, used: set<TxId>) {
    forall tx :: tx in used <==>
      (exists id :: id in start && Uses(start[id], tx)) || AskedAbout(asks, tx)
  }

  lemma {:induction false} TakenIs(start: Book, receipts: seq<Receipt>, txs: seq<TxId>, best: Matcher)
    ensures var p := PassOver(start, receipts, txs, best); InUse(start, p.asks, p.taken)
  {
    var p := PassOver(start, receipts, txs, best);
    if receipts == [] {
      forall tx ensures tx in p.taken <==> exists id :: id in start && Uses(start[id], tx) {
        SpokenForIs(start, tx);
      }
    } else {
      var q := PassOver(start, receipts[..|receipts| - 1], txs, best);
      TakenIs(start, receipts[..|receipts| - 1], txs, best);
      if p.asks != q.asks {
        var ask := p.asks[|q.asks|];
        assert p.asks == q.asks + [ask] && p.taken == q.taken + {ask.1};
        forall tx ensures AskedAbout(p.asks, tx) <==> AskedAbout(q.asks, tx) || tx == ask.1 {
          assert p.asks[|q.asks|].1 == ask.1;
          assert forall k :: 0 <= k < |q.asks| ==> p.asks[k] == q.asks[k];
        }
      }
    }
  }

  // the answer for one receipt, given what was asked before it
  lemma LastDecided(start: Book, receipts: seq<Receipt>, txs: seq<TxId>, best: Matcher)
    requires receipts != []
    ensures var n := |receipts| - 1; var r := receipts[n];
      var p, q := PassOver(start, receipts, txs, best), PassOver(start, receipts[..n], txs, best);
      var found := best(r, Outside(txs, TurnedDown(start, r)), q.taken);
      p.asks == if Unanswered(start, r) && found.Some? && found.value != Row("") then q.asks + [(r.id, found.value)]
                else q.asks
  {
  }

  lemma {:induction false} NotAskedLater(
    start: Book, receipts: seq<Receipt>, txs: seq<TxId>, best: Matcher, i: nat, k: nat)
    requires EachOnce(receipts) && i < |receipts|
    requires |PassOver(start, receipts[..i + 1], txs, best).asks| <= k < |PassOver(start, receipts, txs, best).asks|
    ensures PassOver(start, receipts, txs, best).asks[k].0 != receipts[i].id
    decreases |receipts|
  {
    var n := |receipts| - 1;
    assert receipts[..|receipts|] == receipts;
    if i < n && k < |PassOver(start, receipts[..n], txs, best).asks| {
      assert receipts[..n][..i + 1] == receipts[..i + 1];
      NotAskedLater(start, receipts[..n], txs, best, i, k);
    }
  }

  /** A pass asks about a receipt if and only if the receipt is live, nothing is attached or asked yet, and
      the matcher names one of the space's transactions that were not turned down, knowing every transaction
      that a live link uses or that was asked about before; it asks about just that one. */
  lemma PassDecides(start: Book, receipts: seq<Receipt>, txs: seq<TxId>, best: Matcher, i: nat)
    returns (m: nat, used: set<TxId>)
    requires EachOnce(receipts) && i < |receipts|
    ensures var r, asks := receipts[i], PassOver(start, receipts, txs, best).asks;
      var found := best(r, Outside(txs, TurnedDown(start, r)), used);
      && m <= |asks| && InUse(start, asks[..m], used)
      && if Unanswered(start, r) && found.Some? && found.value != Row("")
         then m < |asks| && asks[m] == (r.id, found.value) else !AskedFor(asks, r.id)
  {
    var before, upto := PassOver(start, receipts[..i], txs, best), PassOver(start, receipts[..i + 1], txs, best);
    var p, r := PassOver(start, receipts, txs, best), receipts[i];
    m, used := |before.asks|, before.taken;
    TakenIs(start, receipts[..i], txs, best);
    AsksGrow(start, receipts, txs, best, i + 1);
    assert receipts[..i + 1][..i] == receipts[..i];
    LastDecided(start, receipts[..i + 1], txs, best);
    assert p.asks[..m] == before.asks;
    forall k | |upto.asks| <= k < |p.asks| ensures p.asks[k].0 != r.id {
      NotAskedLater(start, receipts, txs, best, i, k);
    }
    OnlyReceiptsAreAskedFor(start, receipts[..i], txs, best, r.id);
    NotBefore(p.asks, before.asks, r.id);
  }

  lemma NotBefore(asks: seq<(ReceiptId, TxId)>, before: seq<(ReceiptId, TxId)>, id: ReceiptId)
    requires before <= asks && !AskedFor(before, id)
    ensures forall k :: 0 <= k < |before| ==> asks[k].0 != id
  {
    forall k | 0 <= k < |before| ensures asks[k].0 != id {
      assert asks[k] == before[k];
    }
  }

  /** A link is marked automatic only by a write that says so; attaching to one more transaction and
      agreeing to a question take the mark away. */
  lemma AutoIsTheMachines(book: Book, a: Act)
    requires Enabled(book, a)
    ensures forall id :: LiveLink(Next(book, a), id) && Next(book, a)[id].auto ==>
      (a.Write? && a.id == id && a.auto) || (LiveLink(book, id) && book[id].auto)
    ensures a.Attach? && a.tx !in Proves(book, a.id) ==> !Next(book, a)[a.id].auto
    ensures a.Accept? && Named(book[a.id].proposed) ==> !Next(book, a)[a.id].auto
  {
  }
}
