/**
 Receipts of one space. A link row says which transactions a receipt proves (the first in
 `txId`, the others in `also`), or which one the matcher asks about, and which ones a person
 turned down. A removed link is a tombstone, and the next write revives it field by field.
 */
module ReceiptLinks {
  import opened Records

  type ReceiptId = string

  // the empty text id, which the program reads as no id
  const NO_ID := Row("")

  predicate Named(id: Option<TxId>) {
    id.Some? && id.value != NO_ID
  }

  datatype Link = Link(
    txId: Option<TxId>, also: Option<seq<TxId>>, proposed: Option<TxId>,
    rejected: Option<seq<TxId>>, auto: bool, deleted: bool)

  type Book = map<ReceiptId, Link>

  function OrEmpty(s: Option<seq<TxId>>): seq<TxId> {
    match s case Some(ids) => ids case None => []
  }

  function OrNone(s: seq<TxId>): Option<seq<TxId>> {
    if s == [] then None else Some(s)
  }

  // first occurrences, in order
  function Distinct(s: seq<TxId>): seq<TxId> {
    if s == [] then []
    else
      var seen := Distinct(s[..|s| - 1]);
      if s[|s| - 1] in seen then seen else seen + [s[|s| - 1]]
  }

  function Without(s: seq<TxId>, tx: TxId): seq<TxId> {
    if s == [] then []
    else
      var rest := Without(s[..|s| - 1], tx);
      if s[|s| - 1] == tx then rest else rest + [s[|s| - 1]]
  }

  function LinkedTxIds(link: Link): seq<TxId> {
    if !Named(link.txId) then [] else Distinct(Without([link.txId.value] + OrEmpty(link.also), NO_ID))
  }

  predicate IsLinkedTo(link: Link, tx: TxId) {
    tx in LinkedTxIds(link)
  }

  predicate LiveLink(book: Book, id: ReceiptId) {
    id in book && !book[id].deleted
  }

  // the row a write of some fields starts from
  function Stored(book: Book, id: ReceiptId): Link {
    if id in book then book[id] else Link(None, None, None, None, false, false)
  }

  // ---- what each operation leaves behind ----

  function Written(book: Book, id: ReceiptId, tx: Option<TxId>, auto: bool): Book {
    book[id := Stored(book, id).(txId := tx, also := None, auto := auto, proposed := None, deleted := false)]
  }

  function Attached(book: Book, id: ReceiptId, tx: TxId): Book {
    if !LiveLink(book, id) || !Named(book[id].txId) then Written(book, id, Some(tx), false)
    else if IsLinkedTo(book[id], tx) then book
    else
      var others := Without(LinkedTxIds(book[id]), book[id].txId.value);
      book[id := book[id].(also := Some(others + [tx]), auto := false, proposed := None)]
  }

  function Detached(book: Book, id: ReceiptId, tx: TxId): Book
    requires LiveLink(book, id)
  {
    var linked := LinkedTxIds(book[id]);
    var left := Without(linked, tx);
    if tx !in linked then book
    else if left == [] then book[id := book[id].(deleted := true)]
    else book[id := book[id].(txId := Some(left[0]), also := OrNone(left[1..]))]
  }

  function Proposed(book: Book, id: ReceiptId, tx: TxId): Book {
    book[id := Stored(book, id).(txId := None, also := None, auto := false, proposed := Some(tx), deleted := false)]
  }

  function Accepted(book: Book, id: ReceiptId): Book
    requires LiveLink(book, id)
  {
    if !Named(book[id].proposed) then book
    else book[id := book[id].(txId := book[id].proposed, proposed := None, auto := false)]
  }

  function Rejected(book: Book, id: ReceiptId): Book
    requires LiveLink(book, id)
  {
    if !Named(book[id].proposed) then book
    else
      var rejected := Distinct(OrEmpty(book[id].rejected) + [book[id].proposed.value]);
      book[id := book[id].(proposed := None, rejected := Some(rejected))]
  }

  // ---- the operations ----

  /** The link rows of one space. Screens hand over a live link's id. */
  class LinkStore {
    var book: Book

    constructor ()
      ensures book == map[]
    {
      book := map[];
    }

    method Upsert(id: ReceiptId, link: Link)
      modifies this
      ensures book == old(book)[id := link.(deleted := false)]
    {
      book := book[id := link.(deleted := false)];
    }

    method WriteReceiptLink(id: ReceiptId, tx: Option<TxId>, auto: bool)
      modifies this
      ensures book == Written(old(book), id, tx, auto)
    {
      Upsert(id, Stored(book, id).(txId := tx, also := None, auto := auto, proposed := None));
    }

    method AttachReceiptTo(id: ReceiptId, tx: TxId)
      modifies this
      ensures book == Attached(old(book), id, tx)
    {
      if !(id in book) || book[id].deleted || !Named(book[id].txId) {
        WriteReceiptLink(id, Some(tx), false);
        return;
      }
      var link := book[id];
      if IsLinkedTo(link, tx) {
        return;
      }
      var also := Without(LinkedTxIds(link), link.txId.value) + [tx];
      Upsert(id, link.(also := Some(also), auto := false, proposed := None));
    }

    method DetachReceiptFrom(id: ReceiptId, tx: TxId)
      requires LiveLink(book, id)
      modifies this
      ensures book == Detached(old(book), id, tx)
    {
      var linked := LinkedTxIds(book[id]);
      if tx !in linked {
        return;
      }
      var left := Without(linked, tx);
      if left == [] {
        book := book[id := book[id].(deleted := true)];
        return;
      }
      Upsert(id, book[id].(txId := Some(left[0]), also := OrNone(left[1..])));
    }

    method WriteProposedLink(id: ReceiptId, tx: TxId)
      modifies this
      ensures book == Proposed(old(book), id, tx)
    {
      Upsert(id, Stored(book, id).(txId := None, also := None, auto := false, proposed := Some(tx)));
    }

    method AcceptProposal(id: ReceiptId)
      requires LiveLink(book, id)
      modifies this
      ensures book == Accepted(old(book), id)
    {
      if Named(book[id].proposed) {
        Upsert(id, book[id].(txId := book[id].proposed, proposed := None, auto := false));
      }
    }

    method RejectProposal(id: ReceiptId)
      requires LiveLink(book, id)
      modifies this
      ensures book == Rejected(old(book), id)
    {
      if Named(book[id].proposed) {
        var rejected := Distinct(OrEmpty(book[id].rejected) + [book[id].proposed.value]);
        Upsert(id, book[id].(proposed := None, rejected := Some(rejected)));
      }
    }

    /** One matching pass: what is asked is decided against the links as they were when it began. */
    method MatchReceiptsIntoSpace(receipts: seq<Receipt>, txs: seq<TxId>, best: Matcher) returns (proposed: nat)
      modifies this
      ensures book == PassOver(old(book), receipts, txs, best).book
      ensures proposed == |PassOver(old(book), receipts, txs, best).asks|
    {
      ghost var start := book;
      var linkById := book;
      var taken := SpokenFor(book);
      proposed := 0;
      for i := 0 to |receipts|
        invariant linkById == start
        invariant book == PassOver(start, receipts[..i], txs, best).book
        invariant taken == PassOver(start, receipts[..i], txs, best).taken
        invariant proposed == |PassOver(start, receipts[..i], txs, best).asks|
      {
        assert receipts[..i + 1][..i] == receipts[..i];
        var receipt := receipts[i];
        if receipt.deleted {
          continue;
        }
        if LiveLink(linkById, receipt.id) &&
           (Named(linkById[receipt.id].txId) || Named(linkById[receipt.id].proposed)) {
          continue;
        }
        var rejected := if LiveLink(linkById, receipt.id) then OrEmpty(linkById[receipt.id].rejected) else [];
        var tx := best(receipt, Outside(txs, rejected), taken);
        if !Named(tx) {
          continue;
        }
        taken := taken + {tx.value};
        WriteProposedLink(receipt.id, tx.value);
        proposed := proposed + 1;
      }
      assert receipts[..|receipts|] == receipts;
    }
  }

  // ---- the matching pass ----

  datatype Receipt = Receipt(id: ReceiptId, deleted: bool, date: Date, totalCents: int)

  // the rung-1 rule: a receipt, the rows it may take, the rows spoken for
  type Matcher = (Receipt, seq<TxId>, set<TxId>) -> Option<TxId>

  // it answers with one of the rows offered that is not spoken for
  ghost predicate Matches(best: Matcher) {
    forall r: Receipt, txs: seq<TxId>, taken: set<TxId> ::
      best(r, txs, taken).Some? ==> best(r, txs, taken).value in txs && best(r, txs, taken).value !in taken
  }

  function Outside(txs: seq<TxId>, rejected: seq<TxId>): seq<TxId> {
    if txs == [] then []
    else
      var rest := Outside(txs[..|txs| - 1], rejected);
      if txs[|txs| - 1] in rejected then rest else rest + [txs[|txs| - 1]]
  }

  function Holds(link: Link): set<TxId> {
    (set tx | tx in LinkedTxIds(link)) + (if Named(link.proposed) then {link.proposed.value} else {})
  }

  // every transaction a live link is attached to or asks about
  function SpokenFor(book: Book): set<TxId> {
    set id, tx | id in book && !book[id].deleted && tx in Holds(book[id]) :: tx
  }

  datatype Pass = Pass(book: Book, taken: set<TxId>, asks: seq<(ReceiptId, TxId)>)

  predicate Open(start: Book, r: Receipt) {
    !r.deleted &&
    (LiveLink(start, r.id) ==> !Named(start[r.id].txId) && !Named(start[r.id].proposed))
  }

  function LiveRejections(book: Book, id: ReceiptId): seq<TxId> {
    if LiveLink(book, id) then OrEmpty(book[id].rejected) else []
  }

  function PassOver(start: Book, receipts: seq<Receipt>, txs: seq<TxId>, best: Matcher): Pass {
    if receipts == [] then Pass(start, SpokenFor(start), [])
    else
      var r := receipts[|receipts| - 1];
      var done := PassOver(start, receipts[..|receipts| - 1], txs, best);
      var tx := best(r, Outside(txs, LiveRejections(start, r.id)), done.taken);
      if !Open(start, r) || !Named(tx) then done
      else Pass(Proposed(done.book, r.id, tx.value), done.taken + {tx.value}, done.asks + [(r.id, tx.value)])
  }

  // ---- sequences without repeats ----

  lemma {:induction false} DistinctOnce(s: seq<TxId>)
    ensures Once(Distinct(s))
    ensures forall x :: x in Distinct(s) <==> x in s
    ensures Once(s) ==> Distinct(s) == s
    ensures s != [] ==> Distinct(s) != [] && Distinct(s)[0] == s[0]
  {
    if s != [] {
      var rest := s[..|s| - 1];
      DistinctOnce(rest);
      assert s == rest + [s[|s| - 1]];
      assert Once(s) ==> s[|s| - 1] !in rest;
    }
  }

  lemma {:induction false} WithoutMembers(s: seq<TxId>, tx: TxId)
    ensures forall x :: x in Without(s, tx) <==> x in s && x != tx
  {
    if s != [] {
      var rest := s[..|s| - 1];
      WithoutMembers(rest, tx);
      assert forall x :: x in s <==> x in rest || x == s[|s| - 1];
    }
  }

  lemma {:induction false} WithoutOnce(s: seq<TxId>, tx: TxId)
    requires Once(s)
    ensures Once(Without(s, tx))
  {
    if s != [] {
      var rest := s[..|s| - 1];
      WithoutOnce(rest, tx);
      WithoutMembers(rest, tx);
      assert s[|s| - 1] !in rest;
    }
  }

  lemma {:induction false} WithoutAbsent(s: seq<TxId>, tx: TxId)
    requires tx !in s
    ensures Without(s, tx) == s
  {
    if s != [] {
      var rest := s[..|s| - 1];
      WithoutAbsent(rest, tx);
      assert s == rest + [s[|s| - 1]];
    }
  }

  lemma {:induction false} WithoutKeepsFirst(s: seq<TxId>, tx: TxId)
    requires s != [] && s[0] != tx
    ensures Without(s, tx) != [] && Without(s, tx)[0] == s[0]
  {
    if |s| > 1 {
      WithoutKeepsFirst(s[..|s| - 1], tx);
    } else {
      assert Without(s[..0], tx) == [];
    }
  }

  lemma WithoutKeepsTheRest(s: seq<TxId>, tx: TxId)
    ensures forall x :: x in Without(s, tx) <==> x in s && x != tx
    ensures Once(s) ==> Once(Without(s, tx))
    ensures tx !in s ==> Without(s, tx) == s
    ensures s != [] && s[0] != tx ==> Without(s, tx) != [] && Without(s, tx)[0] == s[0]
  {
    WithoutMembers(s, tx);
    if Once(s) { WithoutOnce(s, tx); }
    if tx !in s { WithoutAbsent(s, tx); }
    if s != [] && s[0] != tx { WithoutKeepsFirst(s, tx); }
  }

  lemma {:induction false} WithoutTheFirst(s: seq<TxId>)
    requires s != [] && Once(s)
    ensures Without(s, s[0]) == s[1..]
  {
    var rest := s[..|s| - 1];
    if rest == [] {
      assert Without(rest, s[0]) == [];
    } else {
      WithoutTheFirst(rest);
      assert s[1..] == rest[1..] + [s[|s| - 1]];
      assert s[|s| - 1] != s[0];
    }
  }

  // a link written from a clean list of attachments proves exactly that list
  lemma ListRoundTrip(link: Link, ids: seq<TxId>)
    requires ids != [] && Once(ids) && NO_ID !in ids
    requires link.txId == Some(ids[0]) && OrEmpty(link.also) == ids[1..]
    ensures LinkedTxIds(link) == ids
  {
    assert [ids[0]] + ids[1..] == ids;
    WithoutKeepsTheRest(ids, NO_ID);
    DistinctOnce(ids);
  }

  // the first attachment comes first, nothing twice, nothing unnamed
  lemma LinkedShape(link: Link)
    ensures var linked := LinkedTxIds(link);
      Once(linked) && NO_ID !in linked && (linked == [] <==> !Named(link.txId)) &&
      (linked != [] ==> linked[0] == link.txId.value)
  {
    if Named(link.txId) {
      var all := [link.txId.value] + OrEmpty(link.also);
      WithoutKeepsTheRest(all, NO_ID);
      DistinctOnce(Without(all, NO_ID));
    }
  }

  // ---- attach and detach ----

  function Proves(book: Book, id: ReceiptId): seq<TxId> {
    if LiveLink(book, id) then LinkedTxIds(book[id]) else []
  }

  ghost predicate OthersKept(was: Book, now: Book, id: ReceiptId) {
    forall other :: other != id ==> (other in was <==> other in now) && (other in was ==> was[other] == now[other])
  }

  /** Attaching appends the transaction unless the receipt proves it already, and settles what was asked. */
  lemma AttachAppends(book: Book, id: ReceiptId, tx: TxId)
    requires tx != NO_ID
    ensures var was := Proves(book, id);
      Proves(Attached(book, id, tx), id) == if tx in was then was else was + [tx]
    ensures OthersKept(book, Attached(book, id, tx), id)
    ensures tx !in Proves(book, id) ==> Attached(book, id, tx)[id].proposed.None?
  {
    AttachedElsewhere(book, id, tx);
    if Proves(book, id) == [] {
      AttachFirst(book, id, tx);
    } else if tx in Proves(book, id) {
      AttachAgain(book, id, tx);
    } else {
      AttachToMore(book, id, tx);
    }
  }

  lemma AttachedElsewhere(book: Book, id: ReceiptId, tx: TxId)
    ensures OthersKept(book, Attached(book, id, tx), id)
    ensures tx !in Proves(book, id) ==> id in Attached(book, id, tx) && Attached(book, id, tx)[id].proposed.None?
  {
  }

  lemma AttachAgain(book: Book, id: ReceiptId, tx: TxId)
    requires tx in Proves(book, id)
    ensures Proves(Attached(book, id, tx), id) == Proves(book, id)
  {
  }

  lemma AttachFirst(book: Book, id: ReceiptId, tx: TxId)
    requires tx != NO_ID && Proves(book, id) == []
    ensures Proves(Attached(book, id, tx), id) == [tx]
  {
    if LiveLink(book, id) {
      LinkedShape(book[id]);
    }
    ListRoundTrip(Attached(book, id, tx)[id], [tx]);
  }

  lemma AttachToMore(book: Book, id: ReceiptId, tx: TxId)
    requires tx != NO_ID && Proves(book, id) != [] && tx !in Proves(book, id)
    ensures Proves(Attached(book, id, tx), id) == Proves(book, id) + [tx]
  {
    var linked := Proves(book, id);
    LinkedShape(book[id]);
    WithoutTheFirst(linked);
    var now := Attached(book, id, tx)[id];
    assert (linked + [tx])[1..] == linked[1..] + [tx];
    assert now.txId == Some(linked[0]) && OrEmpty(now.also) == linked[1..] + [tx];
    ListRoundTrip(now, linked + [tx]);
  }

  /** Detaching drops that transaction alone, keeps the others in order, and takes an emptied link with it. */
  lemma DetachDrops(book: Book, id: ReceiptId, tx: TxId)
    requires LiveLink(book, id)
    ensures Proves(Detached(book, id, tx), id) == Without(Proves(book, id), tx)
    ensures OthersKept(book, Detached(book, id, tx), id)
    ensures tx in Proves(book, id) ==>
              (LiveLink(Detached(book, id, tx), id) <==> Without(Proves(book, id), tx) != [])
  {
    var linked := Proves(book, id);
    LinkedShape(book[id]);
    WithoutKeepsTheRest(linked, tx);
    var left := Without(linked, tx);
    if tx in linked && left != [] {
      ListRoundTrip(Detached(book, id, tx)[id], left);
    }
  }

  /** Attach, then detach: the receipt proves the very same sequence again. */
  lemma DetachUndoesAttach(book: Book, id: ReceiptId, tx: TxId)
    requires tx != NO_ID && tx !in Proves(book, id)
    ensures Proves(Detached(Attached(book, id, tx), id, tx), id) == Proves(book, id)
  {
    AttachAppends(book, id, tx);
    DetachDrops(Attached(book, id, tx), id, tx);
    var was := Proves(book, id);
    assert (was + [tx])[..|was|] == was;
    WithoutKeepsTheRest(was, tx);
  }

  // ---- what every run of operations keeps ----

  datatype Act =
    | Write(id: ReceiptId, at: Option<TxId>, auto: bool)
    | Attach(id: ReceiptId, tx: TxId)
    | Detach(id: ReceiptId, tx: TxId)
    | Propose(id: ReceiptId, tx: TxId)
    | Accept(id: ReceiptId)
    | Reject(id: ReceiptId)

  // screens act on live links; the matcher asks only where nothing is attached, asked or turned down
  predicate Enabled(book: Book, a: Act) {
    match a
    case Write(_, tx, _) => tx != Some(NO_ID)
    case Attach(_, tx) => tx != NO_ID
    case Propose(id, tx) =>
      tx != NO_ID && tx !in LiveRejections(book, id) &&
      (LiveLink(book, id) ==> !Named(book[id].txId) && !Named(book[id].proposed))
    case _ => LiveLink(book, a.id)
  }

  function Next(book: Book, a: Act): Book
    requires Enabled(book, a)
  {
    match a
    case Write(id, tx, auto) => Written(book, id, tx, auto)
    case Attach(id, tx) => Attached(book, id, tx)
    case Detach(id, tx) => Detached(book, id, tx)
    case Propose(id, tx) => Proposed(book, id, tx)
    case Accept(id) => Accepted(book, id)
    case Reject(id) => Rejected(book, id)
  }

  predicate EnabledRun(book: Book, acts: seq<Act>)
    decreases |acts|
  {
    acts == [] || (Enabled(book, acts[0]) && EnabledRun(Next(book, acts[0]), acts[1..]))
  }

  function Run(book: Book, acts: seq<Act>): Book
    requires EnabledRun(book, acts)
    decreases |acts|
  {
    if acts == [] then book else Run(Next(book, acts[0]), acts[1..])
  }

  // the primary is not among the others, nothing is both attached and asked, no refusal twice
  ghost predicate Tidy(link: Link) {
    && (Named(link.txId) ==> link.txId.value !in OrEmpty(link.also) && link.proposed.None?)
    && (!Named(link.txId) ==> link.txId.None? && link.also.None?)
    && Once(OrEmpty(link.also)) && NO_ID !in OrEmpty(link.also) && link.also != Some([])
    && Once(OrEmpty(link.rejected))
    && link.proposed != Some(NO_ID)
  }

  ghost predicate TidyBook(book: Book) {
    forall id :: id in book ==> Tidy(book[id])
  }

  lemma TidyAttach(book: Book, id: ReceiptId, tx: TxId)
    requires TidyBook(book) && tx != NO_ID
    ensures TidyBook(Attached(book, id, tx))
  {
    if LiveLink(book, id) && Named(book[id].txId) && !IsLinkedTo(book[id], tx) {
      TidyMore(book[id], tx);
    }
  }

  // one more attachment next to the primary
  lemma TidyMore(link: Link, tx: TxId)
    requires Tidy(link) && tx != NO_ID && Named(link.txId) && !IsLinkedTo(link, tx)
    ensures var others := Without(LinkedTxIds(link), link.txId.value);
      Tidy(link.(also := Some(others + [tx]), auto := false, proposed := None))
  {
    LinkedShape(link);
    WithoutTheFirst(LinkedTxIds(link));
  }

  lemma TidyDetach(book: Book, id: ReceiptId, tx: TxId)
    requires TidyBook(book) && LiveLink(book, id)
    ensures TidyBook(Detached(book, id, tx))
  {
    var left := Without(LinkedTxIds(book[id]), tx);
    if tx in LinkedTxIds(book[id]) && left != [] {
      TidyLess(book[id], tx);
    }
  }

  lemma OnceTail(s: seq<TxId>)
    requires Once(s) && s != []
    ensures Once(s[1..]) && s[0] !in s[1..] && forall x :: x in s[1..] ==> x in s
  {
  }

  // one attachment fewer, the next one first
  lemma TidyLess(link: Link, tx: TxId)
    requires Tidy(link) && tx in LinkedTxIds(link) && Without(LinkedTxIds(link), tx) != []
    ensures var left := Without(LinkedTxIds(link), tx);
      Tidy(link.(txId := Some(left[0]), also := OrNone(left[1..])))
  {
    var left := Without(LinkedTxIds(link), tx);
    LinkedShape(link);
    WithoutKeepsTheRest(LinkedTxIds(link), tx);
    OnceTail(left);
    assert OrEmpty(OrNone(left[1..])) == left[1..];
  }

  lemma TidyReject(book: Book, id: ReceiptId)
    requires TidyBook(book) && LiveLink(book, id)
    ensures TidyBook(Rejected(book, id))
  {
    if Named(book[id].proposed) {
      DistinctOnce(OrEmpty(book[id].rejected) + [book[id].proposed.value]);
    }
  }

  lemma TidyStep(book: Book, a: Act)
    requires TidyBook(book) && Enabled(book, a)
    ensures TidyBook(Next(book, a))
  {
    match a
    case Attach(id, tx) => TidyAttach(book, id, tx);
    case Detach(id, tx) => TidyDetach(book, id, tx);
    case Reject(id) => TidyReject(book, id);
    case _ =>
  }

  /** Over every run the primary never repeats, and no link holds an attachment and a proposal at once. */
  lemma {:induction false} LinksStayTidy(book: Book, acts: seq<Act>)
    requires TidyBook(book) && EnabledRun(book, acts)
    ensures TidyBook(Run(book, acts))
    decreases |acts|
  {
    if acts != [] {
      TidyStep(book, acts[0]);
      LinksStayTidy(Next(book, acts[0]), acts[1..]);
    }
  }

  /** Agreeing makes the one transaction asked about the one attachment; disagreeing attaches nothing. */
  lemma AnswersSettle(book: Book, id: ReceiptId)
    requires TidyBook(book) && LiveLink(book, id) && Named(book[id].proposed)
    ensures Proves(Accepted(book, id), id) == [book[id].proposed.value]
    ensures Proves(Rejected(book, id), id) == []
    ensures book[id].proposed.value in Refused(Rejected(book, id), id)
    ensures Accepted(book, id)[id].proposed.None? && Rejected(book, id)[id].proposed.None?
  {
    AgreeingAttaches(book, id);
    DisagreeingIsRemembered(book, id);
  }

  lemma AgreeingAttaches(book: Book, id: ReceiptId)
    requires TidyBook(book) && LiveLink(book, id) && Named(book[id].proposed)
    ensures Proves(Accepted(book, id), id) == [book[id].proposed.value] && Accepted(book, id)[id].proposed.None?
  {
    ListRoundTrip(Accepted(book, id)[id], [book[id].proposed.value]);
  }

  lemma DisagreeingIsRemembered(book: Book, id: ReceiptId)
    requires TidyBook(book) && LiveLink(book, id) && Named(book[id].proposed)
    ensures Proves(Rejected(book, id), id) == [] && Rejected(book, id)[id].proposed.None?
    ensures book[id].proposed.value in Refused(Rejected(book, id), id)
  {
    DistinctOnce(OrEmpty(book[id].rejected) + [book[id].proposed.value]);
  }

  function Refused(book: Book, id: ReceiptId): seq<TxId> {
    if id in book then OrEmpty(book[id].rejected) else []
  }

  lemma DistinctExtends(s: seq<TxId>, tx: TxId)
    requires Once(s)
    ensures s <= Distinct(s + [tx])
  {
    DistinctOnce(s);
    assert (s + [tx])[..|s|] == s;
  }

  lemma RefusalStep(book: Book, a: Act, id: ReceiptId)
    requires TidyBook(book) && Enabled(book, a)
    ensures Refused(book, id) <= Refused(Next(book, a), id)
  {
    match a
    case Reject(at) => RejectKeepsRefusals(book, at, id);
    case _ => RefusedAsStored(book, a, id);
  }

  lemma RejectKeepsRefusals(book: Book, at: ReceiptId, id: ReceiptId)
    requires TidyBook(book) && LiveLink(book, at)
    ensures Refused(book, id) <= Refused(Rejected(book, at), id)
  {
    if Named(book[at].proposed) {
      DistinctExtends(OrEmpty(book[at].rejected), book[at].proposed.value);
    }
  }

  lemma RefusedAsStored(book: Book, a: Act, id: ReceiptId)
    requires Enabled(book, a) && !a.Reject?
    ensures Refused(Next(book, a), id) == Refused(book, id)
  {
  }

  /** No operation ever takes a refusal back, not even one that removes or revives the link. */
  lemma {:induction false} RefusalsOnlyGrow(book: Book, acts: seq<Act>, id: ReceiptId)
    requires TidyBook(book) && EnabledRun(book, acts)
    ensures Refused(book, id) <= Refused(Run(book, acts), id)
    decreases |acts|
  {
    if acts != [] {
      RefusalStep(book, acts[0], id);
      TidyStep(book, acts[0]);
      RefusalsOnlyGrow(Next(book, acts[0]), acts[1..], id);
    }
  }

  // a link that asks again about something refused
  predicate AsksRefused(book: Book, id: ReceiptId) {
    LiveLink(book, id) && Named(book[id].proposed) && book[id].proposed.value in Refused(book, id)
  }

  /**
   When a refused transaction is asked about again: only when the matcher revives a removed link
   that had refused it. The pass reads the refusals of live links alone.
   */
  lemma AsksRefusedExactlyWhen(book: Book, a: Act, id: ReceiptId)
    requires TidyBook(book) && Enabled(book, a) && !AsksRefused(book, id)
    ensures AsksRefused(Next(book, a), id) <==>
              a.Propose? && a.id == id && id in book && book[id].deleted && a.tx in Refused(book, id)
  {
    if a.id == id && LiveLink(book, id) {
      LinkedShape(book[id]);
    }
  }

  lemma RunStep(book: Book, a: Act, rest: seq<Act>)
    requires Enabled(book, a) && EnabledRun(Next(book, a), rest)
    ensures EnabledRun(book, [a] + rest) && Run(book, [a] + rest) == Run(Next(book, a), rest)
  {
    assert ([a] + rest)[1..] == rest;
  }

  // a fresh proposal, refused
  lemma RefusedOnce(id: ReceiptId, tx: TxId)
    requires tx != NO_ID
    ensures Rejected(Proposed(map[], id, tx), id) == map[id := Link(None, None, None, Some([tx]), false, false)]
  {
    var b := Proposed(map[], id, tx);
    assert OrEmpty(b[id].rejected) + [tx] == [tx];
    DistinctOnce([tx]);
  }

  // one attachment come and gone leaves the tombstone
  lemma HeldOnce(book: Book, id: ReceiptId, tx: TxId)
    requires tx != NO_ID && LiveLink(book, id) && !Named(book[id].txId)
    ensures var attached := Attached(book, id, tx);
      Detached(attached, id, tx) == attached[id := attached[id].(deleted := true)]
  {
    ListRoundTrip(Attached(book, id, tx)[id], [tx]);
    WithoutTheFirst([tx]);
  }

  /** Refuse, attach elsewhere, detach, match again: the refused transaction comes back as a question. */
  lemma RemovalForgetsTheRefusal(id: ReceiptId, refused: TxId, other: TxId) returns (acts: seq<Act>)
    requires refused != NO_ID && other != NO_ID
    ensures EnabledRun(map[], acts) && AsksRefused(Run(map[], acts), id)
  {
    var b1 := Proposed(map[], id, refused);
    var b2 := Rejected(b1, id);
    RefusedOnce(id, refused);
    var b3 := Attached(b2, id, other);
    HeldOnce(b2, id, other);
    var b4 := Detached(b3, id, other);
    assert b4[id] == Link(Some(other), None, None, Some([refused]), false, true);
    acts := [];
    RunStep(b4, Propose(id, refused), acts);
    acts := [Propose(id, refused)] + acts;
    RunStep(b3, Detach(id, other), acts);
    acts := [Detach(id, other)] + acts;
    RunStep(b2, Attach(id, other), acts);
    acts := [Attach(id, other)] + acts;
    RunStep(b1, Reject(id), acts);
    acts := [Reject(id)] + acts;
    RunStep(map[], Propose(id, refused), acts);
    acts := [Propose(id, refused)] + acts;
  }

  // ---- one pass ----

  ghost predicate EachOnce(receipts: seq<Receipt>) {
    forall i, j :: 0 <= i < j < |receipts| ==> receipts[i].id != receipts[j].id
  }

  function Asked(asks: seq<(ReceiptId, TxId)>): set<TxId> {
    set ask | ask in asks :: ask.1
  }

  lemma {:induction false} OutsideIs(txs: seq<TxId>, rejected: seq<TxId>)
    ensures forall x :: x in Outside(txs, rejected) <==> x in txs && x !in rejected
  {
    if txs != [] {
      OutsideIs(txs[..|txs| - 1], rejected);
      assert txs == txs[..|txs| - 1] + [txs[|txs| - 1]];
    }
  }

  /**
   One pass asks about pairwise different transactions of the space, none held or asked about
   by any live link, none refused for its receipt, and only for receipts with nothing attached.
   */
  lemma {:induction false} PassAsksSafely(start: Book, receipts: seq<Receipt>, txs: seq<TxId>, best: Matcher)
    requires Matches(best)
    ensures var p := PassOver(start, receipts, txs, best);
      && p.taken == SpokenFor(start) + Asked(p.asks)
      && (forall i, j :: 0 <= i < j < |p.asks| ==> p.asks[i].1 != p.asks[j].1)
      && (forall i :: 0 <= i < |p.asks| ==> SafeAsk(start, receipts, txs, p.asks[i].0, p.asks[i].1))
  {
    if receipts != [] {
      var rest := receipts[..|receipts| - 1];
      PassAsksSafely(start, rest, txs, best);
      var r := receipts[|receipts| - 1];
      OutsideIs(txs, LiveRejections(start, r.id));
      var p, q := PassOver(start, receipts, txs, best), PassOver(start, rest, txs, best);
      forall i | 0 <= i < |q.asks| ensures SafeAsk(start, receipts, txs, q.asks[i].0, q.asks[i].1) {
        StillSafe(start, receipts, txs, q.asks[i].0, q.asks[i].1);
      }
      if p != q {
        var ask := p.asks[|q.asks|];
        assert p.asks == q.asks + [ask];
        NewAsk(start, receipts, txs, best);
        OneMoreAsked(q.asks, ask);
      }
    }
  }

  lemma StillSafe(start: Book, receipts: seq<Receipt>, txs: seq<TxId>, id: ReceiptId, tx: TxId)
    requires receipts != [] && SafeAsk(start, receipts[..|receipts| - 1], txs, id, tx)
    ensures SafeAsk(start, receipts, txs, id, tx)
  {
    var rest := receipts[..|receipts| - 1];
    var j :| 0 <= j < |rest| && rest[j].id == id && Open(start, rest[j]);
    assert receipts[j] == rest[j];
  }

  // the question asked for the last receipt, if one is
  lemma NewAsk(start: Book, receipts: seq<Receipt>, txs: seq<TxId>, best: Matcher)
    requires Matches(best) && receipts != []
    requires var q := PassOver(start, receipts[..|receipts| - 1], txs, best);
      PassOver(start, receipts, txs, best) != q && q.taken == SpokenFor(start) + Asked(q.asks)
    ensures var p, q := PassOver(start, receipts, txs, best), PassOver(start, receipts[..|receipts| - 1], txs, best);
      && |p.asks| == |q.asks| + 1
      && var ask := p.asks[|q.asks|]; SafeAsk(start, receipts, txs, ask.0, ask.1) && ask.1 !in Asked(q.asks)
  {
    var r := receipts[|receipts| - 1];
    OutsideIs(txs, LiveRejections(start, r.id));
  }

  lemma OneMoreAsked(asks: seq<(ReceiptId, TxId)>, ask: (ReceiptId, TxId))
    requires ask.1 !in Asked(asks)
    ensures Asked(asks + [ask]) == Asked(asks) + {ask.1}
    ensures forall i :: 0 <= i < |asks| ==> asks[i].1 != ask.1
  {
    forall i | 0 <= i < |asks| ensures asks[i].1 != ask.1 {
      assert asks[i] in asks;
    }
  }

  ghost predicate SafeAsk(start: Book, receipts: seq<Receipt>, txs: seq<TxId>, id: ReceiptId, tx: TxId) {
    && tx != NO_ID && tx in txs && tx !in SpokenFor(start) && tx !in LiveRejections(start, id)
    && exists j :: 0 <= j < |receipts| && receipts[j].id == id && Open(start, receipts[j])
  }

  predicate AskedFor(asks: seq<(ReceiptId, TxId)>, id: ReceiptId) {
    exists i :: 0 <= i < |asks| && asks[i].0 == id
  }

  // what the asks leave in the book
  predicate Landed(start: Book, now: Book, asks: seq<(ReceiptId, TxId)>, id: ReceiptId) {
    if AskedFor(asks, id) then
      id in now && exists i :: 0 <= i < |asks| && asks[i].0 == id && now[id] == Proposed(start, id, asks[i].1)[id]
    else if id in start then id in now && now[id] == start[id]
    else id !in now
  }

  lemma AskedForMore(asks: seq<(ReceiptId, TxId)>, ask: (ReceiptId, TxId), id: ReceiptId)
    ensures AskedFor(asks + [ask], id) <==> AskedFor(asks, id) || ask.0 == id
  {
    if ask.0 == id { assert (asks + [ask])[|asks|].0 == id; }
    if AskedFor(asks, id) {
      var i :| 0 <= i < |asks| && asks[i].0 == id;
      assert (asks + [ask])[i].0 == id;
    }
  }

  // one more ask for a receipt not asked for yet
  lemma LandedStep(start: Book, now: Book, asks: seq<(ReceiptId, TxId)>, ask: (ReceiptId, TxId), id: ReceiptId)
    requires Landed(start, now, asks, id) && Landed(start, now, asks, ask.0) && !AskedFor(asks, ask.0)
    ensures Landed(start, Proposed(now, ask.0, ask.1), asks + [ask], id)
  {
    AskedForMore(asks, ask, id);
    if id == ask.0 {
      assert Stored(now, id) == Stored(start, id);
      assert (asks + [ask])[|asks|] == ask;
    } else if AskedFor(asks, id) {
      var i :| 0 <= i < |asks| && asks[i].0 == id && now[id] == Proposed(start, id, asks[i].1)[id];
      assert (asks + [ask])[i] == asks[i];
    }
  }

  lemma {:induction false} OnlyReceiptsAreAskedFor(
    start: Book, receipts: seq<Receipt>, txs: seq<TxId>, best: Matcher, id: ReceiptId)
    requires forall r :: r in receipts ==> r.id != id
    ensures !AskedFor(PassOver(start, receipts, txs, best).asks, id)
  {
    if receipts != [] {
      OnlyReceiptsAreAskedFor(start, receipts[..|receipts| - 1], txs, best, id);
    }
  }

  /** The book after a pass: a proposal for every receipt asked for, every other link as it was. */
  lemma {:induction false} PassWritesTheAsks(
    start: Book, receipts: seq<Receipt>, txs: seq<TxId>, best: Matcher, id: ReceiptId)
    requires EachOnce(receipts)
    ensures var p := PassOver(start, receipts, txs, best); Landed(start, p.book, p.asks, id)
  {
    if receipts != [] {
      var n := |receipts| - 1;
      var rest, r := receipts[..n], receipts[n];
      PassWritesTheAsks(start, rest, txs, best, id);
      PassWritesTheAsks(start, rest, txs, best, r.id);
      OnlyReceiptsAreAskedFor(start, rest, txs, best, r.id);
      var p, q := PassOver(start, receipts, txs, best), PassOver(start, rest, txs, best);
      if p != q {
        LandedStep(start, q.book, q.asks, p.asks[|q.asks|], id);
      }
    }
  }

  // no transaction is asked about by one live link and held or asked about by another
  ghost predicate OneAsk(book: Book) {
    forall a, b :: LiveLink(book, a) && LiveLink(book, b) && a != b && Named(book[a].proposed) ==>
      book[a].proposed.value !in Holds(book[b])
  }

  lemma LandedHolds(start: Book, now: Book, asks: seq<(ReceiptId, TxId)>, id: ReceiptId) returns (i: int)
    requires Landed(start, now, asks, id) && LiveLink(now, id)
    ensures i < |asks|
    ensures 0 <= i ==> asks[i].0 == id && now[id].proposed == Some(asks[i].1) && Holds(now[id]) <= {asks[i].1}
    ensures i < 0 ==> LiveLink(start, id) && now[id] == start[id] && Holds(now[id]) <= SpokenFor(start)
  {
    if AskedFor(asks, id) {
      i :| 0 <= i < |asks| && asks[i].0 == id && now[id] == Proposed(start, id, asks[i].1)[id];
    } else {
      i := -1;
    }
  }

  lemma PairKeepsOneAsk(start: Book, now: Book, asks: seq<(ReceiptId, TxId)>, a: ReceiptId, b: ReceiptId)
    requires OneAsk(start) && a != b
    requires forall i, j :: 0 <= i < j < |asks| ==> asks[i].1 != asks[j].1
    requires forall i :: 0 <= i < |asks| ==> asks[i].1 !in SpokenFor(start)
    requires Landed(start, now, asks, a) && LiveLink(now, a) && Named(now[a].proposed)
    requires Landed(start, now, asks, b) && LiveLink(now, b)
    ensures now[a].proposed.value !in Holds(now[b])
  {
    var i := LandedHolds(start, now, asks, a);
    var j := LandedHolds(start, now, asks, b);
    var asked := now[a].proposed.value;
    assert asked in Holds(now[a]);
  }

  /** After a pass, as before it, every open question is about a transaction no other link has to do with. */
  lemma PassKeepsOneAsk(start: Book, receipts: seq<Receipt>, txs: seq<TxId>, best: Matcher)
    requires Matches(best) && EachOnce(receipts) && OneAsk(start)
    ensures OneAsk(PassOver(start, receipts, txs, best).book)
  {
    var p := PassOver(start, receipts, txs, best);
    PassAsksSafely(start, receipts, txs, best);
    forall a, b | LiveLink(p.book, a) && LiveLink(p.book, b) && a != b && Named(p.book[a].proposed)
      ensures p.book[a].proposed.value !in Holds(p.book[b])
    {
      PassWritesTheAsks(start, receipts, txs, best, a);
      PassWritesTheAsks(start, receipts, txs, best, b);
      PairKeepsOneAsk(start, p.book, p.asks, a, b);
    }
  }

}
