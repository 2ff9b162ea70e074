/**
 Reconciling a statement-imported account with its bank-fed twin. The connection is the
 truth: a matched import hands its edits to the truth row, every judged import is removed,
 and what named a removed row is re-pointed or dropped. A merge also moves the surviving
 history and retires the imported account.
 */
module Reconcile {
  import opened Records
  import R = ReceiptLinks

  // `ops` holds each opinion field as stored: absent, null or a value
  datatype Row = Row(spaceId: SpaceId, accountId: AccountId, deleted: bool, ops: Patch)
  datatype Overlay = Overlay(deleted: bool, ops: Patch)
  datatype SpaceLink = SpaceLink(spaceId: SpaceId, accountId: AccountId, deleted: bool)

  // `spaces` are the live ones; the rows of a feed carry a space id outside it
  datatype Books = Books(
    spaces: set<SpaceId>,
    txs: map<TxId, Row>,
    metas: map<(SpaceId, TxId), Overlay>,
    receipts: map<(SpaceId, R.ReceiptId), R.Link>,
    links: map<string, SpaceLink>,
    accounts: map<AccountId, bool>)

  // the plan's copy of an import, and the truth row that confirms it
  datatype Match = Match(imported: TxId, ops: Patch, linked: TxId)

  datatype Plan = Plan(matches: seq<Match>, mismatched: seq<TxId>, kept: seq<TxId>)

  // ---- opinions ----

  function Pick<T>(over: Change<T>, stored: Change<T>): Change<T> {
    if over.Keep? then stored else over
  }

  function Over(p: Patch, stored: Patch): Patch {
    Patch(
      Pick(p.catId, stored.catId), Pick(p.needsReview, stored.needsReview),
      Pick(p.notes, stored.notes), Pick(p.titleOverride, stored.titleOverride), Pick(p.cats, stored.cats),
      Pick(p.splits, stored.splits), Pick(p.reimbursements, stored.reimbursements),
      Pick(p.link, stored.link), Pick(p.peer, stored.peer),
      Pick(p.recurringId, stored.recurringId), Pick(p.eventId, stored.eventId),
      Pick(p.loanCounted, stored.loanCounted))
  }

  // the pairing and the balance flag are facts about the import's own legs and stay behind
  function PickOpinions(ops: Patch): Patch {
    ops.(peer := Keep, loanCounted := Keep)
  }

  predicate Reviewed(o: Option<Overlay>) {
    o.Some? && !o.value.deleted && o.value.ops.needsReview == Set(Some(false))
  }

  // what a space's overlay on the truth row becomes, given its overlay on the import
  function HandOver(given: Option<Overlay>, truth: Option<Overlay>): Option<Overlay> {
    var handed :=
      if given.Some? && !given.value.deleted then
        Some(Overlay(false, Over(PickOpinions(given.value.ops), if truth.Some? then truth.value.ops else NO_CHANGE)))
      else truth;
    if !Reviewed(given) && Reviewed(handed) then
      Some(handed.value.(ops := handed.value.ops.(needsReview := Set(Some(true)))))
    else handed
  }

  function OverlayAt(b: Books, space: SpaceId, tx: TxId): Option<Overlay> {
    if (space, tx) in b.metas then Some(b.metas[(space, tx)]) else None
  }

  // ---- receipts ----

  function Renamed(ids: seq<TxId>, was: TxId, now: TxId): seq<TxId> {
    if ids == [] then []
    else
      var rest := Renamed(ids[..|ids| - 1], was, now);
      rest + [if ids[|ids| - 1] == was then now else ids[|ids| - 1]]
  }

  function RepointedReceipt(link: R.Link, was: TxId, now: TxId): R.Link {
    var ids := R.Distinct(Renamed(R.LinkedTxIds(link), was, now));
    if ids == [] then link.(txId := None, also := None)
    else link.(txId := Some(ids[0]), also := R.OrNone(ids[1..]))
  }

  function ReceiptAfter(link: R.Link, m: Match): R.Link {
    if !link.deleted && R.IsLinkedTo(link, m.imported) then RepointedReceipt(link, m.imported, m.linked) else link
  }

  // ---- reimbursement links ----

  type Replacements = map<TxId, Option<TxId>>

  predicate Touches(links: seq<Reimbursement>, repl: Replacements) {
    exists i :: 0 <= i < |links| && links[i].txId in repl
  }

  function Rewritten(links: seq<Reimbursement>, repl: Replacements): seq<Reimbursement> {
    if links == [] then []
    else
      var rest := Rewritten(links[..|links| - 1], repl);
      var l := links[|links| - 1];
      if l.txId !in repl then rest + [l]
      else if R.Named(repl[l.txId]) then rest + [l.(txId := repl[l.txId].value)]
      else rest
  }

  function LinksOf(ops: Patch): seq<Reimbursement> {
    match ops.reimbursements
    case Set(Some(links)) => links
    case _ => []
  }

  /** Nothing to write when nothing named a replaced row. */
  method RewriteLinks(links: seq<Reimbursement>, repl: Replacements) returns (next: Option<seq<Reimbursement>>)
    ensures next.Some? <==> Touches(links, repl)
    ensures next.Some? ==> next.value == Rewritten(links, repl)
  {
    if !exists i :: 0 <= i < |links| && links[i].txId in repl {
      return None;
    }
    var out := [];
    for i := 0 to |links|
      invariant out == Rewritten(links[..i], repl)
    {
      assert links[..i + 1][..i] == links[..i];
      var link := links[i];
      if link.txId !in repl {
        out := out + [link];
        continue;
      }
      var target := repl[link.txId];
      if R.Named(target) {
        out := out + [link.(txId := target.value)];
      }
    }
    assert links[..|links|] == links;
    return Some(out);
  }

  function RepointedOps(ops: Patch, repl: Replacements): Patch {
    if Touches(LinksOf(ops), repl) then ops.(reimbursements := Set(Some(Rewritten(LinksOf(ops), repl)))) else ops
  }

  // ---- the books after each stage ----

  // the import's own opinions land on the truth row, if it holds any
  function Direct(b: Books, m: Match): Books
    requires m.linked in b.txs
  {
    if PickOpinions(m.ops) == NO_CHANGE then b
    else b.(txs := b.txs[m.linked := b.txs[m.linked].(
              deleted := false, ops := Over(PickOpinions(m.ops), b.txs[m.linked].ops))])
  }

  function HandedAt(b: Books, m: Match, space: SpaceId): Option<Overlay> {
    HandOver(OverlayAt(b, space, m.imported), OverlayAt(b, space, m.linked))
  }

  function OverlaysAfter(b: Books, m: Match, spaces: set<SpaceId>): set<(SpaceId, TxId)> {
    b.metas.Keys + (set s | s in spaces && HandedAt(b, m, s).Some? :: (s, m.linked))
  }

  function MetaAfter(b: Books, m: Match, spaces: set<SpaceId>, k: (SpaceId, TxId)): Option<Overlay> {
    if k.0 in spaces && k.1 == m.linked then HandedAt(b, m, k.0) else OverlayAt(b, k.0, k.1)
  }

  // one match handed over in some of the spaces
  function MigratedIn(b: Books, m: Match, spaces: set<SpaceId>): Books {
    b.(metas := map k | k in OverlaysAfter(b, m, spaces) ::
                  MetaAfter(b, m, spaces, k).value,
       receipts := map k | k in b.receipts :: if k.0 in spaces then ReceiptAfter(b.receipts[k], m) else b.receipts[k])
  }

  function Migrated(b: Books, m: Match): Books
    requires m.linked in b.txs
  {
    MigratedIn(Direct(b, m), m, b.spaces)
  }

  function OverlayAfter(o: Overlay, repl: Replacements): Overlay {
    if o.deleted then o else o.(ops := RepointedOps(o.ops, repl))
  }

  function RowAfter(row: Row, repl: Replacements): Row {
    if row.deleted then row else row.(ops := RepointedOps(row.ops, repl))
  }

  function Repointed(b: Books, repl: Replacements, spaces: set<SpaceId>): Books {
    b.(metas := map k | k in b.metas :: if k.0 in spaces then OverlayAfter(b.metas[k], repl) else b.metas[k],
       txs := map k | k in b.txs :: if b.txs[k].spaceId in spaces then RowAfter(b.txs[k], repl) else b.txs[k])
  }

  function Removed(b: Books, ids: set<TxId>): Books {
    b.(txs := map k | k in b.txs :: if k in ids then b.txs[k].(deleted := true) else b.txs[k])
  }

  // every truth row is a stored one: the plan was drawn from the store
  predicate FromStore(b: Books, matches: seq<Match>) {
    forall i :: 0 <= i < |matches| ==> matches[i].linked in b.txs
  }

  function MigratedAll(b: Books, matches: seq<Match>, ignored: set<TxId>): (r: Books)
    requires FromStore(b, matches)
    ensures r.txs.Keys == b.txs.Keys && r.spaces == b.spaces
    ensures r.links == b.links && r.accounts == b.accounts && r.receipts.Keys == b.receipts.Keys
  {
    if matches == [] then b
    else
      var m := matches[|matches| - 1];
      var done := MigratedAll(b, matches[..|matches| - 1], ignored);
      if m.imported in ignored then done else Migrated(done, m)
  }

  function HandedOver(matches: seq<Match>, ignored: set<TxId>): nat {
    if matches == [] then 0
    else HandedOver(matches[..|matches| - 1], ignored) + if matches[|matches| - 1].imported in ignored then 0 else 1
  }

  function MatchRepl(matches: seq<Match>): (r: Replacements)
    ensures forall x :: x in r ==> r[x].Some?
  {
    if matches == [] then map[]
    else MatchRepl(matches[..|matches| - 1])[matches[|matches| - 1].imported := Some(matches[|matches| - 1].linked)]
  }

  function Repl(plan: Plan): Replacements {
    MatchRepl(plan.matches) + (map x | x in plan.mismatched :: None)
  }

  function Judged(plan: Plan): set<TxId> {
    (set i | 0 <= i < |plan.matches| :: plan.matches[i].imported) + (set x | x in plan.mismatched)
  }

  function Reconciled(b: Books, plan: Plan, ignored: set<TxId>): Books
    requires FromStore(b, plan.matches)
  {
    Removed(Repointed(MigratedAll(b, plan.matches, ignored), Repl(plan), b.spaces), Judged(plan))
  }

  function Moved(b: Books, kept: seq<TxId>, account: AccountId): Books {
    b.(txs := map k | k in b.txs :: if k in kept then b.txs[k].(accountId := account, deleted := false) else b.txs[k])
  }

  function Relinked(b: Books, was: AccountId, now: AccountId): Books {
    b.(links := map k | k in b.links ::
         if b.links[k].spaceId in b.spaces && !b.links[k].deleted && b.links[k].accountId == was
         then b.links[k].(accountId := now) else b.links[k])
  }

  function Retired(b: Books, account: AccountId): Books {
    if account in b.accounts then b.(accounts := b.accounts[account := true]) else b
  }

  function Merged(b: Books, imported: AccountId, bank: AccountId, plan: Plan, ignored: set<TxId>): Books
    requires FromStore(b, plan.matches)
  {
    Retired(Relinked(Moved(Reconciled(b, plan, ignored), plan.kept, bank), imported, bank), imported)
  }

  // ---- the run ----

  class Ledger {
    var books: Books

    method HandOverIn(m: Match, space: SpaceId)
      modifies this
      ensures books == old(books).(metas := MigratedIn(old(books), m, {space}).metas)
    {
      ghost var start := books;
      var meta := OverlayAt(books, space, m.imported);
      if meta.Some? && !meta.value.deleted {
        var stored := OverlayAt(books, space, m.linked);
        var under := if stored.Some? then stored.value.ops else NO_CHANGE;
        var overlay := Overlay(false, Over(PickOpinions(meta.value.ops), under));
        books := books.(metas := books.metas[(space, m.linked) := overlay]);
      }
      if !Reviewed(meta) {
        var linkedMeta := OverlayAt(books, space, m.linked);
        if Reviewed(linkedMeta) {
          books := books.(metas := books.metas[(space, m.linked) :=
            linkedMeta.value.(ops := linkedMeta.value.ops.(needsReview := Set(Some(true))))]);
        }
      }
      assert books.metas == MigratedIn(start, m, {space}).metas;
    }

    method RepointReceiptsIn(m: Match, space: SpaceId)
      modifies this
      ensures books == old(books).(receipts := MigratedIn(old(books), m, {space}).receipts)
    {
      ghost var start := books;
      ghost var seen := {};
      var keys := set k | k in books.receipts && k.0 == space;
      while keys != {}
        invariant books.receipts.Keys == start.receipts.Keys
        invariant forall k :: k in keys || k in seen <==> k in start.receipts && k.0 == space
        invariant keys !! seen
        invariant forall k :: k in start.receipts ==>
          books.receipts[k] == if k in seen then ReceiptAfter(start.receipts[k], m) else start.receipts[k]
        invariant books == start.(receipts := books.receipts)
      {
        var k :| k in keys;
        keys, seen := keys - {k}, seen + {k};
        var link := books.receipts[k];
        if !link.deleted && R.IsLinkedTo(link, m.imported) {
          books := books.(receipts := books.receipts[k := RepointedReceipt(link, m.imported, m.linked)]);
        }
      }
      assert books.receipts == MigratedIn(start, m, {space}).receipts;
    }

    method MigrateMatch(m: Match)
      requires m.linked in books.txs
      modifies this
      ensures books == Migrated(old(books), m)
    {
      if PickOpinions(m.ops) != NO_CHANGE {
        books := books.(txs := books.txs[m.linked := books.txs[m.linked].(
          deleted := false, ops := Over(PickOpinions(m.ops), books.txs[m.linked].ops))]);
      }
      ghost var start := books;
      ghost var done: set<SpaceId> := {};
      MigratedNowhere(start, m);
      var todo := books.spaces;
      while todo != {}
        invariant done + todo == start.spaces && done !! todo
        invariant books == MigratedIn(start, m, done)
      {
        var space :| space in todo;
        MigratedOneMore(start, m, done, space);
        HandOverIn(m, space);
        RepointReceiptsIn(m, space);
        todo, done := todo - {space}, done + {space};
      }
      assert done == start.spaces;
    }

    method RepointIn(space: SpaceId, repl: Replacements)
      modifies this
      ensures books == Repointed(old(books), repl, {space})
    {
      ghost var start := books;
      RepointOverlays(space, repl);
      RepointRows(space, repl);
    }

    method RepointOverlays(space: SpaceId, repl: Replacements)
      modifies this
      ensures books == old(books).(metas := Repointed(old(books), repl, {space}).metas)
    {
      ghost var start := books;
      ghost var seen := {};
      var keys := set k | k in books.metas && k.0 == space;
      while keys != {}
        invariant books.metas.Keys == start.metas.Keys
        invariant forall k :: k in keys || k in seen <==> k in start.metas && k.0 == space
        invariant keys !! seen
        invariant forall k :: k in start.metas ==>
          books.metas[k] == if k in seen then OverlayAfter(start.metas[k], repl) else start.metas[k]
        invariant books == start.(metas := books.metas)
      {
        var k :| k in keys;
        keys, seen := keys - {k}, seen + {k};
        var row := books.metas[k];
        if !row.deleted {
          var next := RewriteLinks(LinksOf(row.ops), repl);
          if next.Some? {
            books := books.(metas := books.metas[k := row.(ops := row.ops.(reimbursements := Set(next)))]);
          }
        }
      }
      assert books.metas == Repointed(start, repl, {space}).metas;
    }

    method RepointRows(space: SpaceId, repl: Replacements)
      modifies this
      ensures books == old(books).(txs := Repointed(old(books), repl, {space}).txs)
    {
      ghost var start := books;
      ghost var seen := {};
      var keys := set k | k in books.txs && books.txs[k].spaceId == space;
      while keys != {}
        invariant books.txs.Keys == start.txs.Keys
        invariant forall k :: k in keys || k in seen <==> k in start.txs && start.txs[k].spaceId == space
        invariant keys !! seen
        invariant forall k :: k in start.txs ==>
          books.txs[k] == if k in seen then RowAfter(start.txs[k], repl) else start.txs[k]
        invariant books == start.(txs := books.txs)
      {
        var k :| k in keys;
        keys, seen := keys - {k}, seen + {k};
        var row := books.txs[k];
        if !row.deleted {
          var next := RewriteLinks(LinksOf(row.ops), repl);
          if next.Some? {
            books := books.(txs := books.txs[k := row.(ops := row.ops.(reimbursements := Set(next)))]);
          }
        }
      }
      assert books.txs == Repointed(start, repl, {space}).txs;
    }

    method RepointReimbursements(repl: Replacements)
      modifies this
      ensures books == Repointed(old(books), repl, old(books).spaces)
    {
      ghost var start := books;
      ghost var done: set<SpaceId> := {};
      RepointedNowhere(start, repl);
      var todo := books.spaces;
      while todo != {}
        invariant done + todo == start.spaces && done !! todo
        invariant books == Repointed(start, repl, done)
      {
        var space :| space in todo;
        RepointedOneMore(start, repl, done, space);
        RepointIn(space, repl);
        todo, done := todo - {space}, done + {space};
      }
      assert done == start.spaces;
    }

    method HandOverMatches(matches: seq<Match>, ignored: set<TxId>) returns (migrated: nat, repl: Replacements)
      requires FromStore(books, matches)
      modifies this
      ensures books == MigratedAll(old(books), matches, ignored)
      ensures repl == MatchRepl(matches) && migrated == HandedOver(matches, ignored)
    {
      ghost var start := books;
      repl := map[];
      migrated := 0;
      for i := 0 to |matches|
        invariant FromStore(start, matches[..i])
        invariant books == MigratedAll(start, matches[..i], ignored)
        invariant repl == MatchRepl(matches[..i]) && migrated == HandedOver(matches[..i], ignored)
      {
        assert matches[..i + 1][..i] == matches[..i];
        var m := matches[i];
        if m.imported !in ignored {
          MigrateMatch(m);
          migrated := migrated + 1;
        }
        repl := repl[m.imported := Some(m.linked)];
      }
      assert matches[..|matches|] == matches;
    }

    static method WithDropped(matched: Replacements, mismatched: seq<TxId>) returns (repl: Replacements)
      ensures repl == matched + (map x | x in mismatched :: None)
    {
      repl := matched;
      for i := 0 to |mismatched|
        invariant repl == matched + (map x | x in mismatched[..i] :: None)
      {
        assert mismatched[..i + 1] == mismatched[..i] + [mismatched[i]];
        repl := repl[mismatched[i] := None];
      }
      assert mismatched[..|mismatched|] == mismatched;
    }

    method RemoveAll(ids: seq<TxId>)
      modifies this
      ensures books == Removed(old(books), set x | x in ids)
    {
      ghost var start := books;
      for i := 0 to |ids|
        invariant books == Removed(start, set x | x in ids[..i])
      {
        assert ids[..i + 1] == ids[..i] + [ids[i]];
        if ids[i] in books.txs {
          books := books.(txs := books.txs[ids[i] := books.txs[ids[i]].(deleted := true)]);
        }
      }
      assert ids[..|ids|] == ids;
    }

    /** `ignored` only skips the hand-over: an ignored match is removed and re-pointed all the same. */
    method ApplyReconcile(plan: Plan, ignored: set<TxId>) returns (migrated: nat, removed: nat)
      requires FromStore(books, plan.matches)
      modifies this
      ensures books == Reconciled(old(books), plan, ignored)
      ensures migrated == HandedOver(plan.matches, ignored) && removed == |plan.matches| + |plan.mismatched|
    {
      var repl;
      migrated, repl := HandOverMatches(plan.matches, ignored);
      repl := WithDropped(repl, plan.mismatched);
      RepointReimbursements(repl);
      var doomed := Imports(plan.matches) + plan.mismatched;
      assert (set x | x in doomed) == Judged(plan);
      RemoveAll(doomed);
      removed := |doomed|;
    }

    method MoveKept(kept: seq<TxId>, account: AccountId)
      modifies this
      ensures books == Moved(old(books), kept, account)
    {
      ghost var start := books;
      for i := 0 to |kept|
        invariant books == Moved(start, kept[..i], account)
      {
        assert kept[..i + 1] == kept[..i] + [kept[i]];
        if kept[i] in books.txs {
          books := books.(txs := books.txs[kept[i] := books.txs[kept[i]].(accountId := account, deleted := false)]);
        }
      }
      assert kept[..|kept|] == kept;
    }

    method RelinkSpaces(was: AccountId, now: AccountId)
      modifies this
      ensures books == Relinked(old(books), was, now)
    {
      ghost var start := books;
      ghost var seen := {};
      var keys := set k | k in books.links && books.links[k].spaceId in books.spaces;
      while keys != {}
        invariant books.links.Keys == start.links.Keys
        invariant forall k :: k in keys || k in seen <==> k in start.links && start.links[k].spaceId in start.spaces
        invariant keys !! seen
        invariant forall k :: k in start.links ==>
          books.links[k] == if k in seen then Relinked(start, was, now).links[k] else start.links[k]
        invariant books == start.(links := books.links)
      {
        var k :| k in keys;
        keys, seen := keys - {k}, seen + {k};
        if !books.links[k].deleted && books.links[k].accountId == was {
          books := books.(links := books.links[k := books.links[k].(accountId := now)]);
        }
      }
      assert books.links == Relinked(start, was, now).links;
    }

    method ApplyMerge(imported: AccountId, bank: AccountId, plan: Plan, ignored: set<TxId>)
      returns (migrated: nat, removed: nat, moved: nat)
      requires FromStore(books, plan.matches)
      modifies this
      ensures books == Merged(old(books), imported, bank, plan, ignored)
      ensures migrated == HandedOver(plan.matches, ignored)
      ensures removed == |plan.matches| + |plan.mismatched| && moved == |plan.kept|
    {
      migrated, removed := ApplyReconcile(plan, ignored);
      MoveKept(plan.kept, bank);
      moved := |plan.kept|;
      RelinkSpaces(imported, bank);
      if imported in books.accounts && !books.accounts[imported] {
        books := books.(accounts := books.accounts[imported := true]);
      }
    }
  }

  function Imports(matches: seq<Match>): (ids: seq<TxId>)
    ensures |ids| == |matches|
    ensures forall i :: 0 <= i < |ids| ==> ids[i] == matches[i].imported
  {
    seq(|matches|, i requires 0 <= i < |matches| => matches[i].imported)
  }

  lemma MigratedNowhere(b: Books, m: Match)
    ensures MigratedIn(b, m, {}) == b
  {
    assert MigratedIn(b, m, {}).metas == b.metas;
    assert MigratedIn(b, m, {}).receipts == b.receipts;
  }

  lemma MigratedOneMore(b: Books, m: Match, done: set<SpaceId>, space: SpaceId)
    requires space !in done
    ensures MigratedIn(MigratedIn(b, m, done), m, {space}) == MigratedIn(b, m, done + {space})
  {
    var step := MigratedIn(b, m, done);
    HandedOneMore(b, m, done, space);
    assert MigratedIn(step, m, {space}).receipts == MigratedIn(b, m, done + {space}).receipts;
  }

  lemma OverlaysOneMore(b: Books, m: Match, done: set<SpaceId>, space: SpaceId)
    requires space !in done && HandedAt(MigratedIn(b, m, done), m, space) == HandedAt(b, m, space)
    ensures OverlaysAfter(MigratedIn(b, m, done), m, {space}) == OverlaysAfter(b, m, done + {space})
  {
    var step := MigratedIn(b, m, done);
    assert step.metas.Keys == OverlaysAfter(b, m, done);
    assert OverlaysAfter(b, m, {space}) + OverlaysAfter(b, m, done) == OverlaysAfter(b, m, done + {space});
    assert OverlaysAfter(step, m, {space}) == OverlaysAfter(b, m, {space}) + OverlaysAfter(b, m, done);
  }

  lemma MetaOneMore(b: Books, m: Match, done: set<SpaceId>, space: SpaceId, k: (SpaceId, TxId))
    requires space !in done
    ensures MetaAfter(MigratedIn(b, m, done), m, {space}, k) == MetaAfter(b, m, done + {space}, k)
  {
    var step := MigratedIn(b, m, done);
    SameOverlays(b, m, done, space);
    assert k in step.metas <==> k in OverlaysAfter(b, m, done);
  }

  lemma SameOverlays(b: Books, m: Match, done: set<SpaceId>, space: SpaceId)
    requires space !in done
    ensures HandedAt(MigratedIn(b, m, done), m, space) == HandedAt(b, m, space)
  {
    var step := MigratedIn(b, m, done);
    assert OverlayAt(step, space, m.linked) == OverlayAt(b, space, m.linked);
    assert OverlayAt(step, space, m.imported) == OverlayAt(b, space, m.imported);
  }

  lemma HandedOneMore(b: Books, m: Match, done: set<SpaceId>, space: SpaceId)
    requires space !in done
    ensures MigratedIn(MigratedIn(b, m, done), m, {space}).metas == MigratedIn(b, m, done + {space}).metas
  {
    SameOverlays(b, m, done, space);
    OverlaysOneMore(b, m, done, space);
    forall k ensures MetaAfter(MigratedIn(b, m, done), m, {space}, k) == MetaAfter(b, m, done + {space}, k) {
      MetaOneMore(b, m, done, space, k);
    }
  }

  lemma RepointedNowhere(b: Books, repl: Replacements)
    ensures Repointed(b, repl, {}) == b
  {
    assert Repointed(b, repl, {}).metas == b.metas;
    assert Repointed(b, repl, {}).txs == b.txs;
  }

  lemma RepointedOneMore(b: Books, repl: Replacements, done: set<SpaceId>, space: SpaceId)
    requires space !in done
    ensures Repointed(Repointed(b, repl, done), repl, {space}) == Repointed(b, repl, done + {space})
  {
    var step := Repointed(b, repl, done);
    assert Repointed(step, repl, {space}).metas == Repointed(b, repl, done + {space}).metas;
    assert Repointed(step, repl, {space}).txs == Repointed(b, repl, done + {space}).txs;
  }

  // ---- reimbursement links: nothing dangling, nothing lost ----

  predicate Names(links: seq<Reimbursement>, ids: set<TxId>) {
    exists i :: 0 <= i < |links| && links[i].txId in ids
  }

  // no replacement is itself replaced
  predicate Settled(repl: Replacements) {
    forall x :: x in repl && R.Named(repl[x]) ==> repl[x].value !in repl
  }

  lemma {:induction false} SettledRewrite(links: seq<Reimbursement>, repl: Replacements)
    requires Settled(repl)
    ensures !Names(Rewritten(links, repl), repl.Keys)
  {
    if links != [] {
      SettledRewrite(links[..|links| - 1], repl);
    }
  }

  /** One pass leaves no link to a replaced row, whatever the links were, exactly when no replacement is
      replaced itself. */
  lemma RewriteIsClean(repl: Replacements)
    ensures Settled(repl) <==>
      forall links: seq<Reimbursement> :: !Names(Rewritten(links, repl), repl.Keys)
  {
    if Settled(repl) {
      forall links: seq<Reimbursement> ensures !Names(Rewritten(links, repl), repl.Keys) {
        SettledRewrite(links, repl);
      }
    } else {
      var x :| x in repl && R.Named(repl[x]) && repl[x].value in repl;
      var links := [Reimbursement(x, 0)];
      ChainedRewrite(x, repl);
      assert exists ls: seq<Reimbursement> :: Names(Rewritten(ls, repl), repl.Keys) by {
        assert Names(Rewritten(links, repl), repl.Keys);
      }
    }
  }

  // a link to a row whose replacement is replaced still names a replaced row
  lemma ChainedRewrite(x: TxId, repl: Replacements)
    requires x in repl && R.Named(repl[x]) && repl[x].value in repl
    ensures Names(Rewritten([Reimbursement(x, 0)], repl), repl.Keys)
  {
    var links := [Reimbursement(x, 0)];
    assert links[..0] == [];
    assert Rewritten(links, repl) == [Reimbursement(repl[x].value, 0)];
    assert Rewritten(links, repl)[0].txId in repl.Keys;
  }

  function Share(l: Reimbursement, ids: set<TxId>): int {
    if l.txId in ids then l.amountCents else 0
  }

  function AmountTo(links: seq<Reimbursement>, ids: set<TxId>): int {
    if links == [] then 0 else AmountTo(links[..|links| - 1], ids) + Share(links[|links| - 1], ids)
  }

  lemma {:induction false} AmountToAppend(links: seq<Reimbursement>, l: Reimbursement, ids: set<TxId>)
    ensures AmountTo(links + [l], ids) == AmountTo(links, ids) + Share(l, ids)
  {
    assert (links + [l])[..|links|] == links;
  }

  // the rows a truth row stands in for
  function ReplacedBy(repl: Replacements, truth: TxId): set<TxId> {
    set x | x in repl && R.Named(repl[x]) && repl[x].value == truth
  }

  // what one link becomes: itself, re-pointed, or nothing
  function OneRewritten(l: Reimbursement, repl: Replacements): Option<Reimbursement> {
    if l.txId !in repl then Some(l)
    else if R.Named(repl[l.txId]) then Some(l.(txId := repl[l.txId].value))
    else None
  }

  lemma ShareFollows(l: Reimbursement, repl: Replacements, truth: TxId)
    requires truth !in repl
    ensures Share(l, {truth} + ReplacedBy(repl, truth)) ==
      match OneRewritten(l, repl) case Some(m) => Share(m, {truth}) case None => 0
  {
  }

  /** What a row links to a surviving row is its old amount plus that of the rows it replaced. */
  lemma {:induction false} AmountsFollow(links: seq<Reimbursement>, repl: Replacements, truth: TxId)
    requires truth !in repl
    ensures AmountTo(Rewritten(links, repl), {truth}) == AmountTo(links, {truth} + ReplacedBy(repl, truth))
  {
    if links != [] {
      var rest, l := links[..|links| - 1], links[|links| - 1];
      AmountsFollow(rest, repl, truth);
      ShareFollows(l, repl, truth);
      var m := OneRewritten(l, repl);
      if m.Some? {
        AmountToAppend(Rewritten(rest, repl), m.value, {truth});
        assert Rewritten(links, repl) == Rewritten(rest, repl) + [m.value];
      } else {
        assert Rewritten(links, repl) == Rewritten(rest, repl);
      }
    }
  }

  // ---- the plan ----

  predicate HasMatch(matches: seq<Match>, x: TxId, truth: TxId) {
    exists i :: 0 <= i < |matches| && matches[i].imported == x && matches[i].linked == truth
  }

  lemma {:induction false} MatchReplIs(matches: seq<Match>)
    ensures forall x :: x in MatchRepl(matches) <==> exists i :: 0 <= i < |matches| && matches[i].imported == x
    ensures forall x :: x in MatchRepl(matches) ==>
      MatchRepl(matches)[x].Some? && HasMatch(matches, x, MatchRepl(matches)[x].value)
  {
    if matches != [] {
      var n := |matches| - 1;
      var rest := matches[..n];
      MatchReplIs(rest);
      assert forall i :: 0 <= i < n ==> rest[i] == matches[i];
      forall x | x in MatchRepl(matches)
        ensures HasMatch(matches, x, MatchRepl(matches)[x].value)
        ensures exists i :: 0 <= i < |matches| && matches[i].imported == x
      {
        if x == matches[n].imported {
          assert matches[n].linked == MatchRepl(matches)[x].value;
        } else {
          assert HasMatch(rest, x, MatchRepl(rest)[x].value);
          var i :| 0 <= i < n && rest[i].imported == x && rest[i].linked == MatchRepl(rest)[x].value;
          assert matches[i].imported == x && matches[i].linked == MatchRepl(matches)[x].value;
        }
      }
      forall i | 0 <= i < |matches| ensures matches[i].imported in MatchRepl(matches) {
        assert i < n ==> rest[i].imported in MatchRepl(rest);
      }
    }
  }

  // the truth rows are not among the judged imports
  ghost predicate TruthStands(plan: Plan) {
    forall i :: 0 <= i < |plan.matches| ==> plan.matches[i].linked !in Judged(plan)
  }

  lemma ReplCoversJudged(plan: Plan)
    ensures Repl(plan).Keys == Judged(plan)
    ensures TruthStands(plan) ==> Settled(Repl(plan))
  {
    MatchReplIs(plan.matches);
    forall x ensures x in Repl(plan) <==> x in Judged(plan) {
    }
  }

  // ---- after a reconciliation ----

  predicate LiveTx(b: Books, x: TxId) {
    x in b.txs && !b.txs[x].deleted
  }

  predicate LiveOverlay(b: Books, k: (SpaceId, TxId)) {
    k in b.metas && !b.metas[k].deleted
  }

  /**
   After a reconciliation whose truth rows are not themselves judged, no live row and no live
   overlay of a member space links a reimbursement to a removed import; the imports are gone.
   */
  lemma NoLinkNamesAnImport(b: Books, plan: Plan, ignored: set<TxId>)
    requires FromStore(b, plan.matches) && TruthStands(plan)
    ensures var now := Reconciled(b, plan, ignored);
      && (forall x :: LiveTx(now, x) && now.txs[x].spaceId in now.spaces ==>
            !Names(LinksOf(now.txs[x].ops), Judged(plan)))
      && (forall k :: LiveOverlay(now, k) && k.0 in now.spaces ==> !Names(LinksOf(now.metas[k].ops), Judged(plan)))
      && (forall x :: x in Judged(plan) ==> !LiveTx(now, x))
  {
    ReplCoversJudged(plan);
    var moved := MigratedAll(b, plan.matches, ignored);
    var now := Reconciled(b, plan, ignored);
    forall x | LiveTx(now, x) && now.txs[x].spaceId in now.spaces
      ensures !Names(LinksOf(now.txs[x].ops), Judged(plan))
    {
      RepointedIsClean(moved.txs[x].ops, Repl(plan));
    }
    forall k | LiveOverlay(now, k) && k.0 in now.spaces
      ensures !Names(LinksOf(now.metas[k].ops), Judged(plan))
    {
      RepointedIsClean(moved.metas[k].ops, Repl(plan));
    }
  }

  lemma RepointedIsClean(ops: Patch, repl: Replacements)
    requires Settled(repl)
    ensures !Names(LinksOf(RepointedOps(ops, repl)), repl.Keys)
  {
    SettledRewrite(LinksOf(ops), repl);
  }

  lemma AmountsInOps(ops: Patch, repl: Replacements, truth: TxId)
    requires truth !in repl
    ensures AmountTo(LinksOf(RepointedOps(ops, repl)), {truth}) ==
            AmountTo(LinksOf(ops), {truth} + ReplacedBy(repl, truth))
  {
    var links := LinksOf(ops);
    AmountsFollow(links, repl, truth);
    if !Touches(links, repl) {
      UntouchedStays(links, repl);
    }
  }

  lemma {:induction false} UntouchedStays(links: seq<Reimbursement>, repl: Replacements)
    requires !Touches(links, repl)
    ensures Rewritten(links, repl) == links
  {
    if links != [] {
      var rest := links[..|links| - 1];
      assert forall i :: 0 <= i < |rest| ==> rest[i] == links[i];
      UntouchedStays(rest, repl);
      assert links == rest + [links[|links| - 1]];
    }
  }

  // ---- what a match hands over ----

  ghost predicate OneMatchEach(matches: seq<Match>) {
    && (forall i, j :: 0 <= i < j < |matches| ==>
          matches[i].imported != matches[j].imported && matches[i].linked != matches[j].linked)
    && (forall i, j :: 0 <= i < |matches| && 0 <= j < |matches| ==> matches[i].imported != matches[j].linked)
  }

  // one match touches only the overlay on its truth row, in the live spaces
  lemma MigratedOverlay(b: Books, m: Match, space: SpaceId, tx: TxId)
    requires m.linked in b.txs
    ensures OverlayAt(Migrated(b, m), space, tx) ==
      if space in b.spaces && tx == m.linked then HandedAt(b, m, space) else OverlayAt(b, space, tx)
  {
    var d := Direct(b, m);
    assert d.metas == b.metas && d.spaces == b.spaces;
    assert (space, tx) in Migrated(b, m).metas <==> (space, tx) in OverlaysAfter(d, m, b.spaces);
  }

  lemma {:induction false} OtherOverlaysStay(
    b: Books, matches: seq<Match>, ignored: set<TxId>, space: SpaceId, tx: TxId)
    requires FromStore(b, matches)
    requires space in b.spaces ==>
      forall i :: 0 <= i < |matches| && matches[i].linked == tx ==> matches[i].imported in ignored
    ensures OverlayAt(MigratedAll(b, matches, ignored), space, tx) == OverlayAt(b, space, tx)
  {
    if matches != [] {
      var n := |matches| - 1;
      var rest := matches[..n];
      assert forall i :: 0 <= i < n ==> rest[i] == matches[i];
      OtherOverlaysStay(b, rest, ignored, space, tx);
      if matches[n].imported !in ignored {
        MigratedOverlay(MigratedAll(b, rest, ignored), matches[n], space, tx);
      }
    }
  }

  /** Each match hands over on its own: what the truth row's overlay becomes depends on the two overlays alone. */
  lemma {:induction false} EachMatchHandsOver(b: Books, matches: seq<Match>, ignored: set<TxId>, i: nat, space: SpaceId)
    requires FromStore(b, matches) && OneMatchEach(matches)
    requires i < |matches| && matches[i].imported !in ignored && space in b.spaces
    ensures OverlayAt(MigratedAll(b, matches, ignored), space, matches[i].linked) ==
            HandOver(OverlayAt(b, space, matches[i].imported), OverlayAt(b, space, matches[i].linked))
  {
    var n := |matches| - 1;
    var rest, last := matches[..n], matches[n];
    assert forall j :: 0 <= j < n ==> rest[j] == matches[j];
    if i < n {
      EachMatchHandsOver(b, rest, ignored, i, space);
      OthersLast(b, matches, ignored, space, matches[i].linked);
    } else {
      LastHandsOver(b, matches, ignored, space);
    }
  }

  lemma OthersLast(b: Books, matches: seq<Match>, ignored: set<TxId>, space: SpaceId, tx: TxId)
    requires FromStore(b, matches) && matches != [] && matches[|matches| - 1].linked != tx
    ensures OverlayAt(MigratedAll(b, matches, ignored), space, tx) ==
            OverlayAt(MigratedAll(b, matches[..|matches| - 1], ignored), space, tx)
  {
    var last := matches[|matches| - 1];
    if last.imported !in ignored {
      MigratedOverlay(MigratedAll(b, matches[..|matches| - 1], ignored), last, space, tx);
    }
  }

  lemma LastHandsOver(b: Books, matches: seq<Match>, ignored: set<TxId>, space: SpaceId)
    requires FromStore(b, matches) && OneMatchEach(matches) && matches != []
    requires matches[|matches| - 1].imported !in ignored && space in b.spaces
    ensures var last := matches[|matches| - 1];
      OverlayAt(MigratedAll(b, matches, ignored), space, last.linked) ==
      HandOver(OverlayAt(b, space, last.imported), OverlayAt(b, space, last.linked))
  {
    var rest, last := matches[..|matches| - 1], matches[|matches| - 1];
    assert forall j :: 0 <= j < |rest| ==> rest[j] == matches[j];
    MigratedOverlay(MigratedAll(b, rest, ignored), last, space, last.linked);
    OtherOverlaysStay(b, rest, ignored, space, last.linked);
    OtherOverlaysStay(b, rest, ignored, space, last.imported);
  }

  // ---- amounts, from the store the run starts on ----

  // a handed-over match targets this row
  predicate Targeted(matches: seq<Match>, ignored: set<TxId>, tx: TxId) {
    exists i :: 0 <= i < |matches| && matches[i].linked == tx && matches[i].imported !in ignored
  }

  lemma MigratedRow(b: Books, m: Match, tx: TxId)
    requires m.linked in b.txs && tx in b.txs
    ensures tx != m.linked ==> Migrated(b, m).txs[tx] == b.txs[tx]
    ensures tx == m.linked ==> Migrated(b, m).txs[tx].ops == DirectOps(m, b.txs[tx].ops)
  {
  }

  lemma {:induction false} OtherRowsStay(b: Books, matches: seq<Match>, ignored: set<TxId>, tx: TxId)
    requires FromStore(b, matches) && tx in b.txs && !Targeted(matches, ignored, tx)
    ensures MigratedAll(b, matches, ignored).txs[tx] == b.txs[tx]
  {
    if matches != [] {
      var n := |matches| - 1;
      var rest := matches[..n];
      assert forall i :: 0 <= i < n ==> rest[i] == matches[i];
      OtherRowsStay(b, rest, ignored, tx);
      if matches[n].imported !in ignored {
        MigratedRow(MigratedAll(b, rest, ignored), matches[n], tx);
      }
    }
  }

  function DirectOps(m: Match, ops: Patch): Patch {
    if PickOpinions(m.ops) == NO_CHANGE then ops else Over(PickOpinions(m.ops), ops)
  }

  lemma {:induction false} EachMatchHandsItsRow(b: Books, matches: seq<Match>, ignored: set<TxId>, i: nat)
    requires FromStore(b, matches) && OneMatchEach(matches)
    requires i < |matches| && matches[i].imported !in ignored
    ensures MigratedAll(b, matches, ignored).txs[matches[i].linked].ops ==
      DirectOps(matches[i], b.txs[matches[i].linked].ops)
  {
    var n := |matches| - 1;
    var rest := matches[..n];
    assert forall j :: 0 <= j < n ==> rest[j] == matches[j];
    LastHandsItsRow(b, matches, ignored, matches[i].linked);
    if i < n {
      EachMatchHandsItsRow(b, rest, ignored, i);
    } else {
      OtherRowsStay(b, rest, ignored, matches[n].linked);
    }
  }

  // the last match changes its own truth row and no other
  lemma LastHandsItsRow(b: Books, matches: seq<Match>, ignored: set<TxId>, tx: TxId)
    requires FromStore(b, matches) && matches != [] && tx in b.txs
    ensures var last, was := matches[|matches| - 1], MigratedAll(b, matches[..|matches| - 1], ignored);
      && tx in was.txs
      && MigratedAll(b, matches, ignored).txs[tx].ops ==
           if tx == last.linked && last.imported !in ignored then DirectOps(last, was.txs[tx].ops) else was.txs[tx].ops
  {
    var last := matches[|matches| - 1];
    assert forall j :: 0 <= j < |matches| - 1 ==> matches[..|matches| - 1][j] == matches[j];
    if last.imported !in ignored {
      MigratedRow(MigratedAll(b, matches[..|matches| - 1], ignored), last, tx);
    }
  }

  // a live overlay that holds the field at all, null included
  predicate SpeaksOfLinks(o: Option<Overlay>) {
    o.Some? && !o.value.deleted && !o.value.ops.reimbursements.Keep?
  }

  function LinksIn(o: Option<Overlay>): seq<Reimbursement> {
    if o.Some? then LinksOf(o.value.ops) else []
  }

  // the list is handed over whole: the import's, if it holds one
  function HandedLinks(given: Option<Overlay>, truth: Option<Overlay>): seq<Reimbursement> {
    if SpeaksOfLinks(given) then LinksIn(given) else LinksIn(truth)
  }

  function HandedRowLinks(m: Match, ops: Patch): seq<Reimbursement> {
    if m.ops.reimbursements.Keep? then LinksOf(ops) else LinksOf(m.ops)
  }

  lemma HandOverLinks(given: Option<Overlay>, truth: Option<Overlay>)
    ensures LinksIn(HandOver(given, truth)) == HandedLinks(given, truth)
  {
  }

  // the rows whose amounts a truth row gathers
  function Gathered(plan: Plan, truth: TxId): set<TxId> {
    {truth} + ReplacedBy(Repl(plan), truth)
  }

  // what a reconciliation makes of one stored list
  lemma AmountsFromHandOver(b: Books, plan: Plan, ignored: set<TxId>, truth: TxId)
    requires FromStore(b, plan.matches) && truth !in Judged(plan)
    ensures var now, handed := Reconciled(b, plan, ignored), MigratedAll(b, plan.matches, ignored);
      && (forall k :: LiveOverlay(now, k) && k.0 in now.spaces ==>
            k in handed.metas && AmountTo(LinksOf(now.metas[k].ops), {truth}) ==
            AmountTo(LinksOf(handed.metas[k].ops), Gathered(plan, truth)))
      && (forall x :: LiveTx(now, x) && now.txs[x].spaceId in now.spaces ==>
            AmountTo(LinksOf(now.txs[x].ops), {truth}) == AmountTo(LinksOf(handed.txs[x].ops), Gathered(plan, truth)))
  {
    ReplCoversJudged(plan);
    var repl, handed, now := Repl(plan), MigratedAll(b, plan.matches, ignored), Reconciled(b, plan, ignored);
    forall k | LiveOverlay(now, k) && k.0 in now.spaces
      ensures AmountTo(LinksOf(now.metas[k].ops), {truth}) ==
        AmountTo(LinksOf(handed.metas[k].ops), Gathered(plan, truth))
    {
      AmountsInOps(handed.metas[k].ops, repl, truth);
    }
    forall x | LiveTx(now, x) && now.txs[x].spaceId in now.spaces
      ensures AmountTo(LinksOf(now.txs[x].ops), {truth}) == AmountTo(LinksOf(handed.txs[x].ops), Gathered(plan, truth))
    {
      AmountsInOps(handed.txs[x].ops, repl, truth);
    }
  }

  /**
   Whatever live row or overlay of a member space no match targets: the amount it links to a row that
   is not judged is the amount it linked before to that row and to the imports it replaced.
   */
  lemma AmountsAfterReconcile(b: Books, plan: Plan, ignored: set<TxId>, truth: TxId)
    requires FromStore(b, plan.matches) && truth !in Judged(plan)
    ensures var now := Reconciled(b, plan, ignored);
      && (forall k :: LiveOverlay(now, k) && k.0 in now.spaces && !Targeted(plan.matches, ignored, k.1) ==>
            k in b.metas &&
            AmountTo(LinksOf(now.metas[k].ops), {truth}) == AmountTo(LinksOf(b.metas[k].ops), Gathered(plan, truth)))
      && (forall x :: LiveTx(now, x) && now.txs[x].spaceId in now.spaces && !Targeted(plan.matches, ignored, x) ==>
            x in b.txs &&
            AmountTo(LinksOf(now.txs[x].ops), {truth}) == AmountTo(LinksOf(b.txs[x].ops), Gathered(plan, truth)))
  {
    var now, handed := Reconciled(b, plan, ignored), MigratedAll(b, plan.matches, ignored);
    AmountsFromHandOver(b, plan, ignored, truth);
    forall k | LiveOverlay(now, k) && k.0 in now.spaces && !Targeted(plan.matches, ignored, k.1)
      ensures k in b.metas && handed.metas[k] == b.metas[k]
    {
      OtherOverlaysStay(b, plan.matches, ignored, k.0, k.1);
      assert OverlayAt(handed, k.0, k.1) == Some(handed.metas[k]);
    }
    forall x | LiveTx(now, x) && !Targeted(plan.matches, ignored, x) ensures handed.txs[x] == b.txs[x] {
      OtherRowsStay(b, plan.matches, ignored, x);
    }
  }

  /** On a truth row the list that counts is the one handed over: the import's own, whole, if it holds
      one, in every space's overlay and on the row itself. */
  lemma AmountsOnTruthRows(b: Books, plan: Plan, ignored: set<TxId>, truth: TxId, i: nat, space: SpaceId)
    requires FromStore(b, plan.matches) && OneMatchEach(plan.matches) && truth !in Judged(plan)
    requires i < |plan.matches| && plan.matches[i].imported !in ignored && space in b.spaces
    ensures var now, m := Reconciled(b, plan, ignored), plan.matches[i];
      && (LiveOverlay(now, (space, m.linked)) ==>
            var handed := HandedLinks(OverlayAt(b, space, m.imported), OverlayAt(b, space, m.linked));
            AmountTo(LinksOf(now.metas[(space, m.linked)].ops), {truth}) == AmountTo(handed, Gathered(plan, truth)))
      && (LiveTx(now, m.linked) && now.txs[m.linked].spaceId in now.spaces ==>
            AmountTo(LinksOf(now.txs[m.linked].ops), {truth}) ==
            AmountTo(HandedRowLinks(m, b.txs[m.linked].ops), Gathered(plan, truth)))
  {
    var m := plan.matches[i];
    AmountsFromHandOver(b, plan, ignored, truth);
    EachMatchHandsOver(b, plan.matches, ignored, i, space);
    HandOverLinks(OverlayAt(b, space, m.imported), OverlayAt(b, space, m.linked));
    EachMatchHandsItsRow(b, plan.matches, ignored, i);
  }

  /** A truth row's own links come through all the hand-overs if and only if its import is silent about
      links or holds the very same ones: in every space's overlay, and on the row itself. */
  lemma OwnLinksSurvive(b: Books, matches: seq<Match>, ignored: set<TxId>, i: nat, space: SpaceId)
    requires FromStore(b, matches) && OneMatchEach(matches)
    requires i < |matches| && matches[i].imported !in ignored && space in b.spaces
    ensures var m, handed := matches[i], MigratedAll(b, matches, ignored);
      var given, truth := OverlayAt(b, space, m.imported), OverlayAt(b, space, m.linked);
      LinksIn(OverlayAt(handed, space, m.linked)) == LinksIn(truth) <==>
        !SpeaksOfLinks(given) || LinksIn(given) == LinksIn(truth)
    ensures var m, handed := matches[i], MigratedAll(b, matches, ignored);
      var own := LinksOf(b.txs[m.linked].ops);
      LinksOf(handed.txs[m.linked].ops) == own <==> m.ops.reimbursements.Keep? || LinksOf(m.ops) == own
  {
    var m := matches[i];
    EachMatchHandsOver(b, matches, ignored, i, space);
    HandOverLinks(OverlayAt(b, space, m.imported), OverlayAt(b, space, m.linked));
    EachMatchHandsItsRow(b, matches, ignored, i);
  }

  const BANK := TxId.Row("bank")
  const PAPER := TxId.Row("paper")
  const T := TxId.Row("t")
  const U := TxId.Row("u")
  const FEED_ROW := Row.Row("feed", "acct", false, NO_CHANGE)

  function Linking(x: TxId, cents: int): Overlay {
    Overlay(false, NO_CHANGE.(reimbursements := Set(Some([Reimbursement(x, cents)]))))
  }

  const TWO_LISTS := Books(
    {"home"}, map[BANK := FEED_ROW, PAPER := FEED_ROW],
    map[("home", BANK) := Linking(T, 10), ("home", PAPER) := Linking(U, 5)], map[], map[], map[])

  const ONE_MATCH := Plan([Match(PAPER, NO_CHANGE, BANK)], [], [])

  /** The truth row's overlay links 10 to one row, its import's links 5 to another: the 10 is lost. */
  lemma OwnLinksLost()
    ensures FromStore(TWO_LISTS, ONE_MATCH.matches) && OneMatchEach(ONE_MATCH.matches)
    ensures var now := Reconciled(TWO_LISTS, ONE_MATCH, {});
      && LiveOverlay(now, ("home", BANK))
      && AmountTo(LinksOf(TWO_LISTS.metas[("home", BANK)].ops), {T}) == 10
      && AmountTo(LinksOf(now.metas[("home", BANK)].ops), {T}) == 0
  {
    EachMatchHandsOver(TWO_LISTS, ONE_MATCH.matches, {}, 0, "home");
    AmountsOnTruthRows(TWO_LISTS, ONE_MATCH, {}, T, 0, "home");
    NothingGathered();
    OneLink(T, 10);
    OneLink(U, 5);
  }

  lemma NothingGathered()
    ensures Gathered(ONE_MATCH, T) == {T} && T !in Judged(ONE_MATCH)
  {
    ReplCoversJudged(ONE_MATCH);
    assert ONE_MATCH.matches[..0] == [];
  }

  lemma OneLink(x: TxId, cents: int)
    ensures AmountTo([Reimbursement(x, cents)], {T}) == if x == T then cents else 0
  {
    assert [Reimbursement(x, cents)][..0] == [];
  }

  /** A truth row never comes out reviewed in a space that had not reviewed its import. */
  lemma VerdictTravels(b: Books, plan: Plan, ignored: set<TxId>, i: nat, space: SpaceId)
    requires FromStore(b, plan.matches) && OneMatchEach(plan.matches)
    requires i < |plan.matches| && plan.matches[i].imported !in ignored && space in b.spaces
    ensures Reviewed(OverlayAt(Reconciled(b, plan, ignored), space, plan.matches[i].linked)) ==>
            Reviewed(OverlayAt(b, space, plan.matches[i].imported))
  {
    EachMatchHandsOver(b, plan.matches, ignored, i, space);
  }

  // ---- receipts follow ----

  lemma {:induction false} RenamedIs(ids: seq<TxId>, was: TxId, now: TxId)
    ensures |Renamed(ids, was, now)| == |ids|
    ensures forall y :: y in Renamed(ids, was, now) <==> (y in ids && y != was) || (was in ids && y == now)
  {
    if ids != [] {
      var rest := ids[..|ids| - 1];
      RenamedIs(rest, was, now);
      assert ids == rest + [ids[|ids| - 1]];
    }
  }

  // one match on one receipt, as sets
  lemma ReceiptMatch(link: R.Link, m: Match, y: TxId)
    requires !link.deleted && m.linked != R.NO_ID
    ensures !ReceiptAfter(link, m).deleted
    ensures R.IsLinkedTo(ReceiptAfter(link, m), y) <==>
      (R.IsLinkedTo(link, y) && y != m.imported) || (R.IsLinkedTo(link, m.imported) && y == m.linked)
  {
    if R.IsLinkedTo(link, m.imported) {
      var linked := R.LinkedTxIds(link);
      R.LinkedShape(link);
      RenamedIs(linked, m.imported, m.linked);
      var renamed := Renamed(linked, m.imported, m.linked);
      R.DistinctOnce(renamed);
      assert R.NO_ID !in renamed;
      R.ListRoundTrip(ReceiptAfter(link, m), R.Distinct(renamed));
    }
  }

  predicate LiveReceipt(b: Books, k: (SpaceId, R.ReceiptId)) {
    k in b.receipts && !b.receipts[k].deleted
  }

  predicate HandsOn(matches: seq<Match>, ignored: set<TxId>, x: TxId) {
    exists i :: 0 <= i < |matches| && matches[i].imported == x && x !in ignored
  }

  predicate ComesTo(matches: seq<Match>, ignored: set<TxId>, link: R.Link, y: TxId) {
    exists i :: 0 <= i < |matches| && matches[i].linked == y && matches[i].imported !in ignored &&
      R.IsLinkedTo(link, matches[i].imported)
  }

  lemma MigratedReceipt(b: Books, m: Match, k: (SpaceId, R.ReceiptId))
    requires m.linked in b.txs && k in b.receipts && k.0 in b.spaces
    ensures Migrated(b, m).receipts[k] == ReceiptAfter(b.receipts[k], m)
  {
  }

  // the last match's import was no business of the matches before it
  lemma NotHandledYet(matches: seq<Match>, ignored: set<TxId>, link: R.Link)
    requires matches != [] && OneMatchEach(matches)
    ensures var rest, x := matches[..|matches| - 1], matches[|matches| - 1].imported;
      !HandsOn(rest, ignored, x) && !ComesTo(rest, ignored, link, x)
  {
    assert forall i :: 0 <= i < |matches| - 1 ==> matches[..|matches| - 1][i] == matches[i];
  }

  /**
   A member space's receipt proves, afterwards, what it proved before with every handed-over
   import replaced by its truth row, and nothing else. An import that was ignored, or that
   matched nothing, is removed all the same, and a receipt that proved it still names it.
   */
  lemma {:induction false} ReceiptsFollow(
    b: Books, matches: seq<Match>, ignored: set<TxId>, k: (SpaceId, R.ReceiptId), y: TxId)
    requires FromStore(b, matches) && OneMatchEach(matches)
    requires forall i :: 0 <= i < |matches| ==> matches[i].linked != R.NO_ID
    requires LiveReceipt(b, k) && k.0 in b.spaces
    ensures LiveReceipt(MigratedAll(b, matches, ignored), k)
    ensures R.IsLinkedTo(MigratedAll(b, matches, ignored).receipts[k], y) <==>
      || (R.IsLinkedTo(b.receipts[k], y) && !HandsOn(matches, ignored, y))
      || ComesTo(matches, ignored, b.receipts[k], y)
  {
    if matches != [] {
      var n := |matches| - 1;
      var rest, last := matches[..n], matches[n];
      ReceiptsFollow(b, rest, ignored, k, y);
      LastHandsOn(matches, ignored, b.receipts[k], y);
      if last.imported !in ignored {
        var done := MigratedAll(b, rest, ignored);
        ReceiptsFollow(b, rest, ignored, k, last.imported);
        NotHandledYet(matches, ignored, b.receipts[k]);
        MigratedReceipt(done, last, k);
        ReceiptMatch(done.receipts[k], last, y);
      }
    }
  }

  /** A judged import that no match hands on is removed, and every receipt that proved it still names it. */
  lemma UnhandedImportStaysNamed(b: Books, plan: Plan, ignored: set<TxId>, k: (SpaceId, R.ReceiptId), x: TxId)
    requires FromStore(b, plan.matches) && OneMatchEach(plan.matches)
    requires forall i :: 0 <= i < |plan.matches| ==> plan.matches[i].linked != R.NO_ID
    requires x in Judged(plan) && !HandsOn(plan.matches, ignored, x)
    requires LiveReceipt(b, k) && k.0 in b.spaces && R.IsLinkedTo(b.receipts[k], x)
    ensures var now := Reconciled(b, plan, ignored);
      !LiveTx(now, x) && LiveReceipt(now, k) && R.IsLinkedTo(now.receipts[k], x)
  {
    ReceiptsFollow(b, plan.matches, ignored, k, x);
  }

  const WITH_RECEIPT :=
    TWO_LISTS.(receipts := map[("home", "r") := R.Link(Some(PAPER), None, None, None, false, false)])

  /** For one: the person ignored the match of an import that a receipt proves. */
  lemma IgnoredImportStaysNamed()
    ensures FromStore(WITH_RECEIPT, ONE_MATCH.matches)
    ensures var now := Reconciled(WITH_RECEIPT, ONE_MATCH, {PAPER});
      !LiveTx(now, PAPER) && LiveReceipt(now, ("home", "r")) && R.IsLinkedTo(now.receipts[("home", "r")], PAPER)
  {
    R.ListRoundTrip(WITH_RECEIPT.receipts[("home", "r")], [PAPER]);
    assert ONE_MATCH.matches[0].imported in Judged(ONE_MATCH);
    UnhandedImportStaysNamed(WITH_RECEIPT, ONE_MATCH, {PAPER}, ("home", "r"), PAPER);
  }

  lemma LastHandsOn(matches: seq<Match>, ignored: set<TxId>, link: R.Link, y: TxId)
    requires matches != []
    ensures var n := |matches| - 1;
      && (HandsOn(matches, ignored, y) <==>
            HandsOn(matches[..n], ignored, y) || (matches[n].imported == y && y !in ignored))
      && (ComesTo(matches, ignored, link, y) <==>
            || ComesTo(matches[..n], ignored, link, y)
            || (matches[n].linked == y && matches[n].imported !in ignored && R.IsLinkedTo(link, matches[n].imported)))
  {
    var n := |matches| - 1;
    assert forall i :: 0 <= i < n ==> matches[..n][i] == matches[i];
  }

  // ---- the merge ----

  // every live row of the imported account is judged or kept
  ghost predicate Covers(b: Books, plan: Plan, account: AccountId) {
    forall x :: LiveTx(b, x) && b.txs[x].accountId == account ==> x in Judged(plan) || x in plan.kept
  }

  lemma {:induction false} MigrationKeepsRows(b: Books, matches: seq<Match>, ignored: set<TxId>, x: TxId)
    requires FromStore(b, matches) && x in b.txs
    requires forall i :: 0 <= i < |matches| ==> !b.txs[matches[i].linked].deleted
    ensures var now := MigratedAll(b, matches, ignored).txs[x];
      now.accountId == b.txs[x].accountId && now.spaceId == b.txs[x].spaceId && now.deleted == b.txs[x].deleted
  {
    if matches != [] {
      var rest := matches[..|matches| - 1];
      assert forall i :: 0 <= i < |rest| ==> rest[i] == matches[i];
      MigrationKeepsRows(b, rest, ignored, x);
    }
  }

  /** After a merge whose plan covers the imported account, nothing live names the retired account. */
  lemma NothingNamesTheRetired(b: Books, imported: AccountId, bank: AccountId, plan: Plan, ignored: set<TxId>)
    requires FromStore(b, plan.matches) && imported != bank
    requires forall i :: 0 <= i < |plan.matches| ==> !b.txs[plan.matches[i].linked].deleted
    requires Covers(b, plan, imported)
    ensures var now := Merged(b, imported, bank, plan, ignored);
      && (forall x :: LiveTx(now, x) ==> now.txs[x].accountId != imported)
      && (forall l :: l in now.links && now.links[l].spaceId in now.spaces && !now.links[l].deleted ==>
            now.links[l].accountId != imported)
      && (imported in now.accounts ==> now.accounts[imported])
  {
    var now := Merged(b, imported, bank, plan, ignored);
    forall x | LiveTx(now, x) ensures now.txs[x].accountId != imported {
      MigrationKeepsRows(b, plan.matches, ignored, x);
    }
  }

  /** No history is lost: what was live and not judged is still live, on the bank's account if it was kept. */
  lemma HistorySurvives(b: Books, imported: AccountId, bank: AccountId, plan: Plan, ignored: set<TxId>, x: TxId)
    requires FromStore(b, plan.matches)
    requires forall i :: 0 <= i < |plan.matches| ==> !b.txs[plan.matches[i].linked].deleted
    requires LiveTx(b, x) && x !in Judged(plan)
    ensures var now := Merged(b, imported, bank, plan, ignored);
      LiveTx(now, x) && now.txs[x].spaceId == b.txs[x].spaceId &&
      now.txs[x].accountId == if x in plan.kept then bank else b.txs[x].accountId
  {
    MigrationKeepsRows(b, plan.matches, ignored, x);
  }

}
