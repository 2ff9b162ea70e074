/** The boot heal on the store: the two loops, and what a second boot finds. */
module BootHealRun {
  import opened Records
  import opened MirrorMint
  import opened Joined
  import opened Ledger
  import opened BootHeal
  import opened BootHealPass

  lemma NextVisit<T(!new)>(order: seq<T>, todo: set<T>, all: set<T>, x: T)
    requires Visits(order, all - todo) && todo <= all && x in todo
    ensures Visits(order + [x], all - (todo - {x})) && (order + [x])[..|order|] == order && (order + [x])[|order|] == x
  {
  }

  method HealRow(store: Store, stamps: map<AccountId, Account>, k: TxId, read: Tx, clue: Clue,
                 ghost h: Healing, ghost start: Db)
    returns (one: bool)
    requires k in store.txs && store.View() == h.db
    requires stamps == start.accounts && k in start.txs && read == start.txs[k]
    modifies store
    ensures old(store.txs.Keys) <= store.txs.Keys
    ensures var g := RowStep(h, start, clue, k); store.View() == g.db && |g.own| == |h.own| + if one then 1 else 0
  {
    var ref := OwnRef(k, read);
    if !Stamped(stamps, read.accountId) && Unsettled(read.ops) {
      HealedKeeps(store.View(), ref, read.ops, clue, read.amountCents);
    }
    one := MigrateRow(store, stamps, ref, read.accountId, read.amountCents, read.ops, clue);
  }

  // local rows: the feed rows' decisions live on overlays
  method HealRows(store: Store, feeds: set<SpaceId>, clue: Clue) returns (touched: nat, ghost order: seq<TxId>)
    modifies store
    ensures Visits(order, RowsToVisit(old(store.View()), feeds))
    ensures var h := RowPass(old(store.View()), clue, order); store.View() == h.db && touched == |h.own|
  {
    ghost var start := store.View();
    var stamps, rows := store.accounts, store.txs;
    var todo := set k | k in rows && !rows[k].deleted && rows[k].spaceId !in feeds && Candidate(rows[k].ops);
    touched, order := 0, [];
    while todo != {}
      invariant Visits(order, RowsToVisit(start, feeds) - todo) && todo <= RowsToVisit(start, feeds)
      invariant rows.Keys <= store.txs.Keys
      invariant var h := RowPass(start, clue, order); store.View() == h.db && touched == |h.own|
    {
      var k :| k in todo;
      NextVisit(order, todo, RowsToVisit(start, feeds), k);
      var one := HealRow(store, stamps, k, rows[k], clue, RowPass(start, clue, order), start);
      todo, order := todo - {k}, order + [k];
      touched := if one then touched + 1 else touched;
    }
    assert RowsToVisit(start, feeds) - {} == RowsToVisit(start, feeds);
  }

  method HealOverlay(store: Store, stamps: map<AccountId, Account>, key: (SpaceId, TxId), meta: Meta, clue: Clue,
                     ghost h: Healing, ghost start: Db)
    returns (one: bool)
    requires store.View() == h.db && stamps == start.accounts && key in start.metas && meta == start.metas[key]
    modifies store
    ensures var g := MetaStep(h, start, clue, key);
      store.View() == g.db && |g.joined| == |h.joined| + if one then 1 else 0
  {
    one := false;
    if key.1 in store.txs && !store.txs[key.1].deleted {
      var raw := store.txs[key.1];
      var o := Fallback(meta.ops, raw.ops);
      one := MigrateRow(store, stamps, JoinedRef(key, o), raw.accountId, raw.amountCents, o, clue);
    }
  }

  // feed overlays: each one's raw row is read afresh
  method HealOverlays(store: Store, stamps: map<AccountId, Account>, clue: Clue, ghost h: Healing, ghost start: Db)
    returns (touched: nat, ghost order: seq<(SpaceId, TxId)>)
    requires store.View() == h.db && stamps == start.accounts && store.metas == start.metas
    modifies store
    ensures Visits(order, OverlaysToVisit(start))
    ensures var g := MetaPass(h, start, clue, order); store.View() == g.db && touched == |g.joined| - |h.joined|
  {
    var metas := store.metas;
    var todo := set key | key in metas && !metas[key].deleted && Candidate(metas[key].ops);
    touched, order := 0, [];
    while todo != {}
      invariant Visits(order, OverlaysToVisit(start) - todo) && todo <= OverlaysToVisit(start)
      invariant var g := MetaPass(h, start, clue, order); store.View() == g.db && touched == |g.joined| - |h.joined|
    {
      var key :| key in todo;
      NextVisit(order, todo, OverlaysToVisit(start), key);
      var one := HealOverlay(store, stamps, key, metas[key], clue, MetaPass(h, start, clue, order), start);
      todo, order := todo - {key}, order + [key];
      touched := if one then touched + 1 else touched;
    }
    assert OverlaysToVisit(start) - {} == OverlaysToVisit(start);
  }

  /** One boot's heal: the rows, then the overlays, in whatever order the store lists them. */
  method MigrateBareSpecialRows(store: Store, feeds: set<SpaceId>, clue: Clue)
    returns (touched: nat, ghost rows: seq<TxId>, ghost overlays: seq<(SpaceId, TxId)>)
    modifies store
    ensures Orders(old(store.View()), feeds, rows, overlays)
    ensures var h := Pass(old(store.View()), clue, rows, overlays);
      store.View() == h.db && touched == |h.own| + |h.joined|
  {
    ghost var start := store.View();
    var stamps := store.accounts;
    var own;
    own, rows := HealRows(store, feeds, clue);
    ghost var h := RowPass(start, clue, rows);
    RowPassKeeps(start, clue, rows);
    var joined;
    joined, overlays := HealOverlays(store, stamps, clue, h, start);
    MetaPassOwn(h, start, clue, overlays);
    touched := own + joined;
  }

  /** The second boot writes nothing exactly when the first left everything settled, whatever accounts
      the bank text names by then; and it did, unless it healed the source of a leg it passed over. */
  method BootTwice(store: Store, feeds: set<SpaceId>, clue: Clue, laterClue: Clue)
    returns (touched: nat, ghost first: Healing)
    requires Sound(store.View())
    modifies store
    ensures touched == 0 <==> AllSettled(first.db, feeds)
    ensures touched == 0 ==> store.View() == first.db
    ensures (forall y :: PassedOver(old(store.View()), feeds, y) ==> !Sourced(first, y)) &&
            (forall key :: OverlayPassedOver(old(store.View()), feeds, key) ==> !SourceIn(first.joined, key.1)) ==>
      touched == 0
  {
    ghost var start := store.View();
    var _, rows, overlays := MigrateBareSpecialRows(store, feeds, clue);
    PassSettles(start, feeds, clue, rows, overlays);
    first := Pass(start, clue, rows, overlays);
    ghost var later, laterOverlays;
    touched, later, laterOverlays := MigrateBareSpecialRows(store, feeds, laterClue);
    IdleExactlyWhenSettled(first.db, feeds, laterClue, later, laterOverlays);
  }
}
