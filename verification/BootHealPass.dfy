/**
 The pass of the boot heal over a whole store: the local rows, then the overlays, in whatever order
 the store gives them. A pass settles everything it considers, except a leg it mints over a
 container of bare parts that it passed over.
 */
module BootHealPass {
  import opened Records
  import opened MirrorMint
  import opened Joined
  import opened Ledger
  import opened BootHeal

  // the store so far, and the rows written: in place, and on overlays
  datatype Healing = Healing(db: Db, own: seq<TxId>, joined: seq<TxId>)

  function MigratedRow(h: Healing, stamps: map<AccountId, Account>, ref: TxRef, accountId: AccountId,
                       amountCents: int, o: Opinions, clue: Clue): Healing
    requires ref.id in h.db.txs
  {
    if Stamped(stamps, accountId) || !Unsettled(o) then h
    else Wrote(h, ref, Healed(h.db, ref, o, clue, amountCents))
  }

  function Wrote(h: Healing, ref: TxRef, e: Db): Healing {
    if ref.feed then Healing(e, h.own, h.joined + [ref.id]) else Healing(e, h.own + [ref.id], h.joined)
  }

  function OwnRef(k: TxId, row: Tx): TxRef { TxRef(k, row.spaceId, false, row.ops.needsReview == Some(true)) }

  // a local row is judged as it was read, before the first write
  function RowStep(h: Healing, start: Db, clue: Clue, k: TxId): Healing {
    if k !in start.txs || k !in h.db.txs then h
    else
      var read := start.txs[k];
      MigratedRow(h, start.accounts, OwnRef(k, read), read.accountId, read.amountCents, read.ops, clue)
  }

  function RowPass(start: Db, clue: Clue, order: seq<TxId>): Healing {
    if order == [] then Healing(start, [], [])
    else RowStep(RowPass(start, clue, order[..|order| - 1]), start, clue, order[|order| - 1])
  }

  function JoinedRef(key: (SpaceId, TxId), o: Opinions): TxRef {
    TxRef(key.1, key.0, true, o.needsReview == Some(true))
  }

  // an overlay is judged as it was read, over the raw row as it is by then
  function MetaStep(h: Healing, start: Db, clue: Clue, key: (SpaceId, TxId)): Healing {
    if key !in start.metas || !Live(h.db, key.1) then h
    else
      var raw := h.db.txs[key.1];
      var o := Fallback(start.metas[key].ops, raw.ops);
      MigratedRow(h, start.accounts, JoinedRef(key, o), raw.accountId, raw.amountCents, o, clue)
  }

  function MetaPass(h: Healing, start: Db, clue: Clue, order: seq<(SpaceId, TxId)>): Healing {
    if order == [] then h
    else MetaStep(MetaPass(h, start, clue, order[..|order| - 1]), start, clue, order[|order| - 1])
  }

  function Pass(db: Db, clue: Clue, rows: seq<TxId>, overlays: seq<(SpaceId, TxId)>): Healing {
    MetaPass(RowPass(db, clue, rows), db, clue, overlays)
  }

  function RowsToVisit(db: Db, feeds: set<SpaceId>): set<TxId> {
    set k | k in db.txs && !db.txs[k].deleted && db.txs[k].spaceId !in feeds && Candidate(db.txs[k].ops)
  }

  function OverlaysToVisit(db: Db): set<(SpaceId, TxId)> {
    set key | key in db.metas && !db.metas[key].deleted && Candidate(db.metas[key].ops)
  }

  ghost predicate Visits<T(!new)>(order: seq<T>, todo: set<T>) {
    (forall x :: x in order <==> x in todo) && forall i, j :: 0 <= i < j < |order| ==> order[i] != order[j]
  }

  // the orders of one pass
  ghost predicate Orders(db: Db, feeds: set<SpaceId>, rows: seq<TxId>, overlays: seq<(SpaceId, TxId)>) {
    Visits(rows, RowsToVisit(db, feeds)) && Visits(overlays, OverlaysToVisit(db))
  }

  // ---- rows are never dropped, and no overlay changes under the first loop ----

  ghost predicate Keeps(d: Db, e: Db) { d.txs.Keys <= e.txs.Keys && e.metas == d.metas }

  lemma {:induction false} StepsKeep(db: Db, steps: seq<Step>)
    ensures Keeps(db, RunSteps(db, steps))
    decreases |steps|
  {
    if steps != [] {
      RowHalfEffect(db, steps[0]);
      StepsKeep(RunStep(db, steps[0]), steps[1..]);
    }
  }

  lemma {:induction false} AsksKeep(d: Db, e: Db, asks: seq<Ask>)
    ensures Keeps(e, RunAsks(d, e, asks))
    decreases |asks|
  {
    if asks != [] {
      StepsKeep(e, asks[0].Plan(d).steps);
      AsksKeep(d, RunSteps(e, asks[0].Plan(d).steps), asks[1..]);
    }
  }

  lemma {:induction false} EnsuredForKeeps(db: Db, space: SpaceId, parts: seq<Part>)
    ensures EnsuredFor(db, space, parts).txs == db.txs && EnsuredFor(db, space, parts).metas == db.metas
  {
    if parts != [] { EnsuredForKeeps(db, space, parts[..|parts| - 1]); }
  }

  lemma HealedKeeps(db: Db, ref: TxRef, o: Opinions, clue: Clue, amountCents: int)
    requires ref.id in db.txs && Unsettled(o)
    ensures var e := Healed(db, ref, o, clue, amountCents); if ref.feed then db.txs.Keys <= e.txs.Keys else Keeps(db, e)
  {
    var d, patch := Prepared(db, o, ref.spaceId), HealPatch(o, ref.spaceId, clue(ref.id, ref.spaceId), amountCents);
    EnsuredForKeeps(db, ref.spaceId, PartsIn(o));
    var p := PutOpinions(d, ref, Written(d, ref, patch));
    StepsKeep(p, RowSteps(d, ref, patch));
    AsksKeep(d, RunSteps(p, RowSteps(d, ref, patch)), PartAsks(d, ref, patch));
  }

  lemma {:induction false} RowPassKeeps(start: Db, clue: Clue, order: seq<TxId>)
    ensures var h := RowPass(start, clue, order);
      Keeps(start, h.db) && h.joined == [] && (h.own == [] ==> h.db == start)
  {
    if order != [] {
      var k, h := order[|order| - 1], RowPass(start, clue, order[..|order| - 1]);
      RowPassKeeps(start, clue, order[..|order| - 1]);
      if k in start.txs && k in h.db.txs && Unsettled(start.txs[k].ops) {
        HealedKeeps(h.db, OwnRef(k, start.txs[k]), start.txs[k].ops, clue, start.txs[k].amountCents);
      }
    }
  }

  lemma {:induction false} MetaPassOwn(h: Healing, start: Db, clue: Clue, order: seq<(SpaceId, TxId)>)
    ensures var g := MetaPass(h, start, clue, order);
      g.own == h.own && |h.joined| <= |g.joined| && (|g.joined| == |h.joined| ==> g == h)
  {
    if order != [] { MetaPassOwn(h, start, clue, order[..|order| - 1]); }
  }

  // ---- what a pass may leave ----

  // a container of bare parts under a leg's id that the pass passes over
  predicate PassedOver(db: Db, feeds: set<SpaceId>, y: TxId) {
    y.Mirror? && y in db.txs && BareContainer(db.txs[y].ops) &&
    (db.txs[y].deleted || db.txs[y].spaceId in feeds || Stamped(db.accounts, db.txs[y].accountId))
  }

  // or a live overlay on a leg that is such a container, or lies over one
  predicate OverlayPassedOver(db: Db, feeds: set<SpaceId>, key: (SpaceId, TxId)) {
    key.1.Mirror? && key in db.metas && !db.metas[key].deleted &&
    (BareContainer(db.metas[key].ops) || PassedOver(db, feeds, key.1))
  }

  ghost predicate SourceIn(healed: seq<TxId>, y: TxId) {
    exists r :: r in healed && LegFor(r, y)
  }

  ghost predicate Sourced(h: Healing, y: TxId) { SourceIn(h.own, y) || SourceIn(h.joined, y) }

  // a row of the first read, as it may stand when its turn comes
  predicate SinceRead(k: TxId, read: Tx, now: Tx) {
    now == read || (!now.deleted && now.ops.splits == read.ops.splits && LegShaped(k, now.ops))
  }

  // what half a pass knows of one row
  ghost predicate RowAt(start: Db, feeds: set<SpaceId>, h: Healing, todo: set<TxId>, k: TxId)
    requires k in h.db.txs && todo <= start.txs.Keys
  {
    && (k in todo ==> SinceRead(k, start.txs[k], h.db.txs[k]) && (h.db.txs[k] == start.txs[k] || Sourced(h, k)))
    && (k in todo || RowSettled(h.db, feeds, k) || (PassedOver(start, feeds, k) && Sourced(h, k)))
    && (k.Mirror? && BareContainer(h.db.txs[k].ops) ==> k in todo || PassedOver(start, feeds, k))
    && (PassedOver(start, feeds, k) ==> h.db.txs[k].ops.splits == start.txs[k].ops.splits)
  }

  // visited rows are settled, but for legs minted over what was passed over
  ghost predicate RowsAt(start: Db, feeds: set<SpaceId>, h: Healing, todo: set<TxId>) {
    && Sound(h.db) && StampsStay(start, h.db) && start.txs.Keys <= h.db.txs.Keys && todo <= RowsToVisit(start, feeds)
    && forall k :: k in h.db.txs ==> RowAt(start, feeds, h, todo, k)
  }

  ghost predicate MetasAt(start: Db, feeds: set<SpaceId>, h: Healing, todo: set<(SpaceId, TxId)>) {
    && h.db.metas.Keys == start.metas.Keys
    && (forall key :: key in todo ==> key in start.metas && h.db.metas[key] == start.metas[key])
    && (forall key :: key in start.metas ==> h.db.metas[key].deleted == start.metas[key].deleted)
    && (forall key :: key in h.db.metas ==>
          key in todo || MetaSettled(h.db, key) || (OverlayPassedOver(start, feeds, key) && SourceIn(h.joined, key.1)))
    && (forall key :: key in h.db.metas && !h.db.metas[key].deleted && BareContainer(h.db.metas[key].ops) ==>
          BareContainer(start.metas[key].ops))
  }

  // ---- accounts first ----

  lemma DefaultsKeepRows(start: Db, feeds: set<SpaceId>, h: Healing, d: Db, todo: set<TxId>)
    requires RowsAt(start, feeds, h, todo) && OnlyDefaults(h.db, d)
    ensures RowsAt(start, feeds, h.(db := d), todo)
  {
  }

  lemma DefaultsKeepMetas(start: Db, feeds: set<SpaceId>, h: Healing, d: Db, todo: set<(SpaceId, TxId)>)
    requires MetasAt(start, feeds, h, todo) && OnlyDefaults(h.db, d)
    ensures MetasAt(start, feeds, h.(db := d), todo)
  {
  }

  // ---- then the mints ----

  lemma SourceGrows(h: Healing, ref: TxRef, e: Db)
    ensures forall y :: Sourced(h, y) || LegFor(ref.id, y) ==> Sourced(Wrote(h, ref, e), y)
    ensures forall y :: SourceIn(h.joined, y) || (ref.feed && LegFor(ref.id, y)) ==>
      SourceIn(Wrote(h, ref, e).joined, y)
  {
  }

  lemma MintedSound(d: Db, e: Db, r: TxId)
    requires Sound(d) && OnlyMinted(d, e, r)
    ensures Sound(e) && StampsStay(d, e)
  {
  }

  lemma MintKeepsRow(start: Db, feeds: set<SpaceId>, h: Healing, e: Db, r: TxId, todo: set<TxId>, k: TxId)
    requires OnlyMinted(h.db, e, r) && (LegFor(r, k) ==> Sourced(h, k))
    requires k in e.txs && todo <= start.txs.Keys <= h.db.txs.Keys
    requires k in h.db.txs ==> RowAt(start, feeds, h, todo, k)
    ensures RowAt(start, feeds, h.(db := e), todo, k)
  {
  }

  lemma MintsKeepRows(start: Db, feeds: set<SpaceId>, h: Healing, e: Db, r: TxId, todo: set<TxId>)
    requires RowsAt(start, feeds, h, todo) && OnlyMinted(h.db, e, r) && forall y :: LegFor(r, y) ==> Sourced(h, y)
    ensures RowsAt(start, feeds, h.(db := e), todo)
  {
    MintedSound(h.db, e, r);
    forall k | k in e.txs ensures RowAt(start, feeds, h.(db := e), todo, k) {
      MintKeepsRow(start, feeds, h, e, r, todo, k);
    }
  }

  // ---- one local row ----

  lemma ResolvedIsSettled(o: Opinions, m: Opinions, after: Opinions)
    requires Resolved(o, m, after)
    ensures !Unsettled(after) && !BareContainer(after)
  {
  }

  // a visited row that needs no write, or sits on a stamped account
  lemma SkippedRow(start: Db, feeds: set<SpaceId>, h: Healing, todo: set<TxId>, k: TxId)
    requires Sound(start) && RowsAt(start, feeds, h, todo) && k in todo
    requires Stamped(start.accounts, start.txs[k].accountId) || !Unsettled(start.txs[k].ops)
    ensures RowsAt(start, feeds, h, todo - {k})
  {
  }

  lemma OwnPut(start: Db, feeds: set<SpaceId>, h: Healing, ref: TxRef, w: Patch, todo: set<TxId>)
    requires RowsAt(start, feeds, h, todo) && ref.id in todo && !ref.feed
    requires !Stamped(start.accounts, start.txs[ref.id].accountId)
    requires var after := Apply(w, h.db.txs[ref.id].ops);
      !Unsettled(after) && !BareContainer(after) && DistinctIds(PartsIn(after))
    ensures RowsAt(start, feeds, Wrote(h, ref, PutOpinions(h.db, ref, w)), todo - {ref.id})
  {
  }

  lemma HealedRow(start: Db, feeds: set<SpaceId>, h: Healing, clue: Clue, todo: set<TxId>, k: TxId)
    requires Sound(start) && RowsAt(start, feeds, h, todo) && k in todo
    requires Unsettled(start.txs[k].ops) && !Stamped(start.accounts, start.txs[k].accountId)
    ensures RowsAt(start, feeds, RowStep(h, start, clue, k), todo - {k})
  {
    var read := start.txs[k];
    var ref, o := OwnRef(k, read), read.ops;
    HealWrite(h.db, ref, o, clue, read.amountCents);
    var d := Prepared(h.db, o, ref.spaceId);
    var w := Written(d, ref, HealPatch(o, ref.spaceId, clue(k, ref.spaceId), read.amountCents));
    DefaultsKeepRows(start, feeds, h, d, todo);
    ResolvedIsSettled(o, Merged(h.db, ref), Apply(w, Merged(h.db, ref)));
    OwnPut(start, feeds, h.(db := d), ref, w, todo);
    SourceGrows(h, ref, d);
    MintsKeepRows(start, feeds, Wrote(h, ref, PutOpinions(d, ref, w)), RowStep(h, start, clue, k).db, k, todo - {k});
  }

  // ---- all of them ----

  function From<T>(order: seq<T>, n: nat): set<T>
    requires n <= |order|
  {
    set x | x in order[n..]
  }

  lemma FromNext<T(!new)>(order: seq<T>, n: nat, todo: set<T>)
    requires Visits(order, todo) && n < |order|
    ensures From(order, n) - {order[n]} == From(order, n + 1) && order[n] in From(order, n) && order[n] !in order[..n]
  {
  }

  lemma NextOf<T(!new)>(order: seq<T>, n: nat, todo: set<T>)
    requires Visits(order, todo) && n < |order|
    ensures order[n] in order && order[n] in From(order, n) && order[n] !in order[..n]
  {
  }

  lemma FromAll<T(!new)>(order: seq<T>, todo: set<T>)
    requires Visits(order, todo)
    ensures From(order, 0) == todo && From(order, |order|) == {} && order[..|order|] == order
  {
  }

  lemma NothingVisited(start: Db, feeds: set<SpaceId>)
    requires Sound(start)
    ensures RowsAt(start, feeds, Healing(start, [], []), RowsToVisit(start, feeds))
  {
  }

  lemma {:induction false} RowPassAt(start: Db, feeds: set<SpaceId>, clue: Clue, order: seq<TxId>, n: nat)
    requires Sound(start) && Visits(order, RowsToVisit(start, feeds)) && n <= |order|
    ensures RowsAt(start, feeds, RowPass(start, clue, order[..n]), From(order, n))
  {
    if n == 0 {
      FromAll(order, RowsToVisit(start, feeds));
      NothingVisited(start, feeds);
    } else {
      RowPassAt(start, feeds, clue, order, n - 1);
      FromNext(order, n - 1, RowsToVisit(start, feeds));
      assert order[..n][..n - 1] == order[..n - 1];
      RowStepAt(start, feeds, RowPass(start, clue, order[..n - 1]), clue, From(order, n - 1), order[n - 1]);
    }
  }

  lemma RowStepAt(start: Db, feeds: set<SpaceId>, h: Healing, clue: Clue, todo: set<TxId>, k: TxId)
    requires Sound(start) && RowsAt(start, feeds, h, todo) && k in todo
    ensures RowsAt(start, feeds, RowStep(h, start, clue, k), todo - {k})
  {
    var read := start.txs[k];
    if Stamped(start.accounts, read.accountId) || !Unsettled(read.ops) {
      SkippedRow(start, feeds, h, todo, k);
    } else {
      HealedRow(start, feeds, h, clue, todo, k);
    }
  }

  // ---- one overlay ----

  lemma MintsKeepMetas(start: Db, feeds: set<SpaceId>, h: Healing, e: Db, r: TxId, todo: set<(SpaceId, TxId)>)
    requires RowsAt(start, feeds, h, {}) && MetasAt(start, feeds, h, todo) && r in h.joined && OnlyMinted(h.db, e, r)
    ensures MetasAt(start, feeds, h.(db := e), todo)
  {
    forall key | key in e.metas && key !in todo
      ensures MetaSettled(e, key) || (OverlayPassedOver(start, feeds, key) && SourceIn(h.joined, key.1))
    {
      MintKeepsMeta(start, feeds, h, e, r, todo, key);
    }
  }

  lemma MintKeepsMeta(
    start: Db, feeds: set<SpaceId>, h: Healing, e: Db, r: TxId, todo: set<(SpaceId, TxId)>, key: (SpaceId, TxId))
    requires RowsAt(start, feeds, h, {}) && MetasAt(start, feeds, h, todo) && r in h.joined && OnlyMinted(h.db, e, r)
    requires key in e.metas && key !in todo
    ensures MetaSettled(e, key) || (OverlayPassedOver(start, feeds, key) && SourceIn(h.joined, key.1))
  {
  }

  // the overlay's own write: that one overlay, whose parts are told apart
  lemma OverlayWritten(db: Db, ref: TxRef, w: Patch)
    requires ref.feed && ref.id in db.txs && (ref.spaceId, ref.id) in db.metas
    ensures var p, key, after := PutOpinions(db, ref, w), (ref.spaceId, ref.id), Apply(w, Merged(db, ref));
      && p.txs == db.txs && p.accounts == db.accounts && p.metas.Keys == db.metas.Keys && !p.metas[key].deleted
      && (forall other :: other in db.metas && other != key ==> p.metas[other] == db.metas[other])
      && p.metas[key].ops == after.(needsReview := p.metas[key].ops.needsReview)
  {
  }

  lemma OverlaySound(db: Db, ref: TxRef, w: Patch)
    requires Sound(db) && ref.feed && ref.id in db.txs && (ref.spaceId, ref.id) in db.metas
    requires DistinctIds(PartsIn(Apply(w, Merged(db, ref))))
    ensures Sound(PutOpinions(db, ref, w))
  {
  }

  // the rows do not depend on the overlays
  lemma OverlayKeepsRows(start: Db, feeds: set<SpaceId>, h: Healing, ref: TxRef, p: Db)
    requires RowsAt(start, feeds, h, {}) && Sound(p) && p.txs == h.db.txs && p.accounts == h.db.accounts
    ensures RowsAt(start, feeds, Wrote(h, ref, p), {})
  {
  }

  lemma OverlaySettles(start: Db, feeds: set<SpaceId>, h: Healing, ref: TxRef, w: Patch, todo: set<(SpaceId, TxId)>)
    requires MetasAt(start, feeds, h, todo) && ref.feed && ref.id in h.db.txs && (ref.spaceId, ref.id) in todo
    requires !start.metas[(ref.spaceId, ref.id)].deleted
    requires var after := Apply(w, Merged(h.db, ref));
      !BareContainer(after) && !Unsettled(Fallback(after, h.db.txs[ref.id].ops))
    ensures MetasAt(start, feeds, Wrote(h, ref, PutOpinions(h.db, ref, w)), todo - {(ref.spaceId, ref.id)})
  {
  }

  lemma HealedOverlay(start: Db, feeds: set<SpaceId>, h: Healing, clue: Clue, todo: set<(SpaceId, TxId)>,
                      key: (SpaceId, TxId))
    requires RowsAt(start, feeds, h, {}) && MetasAt(start, feeds, h, todo)
    requires key in todo && !start.metas[key].deleted && Live(h.db, key.1)
    requires Unsettled(Fallback(start.metas[key].ops, h.db.txs[key.1].ops))
    requires !Stamped(start.accounts, h.db.txs[key.1].accountId)
    ensures RowsAt(start, feeds, MetaStep(h, start, clue, key), {})
    ensures MetasAt(start, feeds, MetaStep(h, start, clue, key), todo - {key})
  {
    var raw, m := h.db.txs[key.1], start.metas[key].ops;
    var o := Fallback(m, raw.ops);
    var ref := JoinedRef(key, o);
    HealWrite(h.db, ref, o, clue, raw.amountCents);
    var d := Prepared(h.db, o, ref.spaceId);
    var w := Written(d, ref, HealPatch(o, ref.spaceId, clue(key.1, ref.spaceId), raw.amountCents));
    var p, e := PutOpinions(d, ref, w), MetaStep(h, start, clue, key).db;
    DefaultsKeepRows(start, feeds, h, d, {});
    DefaultsKeepMetas(start, feeds, h, d, todo);
    ResolvedOverlay(o, m, Apply(w, m), raw.ops);
    OverlaySound(d, ref, w);
    OverlayWritten(d, ref, w);
    OverlayKeepsRows(start, feeds, h.(db := d), ref, p);
    OverlaySettles(start, feeds, h.(db := d), ref, w, todo);
    SourceGrows(h, ref, p);
    MintsKeepRows(start, feeds, Wrote(h, ref, p), e, ref.id, {});
    MintsKeepMetas(start, feeds, Wrote(h, ref, p), e, ref.id, todo - {key});
  }

  lemma ResolvedOverlay(o: Opinions, m: Opinions, after: Opinions, raw: Opinions)
    requires o == Fallback(m, raw) && Resolved(o, m, after)
    ensures !BareContainer(after) && !Unsettled(Fallback(after, raw))
  {
  }

  lemma MetaStepAt(start: Db, feeds: set<SpaceId>, h: Healing, clue: Clue, todo: set<(SpaceId, TxId)>,
                   key: (SpaceId, TxId))
    requires RowsAt(start, feeds, h, {}) && MetasAt(start, feeds, h, todo) && key in todo && !start.metas[key].deleted
    ensures RowsAt(start, feeds, MetaStep(h, start, clue, key), {})
    ensures MetasAt(start, feeds, MetaStep(h, start, clue, key), todo - {key})
  {
    if Live(h.db, key.1) && !Stamped(start.accounts, h.db.txs[key.1].accountId) &&
       Unsettled(Fallback(start.metas[key].ops, h.db.txs[key.1].ops))
    {
      HealedOverlay(start, feeds, h, clue, todo, key);
    }
  }

  // ---- all of them ----

  lemma NoOverlayVisited(start: Db, feeds: set<SpaceId>, h: Healing)
    requires h.db.metas == start.metas
    ensures MetasAt(start, feeds, h, OverlaysToVisit(start))
  {
  }

  lemma {:induction false} MetaPassAt(
    start: Db, feeds: set<SpaceId>, h: Healing, clue: Clue, order: seq<(SpaceId, TxId)>, n: nat)
    requires RowsAt(start, feeds, h, {}) && h.db.metas == start.metas
    requires Visits(order, OverlaysToVisit(start)) && n <= |order|
    ensures RowsAt(start, feeds, MetaPass(h, start, clue, order[..n]), {})
    ensures MetasAt(start, feeds, MetaPass(h, start, clue, order[..n]), From(order, n))
  {
    if n == 0 {
      FromAll(order, OverlaysToVisit(start));
      NoOverlayVisited(start, feeds, h);
    } else {
      MetaPassAt(start, feeds, h, clue, order, n - 1);
      FromNext(order, n - 1, OverlaysToVisit(start));
      assert order[..n][..n - 1] == order[..n - 1] && order[n - 1] in OverlaysToVisit(start);
      MetaStepAt(start, feeds, MetaPass(h, start, clue, order[..n - 1]), clue, From(order, n - 1), order[n - 1]);
    }
  }

  lemma PassAt(start: Db, feeds: set<SpaceId>, clue: Clue, rows: seq<TxId>, overlays: seq<(SpaceId, TxId)>)
    requires Sound(start) && Orders(start, feeds, rows, overlays)
    ensures RowsAt(start, feeds, Pass(start, clue, rows, overlays), {})
    ensures MetasAt(start, feeds, Pass(start, clue, rows, overlays), {})
  {
    var own := RowPass(start, clue, rows);
    FromAll(rows, RowsToVisit(start, feeds));
    RowPassAt(start, feeds, clue, rows, |rows|);
    RowPassKeeps(start, clue, rows);
    FromAll(overlays, OverlaysToVisit(start));
    MetaPassAt(start, feeds, own, clue, overlays, |overlays|);
  }

  // ---- what a whole pass does ----

  /** Whatever the orders, a pass settles every row and every overlay it finds, except what it passed
      over on a leg whose source it healed. */
  lemma PassSettles(start: Db, feeds: set<SpaceId>, clue: Clue, rows: seq<TxId>, overlays: seq<(SpaceId, TxId)>)
    requires Sound(start) && Orders(start, feeds, rows, overlays)
    ensures var h := Pass(start, clue, rows, overlays);
      && Sound(h.db) && start.txs.Keys <= h.db.txs.Keys && start.metas.Keys == h.db.metas.Keys
      && (forall k :: k in h.db.txs ==> RowSettled(h.db, feeds, k) || (PassedOver(start, feeds, k) && Sourced(h, k)))
      && (forall key :: key in h.db.metas ==>
            MetaSettled(h.db, key) || (OverlayPassedOver(start, feeds, key) && SourceIn(h.joined, key.1)))
  {
    PassAt(start, feeds, clue, rows, overlays);
    var h := Pass(start, clue, rows, overlays);
    forall k | k in h.db.txs
      ensures RowSettled(h.db, feeds, k) || (PassedOver(start, feeds, k) && Sourced(h, k))
    {
      assert RowAt(start, feeds, h, {}, k);
    }
  }

  // live, off the feeds and off the accounts that are never healed
  predicate InTheOpen(db: Db, feeds: set<SpaceId>, k: TxId) {
    Live(db, k) && db.txs[k].spaceId !in feeds && !Stamped(db.accounts, db.txs[k].accountId)
  }

  /** A pass never folds what it passed over: such a leg ends settled exactly when nothing put it back
      in the open. */
  lemma PassedOverStaysBare(start: Db, feeds: set<SpaceId>, clue: Clue, rows: seq<TxId>,
                            overlays: seq<(SpaceId, TxId)>, y: TxId)
    requires Sound(start) && Orders(start, feeds, rows, overlays) && PassedOver(start, feeds, y)
    ensures var e := Pass(start, clue, rows, overlays).db;
      && y in e.txs && e.txs[y].ops.splits == start.txs[y].ops.splits
      && (RowSettled(e, feeds, y) <==> !InTheOpen(e, feeds, y))
  {
    PassAt(start, feeds, clue, rows, overlays);
    assert RowAt(start, feeds, Pass(start, clue, rows, overlays), {}, y);
  }

  // ---- nothing left, nothing written ----

  lemma {:induction false} SettledRowPass(db: Db, feeds: set<SpaceId>, clue: Clue, order: seq<TxId>)
    requires AllSettled(db, feeds) && forall k :: k in order ==> k in RowsToVisit(db, feeds)
    ensures RowPass(db, clue, order) == Healing(db, [], [])
  {
    if order != [] {
      var k := order[|order| - 1];
      SettledRowPass(db, feeds, clue, order[..|order| - 1]);
      assert k in RowsToVisit(db, feeds);
      assert RowSettled(db, feeds, k);
    }
  }

  lemma {:induction false} SettledMetaPass(db: Db, feeds: set<SpaceId>, clue: Clue, order: seq<(SpaceId, TxId)>)
    requires AllSettled(db, feeds) && forall key :: key in order ==> key in OverlaysToVisit(db)
    ensures MetaPass(Healing(db, [], []), db, clue, order) == Healing(db, [], [])
  {
    if order != [] {
      var key := order[|order| - 1];
      SettledMetaPass(db, feeds, clue, order[..|order| - 1]);
      assert key in OverlaysToVisit(db);
      assert MetaSettled(db, key);
    }
  }

  /** A pass writes nothing exactly when everything is settled. */
  lemma IdleExactlyWhenSettled(db: Db, feeds: set<SpaceId>, clue: Clue, rows: seq<TxId>, overlays: seq<(SpaceId, TxId)>)
    requires Sound(db) && Orders(db, feeds, rows, overlays)
    ensures var h := Pass(db, clue, rows, overlays);
      (h.own == [] && h.joined == [] <==> AllSettled(db, feeds)) && (h.own == [] && h.joined == [] ==> h.db == db)
  {
    RowPassKeeps(db, clue, rows);
    MetaPassOwn(RowPass(db, clue, rows), db, clue, overlays);
    if AllSettled(db, feeds) {
      SettledRowPass(db, feeds, clue, rows);
      SettledMetaPass(db, feeds, clue, overlays);
    }
    PassSettles(db, feeds, clue, rows, overlays);
  }
}
