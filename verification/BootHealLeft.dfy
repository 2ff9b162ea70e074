/**
 What a pass of the boot heal leaves behind, told from the store it starts on: a leg that it passed
 over comes back bare when its source is healed onto an account that the heal itself visits.
 */
module BootHealLeft {
  import opened Records
  import opened MirrorMint
  import opened Joined
  import opened Ledger
  import opened LedgerWrite
  import opened BootHeal
  import opened BootHealPass

  // ---- one visit ----

  // what the pass reads of a row, or of an overlay over its row
  datatype Visit = Visit(ref: TxRef, accountId: AccountId, amountCents: int, o: Opinions)

  function RowVisit(db: Db, k: TxId): Visit
    requires k in db.txs
  {
    var read := db.txs[k];
    Visit(OwnRef(k, read), read.accountId, read.amountCents, read.ops)
  }

  function OverlayVisit(db: Db, key: (SpaceId, TxId)): Visit
    requires key in db.metas
  {
    if key.1 in db.txs then
      var raw := db.txs[key.1];
      var o := Fallback(db.metas[key].ops, raw.ops);
      Visit(JoinedRef(key, o), raw.accountId, raw.amountCents, o)
    else Visit(JoinedRef(key, NO_OPINIONS), "", 0, NO_OPINIONS)
  }

  predicate Heals(db: Db, v: Visit) {
    Live(db, v.ref.id) && !Stamped(db.accounts, v.accountId) && Unsettled(v.o)
  }

  function VisitPatch(v: Visit, clue: Clue): Patch
    requires Unsettled(v.o)
  {
    HealPatch(v.o, v.ref.spaceId, clue(v.ref.id, v.ref.spaceId), v.amountCents)
  }

  // an account a leg can be minted on, and on which the heal would visit it
  predicate Opens(db: Db, feeds: set<SpaceId>, id: Option<AccountId>) {
    Mintable(db, id) && !Stamped(db.accounts, id.value) && db.accounts[id.value].spaceId !in feeds
  }

  // healed as a whole, onto such an account
  predicate Reopens(db: Db, feeds: set<SpaceId>, clue: Clue, v: Visit) {
    && Heals(db, v) && |PartsIn(v.o)| <= 1
    && var patch := VisitPatch(v, clue);
       patch.link.Set? && !LegOn(db, v.ref.id, patch.link.value) &&
       Opens(Prepared(db, v.o, v.ref.spaceId), feeds, patch.link.value)
  }

  // ---- the accounts while the pass runs ----

  predicate Usable(db: Db, id: AccountId) { id in db.accounts && !db.accounts[id].deleted }

  // a live account only moves its balance; a default that comes to life is a fresh one
  ghost predicate AccountsStay(d: Db, e: Db) {
    && (forall id :: Usable(d, id) ==>
          Usable(e, id) && e.accounts[id] == d.accounts[id].(balanceCents := e.accounts[id].balanceCents))
    && (forall space, f :: var id := DefaultAccountId(space, f); Usable(e, id) && !Usable(d, id) ==>
          e.accounts[id].spaceId == space && e.accounts[id].manual && e.accounts[id].kind == FamilyAccountType(f))
  }

  lemma DefaultIdNamesSpace(s1: SpaceId, f1: DefaultFamily, s2: SpaceId, f2: DefaultFamily)
    requires DefaultAccountId(s1, f1) == DefaultAccountId(s2, f2)
    ensures f1 == f2 && s1 == s2
  {
    DefaultIdNamesFamily(s1, f1, s2, f2);
    var n := |DefaultAccountId(s1, f1)| - |s1|;
    assert DefaultAccountId(s1, f1)[n..] == s1 && DefaultAccountId(s2, f2)[n..] == s2;
  }

  lemma EnsureStays(start: Db, d: Db, space: SpaceId, f: DefaultFamily)
    requires AccountsStay(start, d)
    ensures AccountsStay(start, EnsureDefault(d, space, f))
  {
    forall s, g | DefaultAccountId(s, g) == DefaultAccountId(space, f) ensures g == f && s == space {
      DefaultIdNamesSpace(s, g, space, f);
    }
  }

  lemma {:induction false} EnsuredStay(start: Db, d: Db, space: SpaceId, parts: seq<Part>)
    requires AccountsStay(start, d)
    ensures AccountsStay(start, EnsuredFor(d, space, parts))
  {
    if parts != [] {
      var p, e := parts[|parts| - 1], EnsuredFor(d, space, parts[..|parts| - 1]);
      EnsuredStay(start, d, space, parts[..|parts| - 1]);
      if BarePart(p) && DefaultFamilyFor(p.catId) != Some(TransferPot) {
        EnsureStays(start, e, space, DefaultFamilyFor(p.catId).value);
      }
    }
  }

  lemma PreparedStays(start: Db, d: Db, o: Opinions, space: SpaceId)
    requires AccountsStay(start, d) && Unsettled(o)
    ensures AccountsStay(start, Prepared(d, o, space))
  {
    if |PartsIn(o)| > 1 {
      EnsuredStay(start, d, space, PartsIn(o));
    } else {
      EnsureStays(start, d, space, DefaultFamilyFor(o.catId.value).value);
    }
  }

  // the bank text names accounts that are there
  ghost predicate NamesLiveAccounts(db: Db, clue: Clue) {
    forall t, space :: clue(t, space).Some? ==> Usable(db, clue(t, space).value.0)
  }

  // so what an account opens is known from the start
  lemma OpensFromTheStart(start: Db, d: Db, feeds: set<SpaceId>, clue: Clue, v: Visit)
    requires AccountsStay(start, d) && NamesLiveAccounts(start, clue) && DefaultsTyped(start.accounts)
    requires Unsettled(v.o) && |PartsIn(v.o)| <= 1 && VisitPatch(v, clue).link.Set?
    ensures var id := VisitPatch(v, clue).link.value;
      && Opens(Prepared(d, v.o, v.ref.spaceId), feeds, id) == Opens(Prepared(start, v.o, v.ref.spaceId), feeds, id)
      && id.Some?
  {
    var space, f := v.ref.spaceId, DefaultFamilyFor(v.o.catId.value).value;
    if !f.TransferPot? {
      var id := DefaultAccountId(space, f);
      assert Usable(EnsureDefault(d, space, f), id) && Usable(EnsureDefault(start, space, f), id);
    }
  }

  // ---- the leg of a healed row ----

  predicate SameRow(d: Db, e: Db, k: TxId) {
    (k in e.txs) == (k in d.txs) && (k in d.txs ==> e.txs[k] == d.txs[k])
  }

  lemma {:induction false} StepsLeave(e: Db, steps: seq<Step>, k: TxId)
    requires forall step :: step in steps ==> Mirror(step.source.id) != k
    ensures SameRow(e, RunSteps(e, steps), k)
    decreases |steps|
  {
    if steps != [] {
      RowHalfEffect(e, steps[0]);
      StepsLeave(RunStep(e, steps[0]), steps[1..], k);
    }
  }

  lemma {:induction false} AsksLeave(d: Db, e: Db, asks: seq<Ask>, k: TxId)
    requires forall q :: q in asks ==> Mirror(q.source.id) != k
    ensures SameRow(e, RunAsks(d, e, asks), k)
    decreases |asks|
  {
    if asks != [] {
      var f := RunSteps(e, asks[0].Plan(d).steps);
      StepsLeave(e, asks[0].Plan(d).steps, k);
      AsksLeave(d, f, asks[1..], k);
    }
  }

  // the row's own leg after a heal: minted on the linked account, or left alone
  ghost predicate OwnLegAfter(d: Db, e: Db, t: TxId, link: Change<AccountId>) {
    if link.Set? && Mintable(d, link.value) && !LegOn(d, t, link.value) then
      && Live(e, Mirror(t)) && link.value == Some(e.txs[Mirror(t)].accountId)
      && link.value.value in e.accounts && e.txs[Mirror(t)].spaceId == d.accounts[link.value.value].spaceId
    else SameRow(d, e, Mirror(t))
  }

  lemma HealedWhole(d: Db, ref: TxRef, patch: Patch)
    requires ref.id in d.txs && ref.id.Row? && patch.peer.Keep? && patch.splits.Keep?
    requires Merged(d, ref).link.None? && Merged(d, ref).peer.None?
    ensures OwnLegAfter(d, Write(d, ref, patch), ref.id, patch.link)
  {
    var p := PutOpinions(d, ref, Written(d, ref, patch));
    assert PartAsks(d, ref, patch) == [];
    if patch.link.Set? {
      var q := LinkAsk(d, ref, patch);
      if q.Minting(d) {
        var step := MintStep(d, q.source, q.next.value);
        assert q.Plan(d).steps == [step];
        RunOne(p, step);
      } else {
        assert q.Plan(d).steps == [];
      }
    }
  }

  lemma HealedInParts(d: Db, ref: TxRef, patch: Patch)
    requires ref.id in d.txs && ref.id.Row? && patch.link.Keep? && PartsNamedOnce(patch)
    ensures OwnLegAfter(d, Write(d, ref, patch), ref.id, patch.link)
  {
    PartAsksAre(d, ref, patch);
    AsksLeave(d, PutOpinions(d, ref, Written(d, ref, patch)), PartAsks(d, ref, patch), Mirror(ref.id));
  }

  lemma VisitedLeg(d: Db, v: Visit, clue: Clue)
    requires v.ref.id in d.txs && v.ref.id.Row? && Unsettled(v.o) && DistinctIds(PartsIn(v.o))
    requires BareRow(v.o) ==> Merged(d, v.ref).link.None? && Merged(d, v.ref).peer.None?
    ensures OwnLegAfter(d, Write(d, v.ref, VisitPatch(v, clue)), v.ref.id, VisitPatch(v, clue).link)
  {
    var found := clue(v.ref.id, v.ref.spaceId);
    if |PartsIn(v.o)| > 1 {
      FoldedPartsFold(PartsIn(v.o), v.ref.spaceId, found, v.amountCents);
      FoldedIds(PartsIn(v.o), FoldedParts(PartsIn(v.o), v.ref.spaceId, found, v.amountCents));
      HealedInParts(d, v.ref, VisitPatch(v, clue));
    } else {
      HealedWhole(d, v.ref, VisitPatch(v, clue));
    }
  }

  // ---- a leg that was passed over, as the pass goes ----

  // back in the open for good: its account is there
  predicate Reopened(db: Db, feeds: set<SpaceId>, y: TxId) {
    InTheOpen(db, feeds, y) && Usable(db, db.txs[y].accountId)
  }

  // as it was until its source is visited, in the open if that visit reopens it
  ghost predicate Tracked(start: Db, feeds: set<SpaceId>, clue: Clue, e: Db, y: TxId, visit: Option<Visit>)
    requires y in start.txs
  {
    match visit
    case None => SameRow(start, e, y)
    case Some(v) => if Reopens(start, feeds, clue, v) then Reopened(e, feeds, y) else !InTheOpen(e, feeds, y)
  }

  // an account that neither stamps nor unstamps what is on it
  lemma StillTracked(start: Db, feeds: set<SpaceId>, clue: Clue, d: Db, e: Db, y: TxId, visit: Option<Visit>)
    requires y in start.txs && Tracked(start, feeds, clue, d, y, visit) && SameRow(d, e, y)
    requires AccountsStay(d, e) && StampsStay(d, e)
    ensures Tracked(start, feeds, clue, e, y, visit)
  {
  }

  // a visit that mints its own leg puts it in the open exactly where the account is
  lemma MintTracks(start: Db, feeds: set<SpaceId>, clue: Clue, d: Db, e: Db, v: Visit)
    requires Heals(start, v) && VisitPatch(v, clue).link.Set? && |PartsIn(v.o)| <= 1 && SameKinds(d, e)
    requires var link := VisitPatch(v, clue).link;
      && Opens(d, feeds, link.value) == Opens(Prepared(start, v.o, v.ref.spaceId), feeds, link.value)
      && Mintable(d, link.value) && !LegOn(start, v.ref.id, link.value) && !LegOn(d, v.ref.id, link.value)
      && OwnLegAfter(d, e, v.ref.id, link)
    requires Mirror(v.ref.id) in start.txs
    ensures Tracked(start, feeds, clue, e, Mirror(v.ref.id), Some(v))
  {
  }

  // any other visit leaves it where it was passed over
  lemma StayTracks(start: Db, feeds: set<SpaceId>, clue: Clue, d: Db, e: Db, v: Visit)
    requires PassedOver(start, feeds, Mirror(v.ref.id)) && StampsStay(start, e) && SameRow(start, e, Mirror(v.ref.id))
    requires !Reopens(start, feeds, clue, v)
    ensures Tracked(start, feeds, clue, e, Mirror(v.ref.id), Some(v))
  {
  }

  lemma VisitWrites(h: Db, v: Visit, clue: Clue)
    requires v.ref.id in h.txs && v.ref.id.Row? && DefaultsTyped(h.accounts)
    requires Unsettled(v.o) && StillFits(h, v.ref, v.o)
    requires BareRow(v.o) ==> Merged(h, v.ref).link.None? && Merged(h, v.ref).peer.None?
    ensures var d, e := Prepared(h, v.o, v.ref.spaceId), Healed(h, v.ref, v.o, clue, v.amountCents);
      && d.txs == h.txs && StampsStay(h, d) && SameKinds(d, e)
      && OwnLegAfter(d, e, v.ref.id, VisitPatch(v, clue).link)
  {
    HealWrite(h, v.ref, v.o, clue, v.amountCents);
    assert Merged(Prepared(h, v.o, v.ref.spaceId), v.ref) == Merged(h, v.ref);
    VisitedLeg(Prepared(h, v.o, v.ref.spaceId), v, clue);
  }

  lemma VisitTracks(start: Db, feeds: set<SpaceId>, clue: Clue, h: Db, v: Visit)
    requires DefaultsTyped(start.accounts) && NamesLiveAccounts(start, clue)
    requires AccountsStay(start, h) && StampsStay(start, h) && DefaultsTyped(h.accounts)
    requires v.ref.id.Row? && PassedOver(start, feeds, Mirror(v.ref.id)) && SameRow(start, h, Mirror(v.ref.id))
    requires v.ref.id in h.txs && Heals(start, v) && StillFits(h, v.ref, v.o)
    requires BareRow(v.o) ==> Merged(h, v.ref).link.None? && Merged(h, v.ref).peer.None?
    ensures Tracked(start, feeds, clue, Healed(h, v.ref, v.o, clue, v.amountCents), Mirror(v.ref.id), Some(v))
  {
    VisitWrites(h, v, clue);
    WroteTracks(start, feeds, clue, h, Prepared(h, v.o, v.ref.spaceId), Healed(h, v.ref, v.o, clue, v.amountCents), v);
  }

  // the same of the accounts first, `d`, and the whole write, `e`
  lemma WroteTracks(start: Db, feeds: set<SpaceId>, clue: Clue, h: Db, d: Db, e: Db, v: Visit)
    requires DefaultsTyped(start.accounts) && NamesLiveAccounts(start, clue)
    requires AccountsStay(start, h) && StampsStay(start, h)
    requires v.ref.id.Row? && PassedOver(start, feeds, Mirror(v.ref.id)) && SameRow(start, h, Mirror(v.ref.id))
    requires Heals(start, v) && d == Prepared(h, v.o, v.ref.spaceId) && d.txs == h.txs && StampsStay(h, d)
    requires SameKinds(d, e) && OwnLegAfter(d, e, v.ref.id, VisitPatch(v, clue).link)
    ensures Tracked(start, feeds, clue, e, Mirror(v.ref.id), Some(v))
  {
    var link := VisitPatch(v, clue).link;
    if link.Set? && |PartsIn(v.o)| <= 1 {
      OpensFromTheStart(start, h, feeds, clue, v);
      if Mintable(d, link.value) && !LegOn(d, v.ref.id, link.value) {
        MintTracks(start, feeds, clue, d, e, v);
        return;
      }
    }
    StayTracks(start, feeds, clue, d, e, v);
  }

  // ---- a leg of another row ----

  lemma AccountsStayOn(c: Db, d: Db, e: Db)
    requires AccountsStay(c, d) && AccountsStay(d, e)
    ensures AccountsStay(c, e)
  {
  }

  lemma KindsStay(d: Db, e: Db)
    requires SameKinds(d, e)
    ensures AccountsStay(d, e) && StampsStay(d, e)
  {
  }

  // a heal changes its own row in place, its legs, and the accounts it is due
  lemma HealElsewhere(h: Db, ref: TxRef, o: Opinions, clue: Clue, amountCents: int, k: TxId)
    requires ref.id in h.txs && DefaultsTyped(h.accounts) && Unsettled(o) && StillFits(h, ref, o)
    ensures var e := Healed(h, ref, o, clue, amountCents);
      AccountsStay(h, e) && StampsStay(h, e) && (!LegFor(ref.id, k) && (ref.feed || ref.id != k) ==> SameRow(h, e, k))
  {
    var d, e := Prepared(h, o, ref.spaceId), Healed(h, ref, o, clue, amountCents);
    HealWrite(h, ref, o, clue, amountCents);
    PreparedStays(h, h, o, ref.spaceId);
    KindsStay(d, e);
    AccountsStayOn(h, d, e);
  }

  // ---- the first loop ----

  lemma RowStepTracks(start: Db, feeds: set<SpaceId>, clue: Clue, h: Healing, todo: set<TxId>, k: TxId, y: TxId)
    requires Sound(start) && NamesLiveAccounts(start, clue) && RowsAt(start, feeds, h, todo) && k in todo
    requires PassedOver(start, feeds, y) && LegFor(k, y) && k == y.source && k.Row?
    requires AccountsStay(start, h.db) && SameRow(start, h.db, y)
    ensures Tracked(start, feeds, clue, RowStep(h, start, clue, k).db, y, Some(RowVisit(start, k)))
  {
    var v := RowVisit(start, k);
    assert RowAt(start, feeds, h, todo, k);
    if Heals(start, v) {
      VisitTracks(start, feeds, clue, h.db, v);
    } else {
      StayTracks(start, feeds, clue, h.db, h.db, v);
    }
  }

  lemma RowStepLeaves(start: Db, feeds: set<SpaceId>, clue: Clue, h: Healing, todo: set<TxId>, k: TxId, z: TxId)
    requires Sound(start) && RowsAt(start, feeds, h, todo) && k in todo
    ensures var e := RowStep(h, start, clue, k).db;
      && AccountsStay(h.db, e) && StampsStay(h.db, e)
      && (!LegFor(k, z) && (k != z || PassedOver(start, feeds, z)) ==> SameRow(h.db, e, z))
  {
    var read := start.txs[k];
    assert RowAt(start, feeds, h, todo, k);
    if !Stamped(start.accounts, read.accountId) && Unsettled(read.ops) {
      HealElsewhere(h.db, OwnRef(k, read), read.ops, clue, read.amountCents, z);
    }
  }

  // what the loop knows of a leg that was passed over, and of its source
  ghost predicate LegAt(start: Db, feeds: set<SpaceId>, clue: Clue, e: Db, y: TxId, visit: Option<Visit>)
    requires y in start.txs && y.Mirror?
  {
    && AccountsStay(start, e) && Tracked(start, feeds, clue, e, y, visit)
    && (y.source.Row? && visit.None? ==> SameRow(start, e, y.source))
  }

  lemma RowStepKeepsLeg(start: Db, feeds: set<SpaceId>, clue: Clue, h: Healing, todo: set<TxId>, k: TxId, y: TxId,
                        visit: Option<Visit>)
    requires Sound(start) && NamesLiveAccounts(start, clue) && RowsAt(start, feeds, h, todo) && k in todo
    requires PassedOver(start, feeds, y) && LegAt(start, feeds, clue, h.db, y, visit)
    requires LegFor(k, y) ==> k == y.source && k.Row? && visit.None?
    ensures LegAt(start, feeds, clue, RowStep(h, start, clue, k).db, y,
                  if k == y.source then Some(RowVisit(start, k)) else visit)
  {
    var e := RowStep(h, start, clue, k).db;
    RowStepLeaves(start, feeds, clue, h, todo, k, y);
    AccountsStayOn(start, h.db, e);
    if k == y.source {
      RowStepTracks(start, feeds, clue, h, todo, k, y);
    } else {
      RowStepLeaves(start, feeds, clue, h, todo, k, y.source);
      StillTracked(start, feeds, clue, h.db, e, y, visit);
    }
  }

  function OwnVisit(start: Db, order: seq<TxId>, t: TxId): Option<Visit> {
    if t in order && t in start.txs then Some(RowVisit(start, t)) else None
  }

  lemma NextOwnVisit(start: Db, clue: Clue, order: seq<TxId>, n: nat, t: TxId)
    requires n < |order| && order[n] in start.txs
    ensures OwnVisit(start, order[..n + 1], t) ==
      if order[n] == t then Some(RowVisit(start, order[n])) else OwnVisit(start, order[..n], t)
    ensures RowPass(start, clue, order[..n + 1]) == RowStep(RowPass(start, clue, order[..n]), start, clue, order[n])
  {
    assert order[..n + 1][..n] == order[..n] && order[..n + 1] == order[..n] + [order[n]];
  }

  lemma NoVisitYet(start: Db, feeds: set<SpaceId>, clue: Clue, y: TxId)
    requires y in start.txs && y.Mirror?
    ensures LegAt(start, feeds, clue, start, y, None)
  {
  }

  // the rows of `order` with a leg in `y`
  ghost predicate OnlyOwnVisitor(order: seq<TxId>, y: TxId)
    requires y.Mirror?
  {
    forall k :: k in order && LegFor(k, y) ==> k == y.source && k.Row?
  }

  lemma RowsTrackNext(start: Db, feeds: set<SpaceId>, clue: Clue, order: seq<TxId>, n: nat, y: TxId)
    requires Sound(start) && NamesLiveAccounts(start, clue) && Visits(order, RowsToVisit(start, feeds)) && n < |order|
    requires PassedOver(start, feeds, y) && OnlyOwnVisitor(order, y)
    requires LegAt(start, feeds, clue, RowPass(start, clue, order[..n]).db, y, OwnVisit(start, order[..n], y.source))
    ensures LegAt(start, feeds, clue, RowPass(start, clue, order[..n + 1]).db, y,
                  OwnVisit(start, order[..n + 1], y.source))
  {
    var k, visit := order[n], OwnVisit(start, order[..n], y.source);
    RowPassAt(start, feeds, clue, order, n);
    NextOf(order, n, RowsToVisit(start, feeds));
    assert LegFor(k, y) ==> k == y.source && k.Row? && visit.None?;
    RowStepKeepsLeg(start, feeds, clue, RowPass(start, clue, order[..n]), From(order, n), k, y, visit);
    NextOwnVisit(start, clue, order, n, y.source);
  }

  lemma {:induction false} RowsTrack(start: Db, feeds: set<SpaceId>, clue: Clue, order: seq<TxId>, n: nat, y: TxId)
    requires Sound(start) && NamesLiveAccounts(start, clue) && Visits(order, RowsToVisit(start, feeds)) && n <= |order|
    requires PassedOver(start, feeds, y) && OnlyOwnVisitor(order, y)
    ensures LegAt(start, feeds, clue, RowPass(start, clue, order[..n]).db, y, OwnVisit(start, order[..n], y.source))
  {
    if n == 0 {
      NoVisitYet(start, feeds, clue, y);
    } else {
      RowsTrack(start, feeds, clue, order, n - 1, y);
      RowsTrackNext(start, feeds, clue, order, n - 1, y);
    }
  }

  // ---- the second loop ----

  lemma MetaStepLeaves(start: Db, feeds: set<SpaceId>, clue: Clue, h: Healing, todo: set<(SpaceId, TxId)>,
                       key: (SpaceId, TxId), z: TxId)
    requires RowsAt(start, feeds, h, {}) && MetasAt(start, feeds, h, todo) && key in todo
    ensures var e := MetaStep(h, start, clue, key).db;
      AccountsStay(h.db, e) && StampsStay(h.db, e) && (!LegFor(key.1, z) ==> SameRow(h.db, e, z))
  {
    if Live(h.db, key.1) && !Stamped(start.accounts, h.db.txs[key.1].accountId) {
      var raw := h.db.txs[key.1];
      var o := Fallback(start.metas[key].ops, raw.ops);
      if Unsettled(o) { HealElsewhere(h.db, JoinedRef(key, o), o, clue, raw.amountCents, z); }
    }
  }

  lemma MetaStepTracks(start: Db, feeds: set<SpaceId>, clue: Clue, h: Healing, todo: set<(SpaceId, TxId)>,
                       key: (SpaceId, TxId), y: TxId)
    requires Sound(start) && NamesLiveAccounts(start, clue)
    requires RowsAt(start, feeds, h, {}) && MetasAt(start, feeds, h, todo) && key in todo
    requires PassedOver(start, feeds, y) && key.1 == y.source && key.1.Row?
    requires AccountsStay(start, h.db) && SameRow(start, h.db, y) && SameRow(start, h.db, key.1)
    ensures Tracked(start, feeds, clue, MetaStep(h, start, clue, key).db, y, Some(OverlayVisit(start, key)))
  {
    var v := OverlayVisit(start, key);
    if Heals(start, v) {
      VisitTracks(start, feeds, clue, h.db, v);
    } else {
      StayTracks(start, feeds, clue, h.db, h.db, v);
    }
  }

  lemma MetaStepKeepsLeg(start: Db, feeds: set<SpaceId>, clue: Clue, h: Healing, todo: set<(SpaceId, TxId)>,
                         key: (SpaceId, TxId), y: TxId, visit: Option<Visit>)
    requires Sound(start) && NamesLiveAccounts(start, clue)
    requires RowsAt(start, feeds, h, {}) && MetasAt(start, feeds, h, todo) && key in todo
    requires PassedOver(start, feeds, y) && LegAt(start, feeds, clue, h.db, y, visit)
    requires LegFor(key.1, y) ==> key.1 == y.source && key.1.Row? && visit.None?
    ensures LegAt(start, feeds, clue, MetaStep(h, start, clue, key).db, y,
                  if key.1 == y.source then Some(OverlayVisit(start, key)) else visit)
  {
    var e := MetaStep(h, start, clue, key).db;
    MetaStepLeaves(start, feeds, clue, h, todo, key, y);
    AccountsStayOn(start, h.db, e);
    if key.1 == y.source {
      MetaStepTracks(start, feeds, clue, h, todo, key, y);
    } else {
      MetaStepLeaves(start, feeds, clue, h, todo, key, y.source);
      StillTracked(start, feeds, clue, h.db, e, y, visit);
    }
  }

  // the visit of the one overlay that may lie on the leg's source, if it is among these
  function JoinedVisit(start: Db, order: seq<(SpaceId, TxId)>, visitor: Option<(SpaceId, TxId)>,
                       was: Option<Visit>): Option<Visit>
  {
    if visitor.Some? && visitor.value in order && visitor.value in start.metas
    then Some(OverlayVisit(start, visitor.value)) else was
  }

  lemma NextJoinedVisit(start: Db, h: Healing, clue: Clue, order: seq<(SpaceId, TxId)>, n: nat,
                        visitor: Option<(SpaceId, TxId)>, was: Option<Visit>)
    requires n < |order| && order[n] in start.metas
    ensures JoinedVisit(start, order[..n + 1], visitor, was) ==
      if visitor == Some(order[n]) then Some(OverlayVisit(start, order[n]))
      else JoinedVisit(start, order[..n], visitor, was)
    ensures MetaPass(h, start, clue, order[..n + 1]) ==
      MetaStep(MetaPass(h, start, clue, order[..n]), start, clue, order[n])
  {
    assert order[..n + 1][..n] == order[..n] && order[..n + 1] == order[..n] + [order[n]];
  }

  lemma NoJoinedVisit(start: Db, h: Healing, clue: Clue, order: seq<(SpaceId, TxId)>,
                      visitor: Option<(SpaceId, TxId)>, was: Option<Visit>)
    ensures JoinedVisit(start, order[..0], visitor, was) == was && MetaPass(h, start, clue, order[..0]) == h
  {
  }

  // the overlays of `order` that lie on the source of `y`
  ghost predicate OnlyVisitor(order: seq<(SpaceId, TxId)>, y: TxId, visitor: Option<(SpaceId, TxId)>)
    requires y.Mirror?
  {
    && (forall key :: key in order && (LegFor(key.1, y) || key.1 == y.source) ==> visitor == Some(key) && key.1.Row?)
    && (visitor.Some? ==> visitor.value.1 == y.source && visitor.value in order)
  }

  lemma ThisVisitor(start: Db, order: seq<(SpaceId, TxId)>, n: nat, y: TxId, visitor: Option<(SpaceId, TxId)>,
                    was: Option<Visit>)
    requires n < |order| && Visits(order, OverlaysToVisit(start))
    requires y.Mirror? && OnlyVisitor(order, y, visitor) && (visitor.Some? ==> was.None?)
    ensures order[n].1 == y.source <==> visitor == Some(order[n])
    ensures LegFor(order[n].1, y) ==>
      order[n].1 == y.source && order[n].1.Row? && JoinedVisit(start, order[..n], visitor, was).None?
  {
  }

  // the second loop over `order`, after the first left `h`
  ghost predicate SecondLoop(start: Db, feeds: set<SpaceId>, clue: Clue, h: Healing, order: seq<(SpaceId, TxId)>) {
    && Sound(start) && NamesLiveAccounts(start, clue) && RowsAt(start, feeds, h, {}) && h.db.metas == start.metas
    && Visits(order, OverlaysToVisit(start))
  }

  lemma OverlaysTrackNext(
    start: Db, feeds: set<SpaceId>, clue: Clue, h: Healing, order: seq<(SpaceId, TxId)>, n: nat, y: TxId,
    visitor: Option<(SpaceId, TxId)>, was: Option<Visit>)
    requires SecondLoop(start, feeds, clue, h, order) && n < |order| && PassedOver(start, feeds, y)
    requires OnlyVisitor(order, y, visitor) && (visitor.Some? ==> was.None?)
    requires LegAt(start, feeds, clue, MetaPass(h, start, clue, order[..n]).db, y,
                   JoinedVisit(start, order[..n], visitor, was))
    ensures LegAt(start, feeds, clue, MetaPass(h, start, clue, order[..n + 1]).db, y,
                  JoinedVisit(start, order[..n + 1], visitor, was))
  {
    MetaPassAt(start, feeds, h, clue, order, n);
    NextOf(order, n, OverlaysToVisit(start));
    ThisVisitor(start, order, n, y, visitor, was);
    MetaStepKeepsLeg(start, feeds, clue, MetaPass(h, start, clue, order[..n]), From(order, n), order[n], y,
                     JoinedVisit(start, order[..n], visitor, was));
    NextJoinedVisit(start, h, clue, order, n, visitor, was);
  }

  lemma {:induction false} OverlaysTrack(
    start: Db, feeds: set<SpaceId>, clue: Clue, h: Healing, order: seq<(SpaceId, TxId)>, n: nat, y: TxId,
    visitor: Option<(SpaceId, TxId)>, was: Option<Visit>) returns (e: Db)
    requires SecondLoop(start, feeds, clue, h, order) && n <= |order| && PassedOver(start, feeds, y)
    requires OnlyVisitor(order, y, visitor) && (visitor.Some? ==> was.None?)
    requires LegAt(start, feeds, clue, h.db, y, was)
    ensures e == MetaPass(h, start, clue, order[..n]).db
    ensures LegAt(start, feeds, clue, e, y, JoinedVisit(start, order[..n], visitor, was))
  {
    e := MetaPass(h, start, clue, order[..n]).db;
    if n == 0 {
      NoJoinedVisit(start, h, clue, order, visitor, was);
    } else {
      var d := OverlaysTrack(start, feeds, clue, h, order, n - 1, y, visitor, was);
      OverlaysTrackNext(start, feeds, clue, h, order, n - 1, y, visitor, was);
    }
  }

  // ---- when a passed-over leg comes back ----

  // some visit of the pass reopens the leg
  ghost predicate ComesBack(db: Db, feeds: set<SpaceId>, clue: Clue, y: TxId)
    requires y.Mirror?
  {
    || (y.source in RowsToVisit(db, feeds) && Reopens(db, feeds, clue, RowVisit(db, y.source)))
    || exists key :: key in OverlaysToVisit(db) && key.1 == y.source && Reopens(db, feeds, clue, OverlayVisit(db, key))
  }

  // one visit at most can mint this leg, and it is its own source's
  ghost predicate OneVisit(db: Db, feeds: set<SpaceId>, y: TxId)
    requires y.Mirror?
  {
    && (forall k :: k in RowsToVisit(db, feeds) && LegFor(k, y) ==> k == y.source && k.Row?)
    && (forall key :: key in OverlaysToVisit(db) && (LegFor(key.1, y) || key.1 == y.source) ==>
          key.1 == y.source && key.1.Row? && key.1 !in RowsToVisit(db, feeds))
    && (forall key, other :: key in OverlaysToVisit(db) && other in OverlaysToVisit(db) ==>
          key.1 == y.source && other.1 == y.source ==> key == other)
  }

  ghost function Visitor(order: seq<(SpaceId, TxId)>, t: TxId): Option<(SpaceId, TxId)> {
    if exists key :: key in order && key.1 == t then
      var key :| key in order && key.1 == t; Some(key)
    else None
  }

  lemma VisitorsAre(db: Db, feeds: set<SpaceId>, rows: seq<TxId>, overlays: seq<(SpaceId, TxId)>, y: TxId)
    requires Orders(db, feeds, rows, overlays) && y.Mirror? && OneVisit(db, feeds, y)
    ensures OnlyOwnVisitor(rows, y) && OnlyVisitor(overlays, y, Visitor(overlays, y.source))
    ensures Visitor(overlays, y.source).Some? ==> OwnVisit(db, rows, y.source).None?
  {
  }

  lemma ComesBackByItsVisit(db: Db, feeds: set<SpaceId>, clue: Clue, rows: seq<TxId>,
                            overlays: seq<(SpaceId, TxId)>, y: TxId)
    requires Orders(db, feeds, rows, overlays) && y.Mirror? && OneVisit(db, feeds, y)
    ensures var visit := JoinedVisit(db, overlays, Visitor(overlays, y.source), OwnVisit(db, rows, y.source));
      ComesBack(db, feeds, clue, y) <==> visit.Some? && Reopens(db, feeds, clue, visit.value)
  {
  }

  lemma TrackedEnd(start: Db, feeds: set<SpaceId>, clue: Clue, e: Db, y: TxId, visit: Option<Visit>)
    requires PassedOver(start, feeds, y) && Tracked(start, feeds, clue, e, y, visit) && StampsStay(start, e)
    ensures InTheOpen(e, feeds, y) <==> visit.Some? && Reopens(start, feeds, clue, visit.value)
  {
  }

  lemma TrackedThrough(start: Db, feeds: set<SpaceId>, clue: Clue, rows: seq<TxId>,
                       overlays: seq<(SpaceId, TxId)>, y: TxId)
    requires Sound(start) && Orders(start, feeds, rows, overlays) && NamesLiveAccounts(start, clue)
    requires PassedOver(start, feeds, y) && OneVisit(start, feeds, y)
    ensures var visit := JoinedVisit(start, overlays, Visitor(overlays, y.source), OwnVisit(start, rows, y.source));
      Tracked(start, feeds, clue, Pass(start, clue, rows, overlays).db, y, visit)
  {
    var h, was, visitor := RowPass(start, clue, rows), OwnVisit(start, rows, y.source), Visitor(overlays, y.source);
    VisitorsAre(start, feeds, rows, overlays, y);
    FromAll(rows, RowsToVisit(start, feeds));
    RowPassAt(start, feeds, clue, rows, |rows|);
    RowPassKeeps(start, clue, rows);
    RowsTrack(start, feeds, clue, rows, |rows|, y);
    FromAll(overlays, OverlaysToVisit(start));
    var e := OverlaysTrack(start, feeds, clue, h, overlays, |overlays|, y, visitor, was);
  }

  /** A leg that the pass passed over is left behind exactly when the visit of its source, judged on the
      store the pass starts from, links an account where the heal itself would have visited it. */
  lemma LeftExactlyWhen(start: Db, feeds: set<SpaceId>, clue: Clue, rows: seq<TxId>,
                        overlays: seq<(SpaceId, TxId)>, y: TxId)
    requires Sound(start) && Orders(start, feeds, rows, overlays) && NamesLiveAccounts(start, clue)
    requires PassedOver(start, feeds, y) && OneVisit(start, feeds, y)
    ensures var e := Pass(start, clue, rows, overlays).db;
      y in e.txs && (!RowSettled(e, feeds, y) <==> ComesBack(start, feeds, clue, y))
  {
    var e := Pass(start, clue, rows, overlays).db;
    var visit := JoinedVisit(start, overlays, Visitor(overlays, y.source), OwnVisit(start, rows, y.source));
    PassAt(start, feeds, clue, rows, overlays);
    TrackedThrough(start, feeds, clue, rows, overlays, y);
    TrackedEnd(start, feeds, clue, e, y, visit);
    ComesBackByItsVisit(start, feeds, clue, rows, overlays, y);
    PassedOverStaysBare(start, feeds, clue, rows, overlays, y);
  }

  lemma {:induction false} JoinedAreVisited(h: Healing, start: Db, clue: Clue, order: seq<(SpaceId, TxId)>)
    ensures forall r :: r in MetaPass(h, start, clue, order).joined ==>
      r in h.joined || exists key :: key in order && key.1 == r
  {
    if order != [] {
      JoinedAreVisited(h, start, clue, order[..|order| - 1]);
    }
  }

  // each passed-over leg has one visit at most, and no overlay on one has its source on an overlay
  ghost predicate EachLegOneVisit(db: Db, feeds: set<SpaceId>) {
    && (forall y :: PassedOver(db, feeds, y) ==> OneVisit(db, feeds, y))
    && (forall key, other :: OverlayPassedOver(db, feeds, key) && other in OverlaysToVisit(db) ==>
          !LegFor(other.1, key.1))
  }

  lemma OverlaysSettle(start: Db, feeds: set<SpaceId>, clue: Clue, rows: seq<TxId>, overlays: seq<(SpaceId, TxId)>,
                       key: (SpaceId, TxId))
    requires Sound(start) && Orders(start, feeds, rows, overlays) && EachLegOneVisit(start, feeds)
    requires key in Pass(start, clue, rows, overlays).db.metas
    ensures MetaSettled(Pass(start, clue, rows, overlays).db, key)
  {
    PassSettles(start, feeds, clue, rows, overlays);
    RowPassKeeps(start, clue, rows);
    JoinedAreVisited(RowPass(start, clue, rows), start, clue, overlays);
  }

  /** The pass ends with nothing left to heal exactly when no leg it passed over comes back. */
  lemma SettledExactlyWhen(start: Db, feeds: set<SpaceId>, clue: Clue, rows: seq<TxId>, overlays: seq<(SpaceId, TxId)>)
    requires Sound(start) && Orders(start, feeds, rows, overlays) && NamesLiveAccounts(start, clue)
    requires EachLegOneVisit(start, feeds)
    ensures AllSettled(Pass(start, clue, rows, overlays).db, feeds) <==>
      forall y :: PassedOver(start, feeds, y) ==> !ComesBack(start, feeds, clue, y)
  {
    var e := Pass(start, clue, rows, overlays).db;
    PassSettles(start, feeds, clue, rows, overlays);
    forall y | PassedOver(start, feeds, y)
      ensures y in e.txs && (!RowSettled(e, feeds, y) <==> ComesBack(start, feeds, clue, y))
    {
      LeftExactlyWhen(start, feeds, clue, rows, overlays, y);
    }
    forall key | key in e.metas ensures MetaSettled(e, key) {
      OverlaysSettle(start, feeds, clue, rows, overlays, key);
    }
  }

  // ---- a pass that leaves work ----

  const BARE := Part(None, TransferOut, 50, None, None)
  const ATM := Row("atm")

  // a withdrawal nobody linked, whose retired leg was once split into bare parts
  function AtmStore(): Db {
    Db(map["bank" := Account("home", Checking, false, 0, None, false)],
       map[ATM := Tx("home", "bank", 0, -100, false, false, NO_OPINIONS.(catId := Some(CashWithdraw))),
           Mirror(ATM) := Tx("home", "jar", 0, 100, false, true, NO_OPINIONS.(splits := Some([BARE, BARE])))],
       map[])
  }

  lemma AtmStoreIsSound()
    ensures Sound(AtmStore()) && Orders(AtmStore(), {}, [ATM], [])
  {
  }

  /** The withdrawal is healed onto the default cash account, which puts its leg back live, and split
      into bare parts: whatever the next boot reads, it finds something to write. */
  lemma RevivedContainerIsLeft(clue: Clue, laterClue: Clue, rows: seq<TxId>, overlays: seq<(SpaceId, TxId)>)
    requires NamesLiveAccounts(AtmStore(), clue)
    requires Orders(Pass(AtmStore(), clue, [ATM], []).db, {}, rows, overlays)
    ensures var first := Pass(AtmStore(), clue, [ATM], []).db; var second := Pass(first, laterClue, rows, overlays);
      Mirror(ATM) in first.txs && !RowSettled(first, {}, Mirror(ATM)) && (second.own != [] || second.joined != [])
  {
    var db, y := AtmStore(), Mirror(ATM);
    AtmStoreIsSound();
    assert BARE in [BARE, BARE];
    assert PassedOver(db, {}, y) && OneVisit(db, {}, y);
    assert Reopens(db, {}, clue, RowVisit(db, ATM));
    LeftExactlyWhen(db, {}, clue, [ATM], [], y);
    PassSettles(db, {}, clue, [ATM], []);
    IdleExactlyWhenSettled(Pass(db, clue, [ATM], []).db, {}, laterClue, rows, overlays);
  }
}
