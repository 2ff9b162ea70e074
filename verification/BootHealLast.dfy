/**
 What a pass of the boot heal leaves, for any leg and any number of visits: the last visit that mints
 the leg decides, be its source a row or a part.
 */
module BootHealLast {
  import opened Records
  import opened MirrorMint
  import opened Joined
  import opened Ledger
  import opened LedgerWrite
  import opened BootHeal
  import opened BootHealPass
  import opened BootHealLeft

  // ---- what one heal mints ----

  // the row's ask, then its parts'
  function HealAsks(d: Db, ref: TxRef, patch: Patch): seq<Ask>
    requires ref.id in d.txs
  {
    (if patch.link.Set? then [LinkAsk(d, ref, patch)] else []) + PartAsks(d, ref, patch)
  }

  // this ask mints the leg of `x` on account `a`, where it does not stand yet
  predicate MintsOn(d: Db, q: Ask, x: TxId, a: AccountId) {
    q.source.id == x && q.Minting(d) && q.next == Some(a) && !LegOn(d, x, Some(a))
  }

  ghost predicate PutsOn(d: Db, asks: seq<Ask>, x: TxId, a: AccountId) {
    exists q :: q in asks && MintsOn(d, q, x, a)
  }

  ghost predicate Landed(d: Db, e: Db, y: TxId, a: AccountId) {
    Live(e, y) && e.txs[y].accountId == a && Mintable(d, Some(a)) && e.txs[y].spaceId == d.accounts[a].spaceId
  }

  // minted where an ask puts it, or left alone
  ghost predicate LandsAs(d: Db, e: Db, f: Db, asks: seq<Ask>, y: TxId)
    requires y.Mirror?
  {
    && (forall a :: PutsOn(d, asks, y.source, a) ==> Landed(d, f, y, a))
    && ((forall a :: !PutsOn(d, asks, y.source, a)) ==> SameRow(e, f, y))
  }

  lemma QuietLands(d: Db, e: Db, q: Ask, y: TxId, r: TxId)
    requires Quiet(q, r) && y == Mirror(q.source.id)
    ensures LandsAs(d, e, RunSteps(e, q.Plan(d).steps), [q], y)
  {
    var steps := q.Plan(d).steps;
    assert forall a :: PutsOn(d, [q], y.source, a) ==> MintsOn(d, q, y.source, a);
    if q.Minting(d) {
      assert steps == [MintStep(d, q.source, q.next.value)];
      RunOne(e, steps[0]);
      if !LegOn(d, q.source.id, q.next) {
        assert q in [q] && MintsOn(d, q, y.source, q.next.value);
        assert PutsOn(d, [q], y.source, q.next.value);
      }
    } else {
      assert steps == [];
    }
  }

  lemma {:induction false} AsksLand(d: Db, e: Db, asks: seq<Ask>, y: TxId, r: TxId)
    requires y.Mirror? && Distinct(asks) && forall q :: q in asks ==> Quiet(q, r)
    ensures LandsAs(d, e, RunAsks(d, e, asks), asks, y)
    decreases |asks|
  {
    if asks != [] {
      var q, rest := asks[0], asks[1..];
      var f := RunSteps(e, q.Plan(d).steps);
      assert asks == [q] + rest;
      assert forall p :: p in rest ==> p in asks && p.source.id != q.source.id;
      if q.source.id == y.source {
        QuietLands(d, e, q, y, r);
        AsksLeave(d, f, rest, y);
        assert forall a :: PutsOn(d, asks, y.source, a) <==> PutsOn(d, [q], y.source, a);
      } else {
        StepsLeave(e, q.Plan(d).steps, y);
        AsksLand(d, f, rest, y, r);
        assert forall a :: PutsOn(d, asks, y.source, a) <==> PutsOn(d, rest, y.source, a);
      }
    }
  }

  lemma HealAsksQuiet(d: Db, ref: TxRef, o: Opinions, found: Option<(AccountId, AccountType)>, amountCents: int)
    requires ref.id in d.txs && Unsettled(o) && StillFits(d, ref, o)
    ensures var asks := HealAsks(d, ref, HealPatch(o, ref.spaceId, found, amountCents));
      Distinct(asks) && forall q :: q in asks ==> Quiet(q, ref.id)
  {
    var patch := HealPatch(o, ref.spaceId, found, amountCents);
    if |PartsIn(o)| > 1 {
      var next := FoldedParts(PartsIn(o), ref.spaceId, found, amountCents);
      FoldedPartsFold(PartsIn(o), ref.spaceId, found, amountCents);
      FoldedIds(PartsIn(o), next);
      FoldAsksQuiet(d, ref, PartsIn(o), next);
      PartAsksAre(d, ref, patch);
    } else {
      assert PartAsks(d, ref, patch) == [];
      if patch.link.Set? && ref.id.Mirror? { BootHeal.NotItsOwnLeg(ref.id.source); }
    }
  }

  lemma WriteIsItsAsks(d: Db, ref: TxRef, patch: Patch)
    requires ref.id in d.txs
    ensures Write(d, ref, patch) == RunAsks(d, PutOpinions(d, ref, Written(d, ref, patch)), HealAsks(d, ref, patch))
  {
    var asks, rest := HealAsks(d, ref, patch), PartAsks(d, ref, patch);
    if patch.link.Set? {
      assert asks[1..] == rest;
    } else {
      assert asks == rest;
    }
  }

  // the store with the accounts the visit calls for
  function DueAccounts(h: Db, v: Visit): Db
    requires Unsettled(v.o)
  {
    Prepared(h, v.o, v.ref.spaceId)
  }

  function VisitAsks(h: Db, v: Visit, clue: Clue): seq<Ask>
    requires v.ref.id in h.txs && Unsettled(v.o)
  {
    var d := DueAccounts(h, v);
    if v.ref.id in d.txs then HealAsks(d, v.ref, VisitPatch(v, clue)) else []
  }

  /** One heal: a leg lands on the account an ask puts it on, and stays as it was if none does. */
  lemma HealLands(h: Db, v: Visit, clue: Clue, y: TxId)
    requires v.ref.id in h.txs && DefaultsTyped(h.accounts) && Unsettled(v.o) && StillFits(h, v.ref, v.o)
    requires y.Mirror? && (v.ref.feed || v.ref.id != y)
    ensures LandsAs(DueAccounts(h, v), h, Healed(h, v.ref, v.o, clue, v.amountCents),
                    VisitAsks(h, v, clue), y)
  {
    var d, patch := DueAccounts(h, v), VisitPatch(v, clue);
    PreparedIsTame(h, v.o, v.ref.spaceId);
    assert Merged(d, v.ref) == Merged(h, v.ref);
    HealAsksQuiet(d, v.ref, v.o, clue(v.ref.id, v.ref.spaceId), v.amountCents);
    WriteIsItsAsks(d, v.ref, patch);
    AsksLand(d, PutOpinions(d, v.ref, Written(d, v.ref, patch)), HealAsks(d, v.ref, patch), y, v.ref.id);
  }

  // ---- the pass, visit by visit ----

  // one pass: where it starts and what it visits in which order
  datatype Course = Course(
    start: Db, feeds: set<SpaceId>, clue: Clue, rows: seq<TxId>, overlays: seq<(SpaceId, TxId)>)

  ghost predicate Runs(c: Course) { Sound(c.start) && Orders(c.start, c.feeds, c.rows, c.overlays) }

  function Turns(c: Course): nat { |c.rows| + |c.overlays| }

  // the store before visit `i`
  function Stage(c: Course, i: nat): Db
    requires i <= Turns(c)
  {
    if i <= |c.rows| then RowPass(c.start, c.clue, c.rows[..i]).db
    else MetaPass(RowPass(c.start, c.clue, c.rows), c.start, c.clue, c.overlays[..i - |c.rows|]).db
  }

  // what visit `i` reads: a row as it was at first, an overlay over its row as it is by then
  ghost function VisitAt(c: Course, i: nat): Visit
    requires Runs(c) && i < Turns(c)
  {
    if i < |c.rows| then
      assert c.rows[i] in c.rows;
      RowVisit(c.start, c.rows[i])
    else
      assert c.overlays[i - |c.rows|] in c.overlays;
      OverlayVisit(Stage(c, i).(metas := c.start.metas), c.overlays[i - |c.rows|])
  }

  ghost predicate HealsAt(c: Course, i: nat)
    requires Runs(c) && i < Turns(c)
  {
    var v := VisitAt(c, i);
    Live(Stage(c, i), v.ref.id) && !Stamped(c.start.accounts, v.accountId) && Unsettled(v.o)
  }

  // what the heal relies on, at its turn
  ghost predicate Ready(start: Db, feeds: set<SpaceId>, h: Db, v: Visit) {
    && DefaultsTyped(h.accounts) && v.ref.id in h.txs && StillFits(h, v.ref, v.o)
    && (v.ref.feed || !PassedOver(start, feeds, v.ref.id))
  }

  lemma RowTurn(c: Course, i: nat)
    requires Runs(c) && i < |c.rows|
    ensures var h, v := Stage(c, i), VisitAt(c, i);
      && (HealsAt(c, i) ==> Ready(c.start, c.feeds, h, v))
      && Stage(c, i + 1) == if HealsAt(c, i) then Healed(h, v.ref, v.o, c.clue, v.amountCents) else h
  {
    var k := c.rows[i];
    NextOf(c.rows, i, RowsToVisit(c.start, c.feeds));
    RowPassAt(c.start, c.feeds, c.clue, c.rows, i);
    assert RowAt(c.start, c.feeds, RowPass(c.start, c.clue, c.rows[..i]), From(c.rows, i), k);
    NextRow(c.start, c.clue, c.rows, i);
  }

  lemma NextRow(start: Db, clue: Clue, order: seq<TxId>, i: nat)
    requires i < |order|
    ensures RowPass(start, clue, order[..i + 1]) == RowStep(RowPass(start, clue, order[..i]), start, clue, order[i])
  {
    assert order[..i + 1][..i] == order[..i];
  }

  lemma NextOverlay(h: Healing, start: Db, clue: Clue, order: seq<(SpaceId, TxId)>, i: nat)
    requires i < |order|
    ensures MetaPass(h, start, clue, order[..i + 1]) ==
      MetaStep(MetaPass(h, start, clue, order[..i]), start, clue, order[i])
  {
    assert order[..i + 1][..i] == order[..i];
  }

  // the second loop goes on where the first stopped
  lemma OverlayStage(c: Course, j: nat)
    requires j <= |c.overlays|
    ensures Stage(c, |c.rows| + j) ==
      MetaPass(RowPass(c.start, c.clue, c.rows), c.start, c.clue, c.overlays[..j]).db
  {
    assert c.rows[..|c.rows|] == c.rows;
  }

  lemma OverlayTurn(c: Course, i: nat)
    requires Runs(c) && |c.rows| <= i < Turns(c)
    ensures var h, v := Stage(c, i), VisitAt(c, i);
      && (HealsAt(c, i) ==> Ready(c.start, c.feeds, h, v))
      && Stage(c, i + 1) == if HealsAt(c, i) then Healed(h, v.ref, v.o, c.clue, v.amountCents) else h
  {
    var j, own := i - |c.rows|, RowPass(c.start, c.clue, c.rows);
    var key, g := c.overlays[j], MetaPass(own, c.start, c.clue, c.overlays[..j]);
    OverlayStage(c, j);
    OverlayStage(c, j + 1);
    NextOf(c.overlays, j, OverlaysToVisit(c.start));
    NextOverlay(own, c.start, c.clue, c.overlays, j);
    FromAll(c.rows, RowsToVisit(c.start, c.feeds));
    RowPassAt(c.start, c.feeds, c.clue, c.rows, |c.rows|);
    RowPassKeeps(c.start, c.clue, c.rows);
    MetaPassAt(c.start, c.feeds, own, c.clue, c.overlays, j);
  }

  lemma Turn(c: Course, i: nat)
    requires Runs(c) && i < Turns(c)
    ensures var h, v := Stage(c, i), VisitAt(c, i);
      && (HealsAt(c, i) ==> Ready(c.start, c.feeds, h, v))
      && Stage(c, i + 1) == if HealsAt(c, i) then Healed(h, v.ref, v.o, c.clue, v.amountCents) else h
  {
    if i < |c.rows| { RowTurn(c, i); } else { OverlayTurn(c, i); }
  }

  // ---- the last mint ----

  // visit `i` mints the leg of `x` on account `a`
  ghost predicate MintsAt(c: Course, i: nat, x: TxId, a: AccountId)
    requires Runs(c) && i < Turns(c)
  {
    HealsAt(c, i) && var h, v := Stage(c, i), VisitAt(c, i); PutsOn(DueAccounts(h, v), VisitAsks(h, v, c.clue), x, a)
  }

  // ... where the heal itself would visit it
  ghost predicate ReopensAt(c: Course, i: nat, x: TxId, a: AccountId)
    requires Runs(c) && i < Turns(c)
  {
    MintsAt(c, i, x, a) && Opens(DueAccounts(Stage(c, i), VisitAt(c, i)), c.feeds, Some(a))
  }

  // in the open on an account that is there, or not in the open
  ghost predicate Placed(e: Db, feeds: set<SpaceId>, y: TxId, open: bool) {
    if open then Reopened(e, feeds, y) else !InTheOpen(e, feeds, y)
  }

  lemma LeftInPlace(d: Db, e: Db, feeds: set<SpaceId>, y: TxId, open: bool)
    requires Placed(d, feeds, y, open) && SameRow(d, e, y) && AccountsStay(d, e) && StampsStay(d, e)
    requires y in d.txs
    ensures Placed(e, feeds, y, open)
  {
  }

  lemma LandedInPlace(d: Db, e: Db, feeds: set<SpaceId>, y: TxId, a: AccountId)
    requires Landed(d, e, y, a) && SameKinds(d, e)
    ensures Placed(e, feeds, y, Opens(d, feeds, Some(a)))
  {
  }

  lemma HealKinds(h: Db, v: Visit, clue: Clue)
    requires v.ref.id in h.txs && DefaultsTyped(h.accounts) && Unsettled(v.o) && StillFits(h, v.ref, v.o)
    ensures SameKinds(DueAccounts(h, v), Healed(h, v.ref, v.o, clue, v.amountCents))
  {
    HealWrite(h, v.ref, v.o, clue, v.amountCents);
  }

  lemma MintedTurn(c: Course, i: nat, y: TxId, a: AccountId)
    requires Runs(c) && i < Turns(c) && PassedOver(c.start, c.feeds, y) && MintsAt(c, i, y.source, a)
    ensures Placed(Stage(c, i + 1), c.feeds, y, ReopensAt(c, i, y.source, a))
  {
    var h, v := Stage(c, i), VisitAt(c, i);
    Turn(c, i);
    HealLands(h, v, c.clue, y);
    HealKinds(h, v, c.clue);
    LandedInPlace(DueAccounts(h, v), Stage(c, i + 1), c.feeds, y, a);
  }

  lemma IdleTurn(c: Course, i: nat, y: TxId, open: bool)
    requires Runs(c) && i < Turns(c) && PassedOver(c.start, c.feeds, y)
    requires forall a :: !MintsAt(c, i, y.source, a)
    requires y in Stage(c, i).txs && Placed(Stage(c, i), c.feeds, y, open)
    ensures Placed(Stage(c, i + 1), c.feeds, y, open)
  {
    var h, v := Stage(c, i), VisitAt(c, i);
    Turn(c, i);
    if HealsAt(c, i) {
      forall a ensures !PutsOn(DueAccounts(h, v), VisitAsks(h, v, c.clue), y.source, a) {
        assert !MintsAt(c, i, y.source, a);
      }
      IdleHeal(c.start, c.feeds, h, v, c.clue, y, open);
    }
  }

  lemma IdleHeal(start: Db, feeds: set<SpaceId>, h: Db, v: Visit, clue: Clue, y: TxId, open: bool)
    requires Ready(start, feeds, h, v) && Unsettled(v.o) && PassedOver(start, feeds, y)
    requires forall a :: !PutsOn(DueAccounts(h, v), VisitAsks(h, v, clue), y.source, a)
    requires y in h.txs && Placed(h, feeds, y, open)
    ensures Placed(Healed(h, v.ref, v.o, clue, v.amountCents), feeds, y, open)
  {
    var e := HealedHere(h, v, clue, y);
    LeftInPlace(h, e, feeds, y, open);
  }

  // a heal that mints no leg of `y`'s source leaves `y` as it is
  lemma HealedHere(h: Db, v: Visit, clue: Clue, y: TxId) returns (e: Db)
    requires v.ref.id in h.txs && DefaultsTyped(h.accounts) && Unsettled(v.o) && StillFits(h, v.ref, v.o)
    requires y.Mirror? && (v.ref.feed || v.ref.id != y)
    requires forall a :: !PutsOn(DueAccounts(h, v), VisitAsks(h, v, clue), y.source, a)
    ensures e == Healed(h, v.ref, v.o, clue, v.amountCents)
    ensures SameRow(h, e, y) && AccountsStay(h, e) && StampsStay(h, e)
  {
    e := Healed(h, v.ref, v.o, clue, v.amountCents);
    HealLands(h, v, clue, y);
    HealElsewhere(h, v.ref, v.o, clue, v.amountCents, y);
  }

  lemma {:induction false} StageKeeps(c: Course, i: nat, y: TxId)
    requires Runs(c) && i <= Turns(c) && y in c.start.txs
    ensures y in Stage(c, i).txs
  {
    if i > 0 {
      StageKeeps(c, i - 1, y);
      Turn(c, i - 1);
      if HealsAt(c, i - 1) {
        var v := VisitAt(c, i - 1);
        HealedKeeps(Stage(c, i - 1), v.ref, v.o, c.clue, v.amountCents);
      }
    }
  }

  // which visits mint, and which of those open
  type Mints = (nat, AccountId) -> bool

  ghost predicate NoLater(mints: Mints, i: nat, n: nat) { forall j: nat, b :: i < j < n ==> !mints(j, b) }

  // the last of the first `n` that mint is one that opens
  ghost predicate LastOf(mints: Mints, opens: Mints, n: nat) {
    exists i: nat, a :: i < n && mints(i, a) && opens(i, a) && NoLater(mints, i, n)
  }

  lemma IdleIsNotLast(mints: Mints, opens: Mints, m: nat)
    requires forall a :: !mints(m, a)
    ensures LastOf(mints, opens, m + 1) <==> LastOf(mints, opens, m)
  {
    if LastOf(mints, opens, m) {
      var i: nat, a :| i < m && mints(i, a) && opens(i, a) && NoLater(mints, i, m);
      assert NoLater(mints, i, m + 1);
    }
    if LastOf(mints, opens, m + 1) {
      var i: nat, a :| i < m + 1 && mints(i, a) && opens(i, a) && NoLater(mints, i, m + 1);
      assert i != m && NoLater(mints, i, m);
    }
  }

  lemma MintIsLast(mints: Mints, opens: Mints, m: nat, a: AccountId)
    requires mints(m, a) && forall b :: mints(m, b) ==> b == a
    ensures LastOf(mints, opens, m + 1) <==> opens(m, a)
  {
    if opens(m, a) {
      assert NoLater(mints, m, m + 1);
    }
    if LastOf(mints, opens, m + 1) {
      var i: nat, b :| i < m + 1 && mints(i, b) && opens(i, b) && NoLater(mints, i, m + 1);
      assert i == m;
    }
  }

  ghost function MintsOf(c: Course, x: TxId): Mints {
    (i: nat, a: AccountId) => Runs(c) && i < Turns(c) && MintsAt(c, i, x, a)
  }

  ghost function OpensOf(c: Course, x: TxId): Mints {
    (i: nat, a: AccountId) => Runs(c) && i < Turns(c) && ReopensAt(c, i, x, a)
  }

  // the last of the first `n` visits that mint the leg puts it in the open
  ghost predicate LastOpens(c: Course, n: nat, x: TxId) { LastOf(MintsOf(c, x), OpensOf(c, x), n) }

  // one heal puts a leg on one account
  lemma OneAccount(c: Course, m: nat, y: TxId, a: AccountId, b: AccountId)
    requires Runs(c) && m < Turns(c) && PassedOver(c.start, c.feeds, y)
    requires MintsAt(c, m, y.source, a) && MintsAt(c, m, y.source, b)
    ensures a == b
  {
    Turn(c, m);
    HealLands(Stage(c, m), VisitAt(c, m), c.clue, y);
  }

  lemma {:induction false} PlacedByTheLast(c: Course, n: nat, y: TxId)
    requires Runs(c) && n <= Turns(c) && PassedOver(c.start, c.feeds, y)
    ensures Placed(Stage(c, n), c.feeds, y, LastOpens(c, n, y.source))
  {
    if n > 0 {
      var m: nat := n - 1;
      if a :| MintsAt(c, m, y.source, a) {
        MintPlaces(c, m, y, a);
      } else {
        PlacedByTheLast(c, m, y);
        IdlePlaces(c, m, y);
      }
    }
  }

  lemma MintPlaces(c: Course, m: nat, y: TxId, a: AccountId)
    requires Runs(c) && m < Turns(c) && PassedOver(c.start, c.feeds, y) && MintsAt(c, m, y.source, a)
    ensures Placed(Stage(c, m + 1), c.feeds, y, LastOpens(c, m + 1, y.source))
  {
    forall b | MintsAt(c, m, y.source, b) ensures b == a {
      OneAccount(c, m, y, a, b);
    }
    MintedTurn(c, m, y, a);
    MintIsLast(MintsOf(c, y.source), OpensOf(c, y.source), m, a);
  }

  lemma IdlePlaces(c: Course, m: nat, y: TxId)
    requires Runs(c) && m < Turns(c) && PassedOver(c.start, c.feeds, y) && forall a :: !MintsAt(c, m, y.source, a)
    requires Placed(Stage(c, m), c.feeds, y, LastOpens(c, m, y.source))
    ensures Placed(Stage(c, m + 1), c.feeds, y, LastOpens(c, m + 1, y.source))
  {
    StageKeeps(c, m, y);
    IdleTurn(c, m, y, LastOpens(c, m, y.source));
    IdleIsNotLast(MintsOf(c, y.source), OpensOf(c, y.source), m);
  }

  /** A leg that the pass passed over is left behind if and only if the last visit that mints it, of
      however many and for a row or for a part, puts it where the heal itself would visit it. */
  lemma LeftByTheLastMint(c: Course, y: TxId)
    requires Runs(c) && PassedOver(c.start, c.feeds, y)
    ensures var e := Pass(c.start, c.clue, c.rows, c.overlays).db;
      y in e.txs && (!RowSettled(e, c.feeds, y) <==> LastOpens(c, Turns(c), y.source))
  {
    PassedOverStaysBare(c.start, c.feeds, c.clue, c.rows, c.overlays, y);
    PlacedByTheLast(c, Turns(c), y);
    OverlayStage(c, |c.overlays|);
    assert c.overlays[..|c.overlays|] == c.overlays;
  }

  /** So a pass over any store ends with every row settled if and only if no passed-over leg was last
      minted into the open, and with everything settled if the overlays it passed over on legs are too. */
  lemma PassEndsSettled(c: Course)
    requires Runs(c)
    ensures var e := Pass(c.start, c.clue, c.rows, c.overlays).db;
      && ((forall k :: k in e.txs ==> RowSettled(e, c.feeds, k)) <==>
           forall y :: PassedOver(c.start, c.feeds, y) ==> !LastOpens(c, Turns(c), y.source))
      && (AllSettled(e, c.feeds) <==>
           && (forall y :: PassedOver(c.start, c.feeds, y) ==> !LastOpens(c, Turns(c), y.source))
           && (forall key :: key in e.metas && OverlayPassedOver(c.start, c.feeds, key) ==> MetaSettled(e, key)))
  {
    PassSettles(c.start, c.feeds, c.clue, c.rows, c.overlays);
    forall y | PassedOver(c.start, c.feeds, y)
      ensures var e := Pass(c.start, c.clue, c.rows, c.overlays).db;
        y in e.txs && (!RowSettled(e, c.feeds, y) <==> LastOpens(c, Turns(c), y.source))
    {
      LeftByTheLastMint(c, y);
    }
  }
}
