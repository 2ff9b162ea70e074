/**
 Runs of ledger steps made by any spaces: edits through the choke point, the heal door, deleting a
 row, counting a row in by hand, handing a row's books to another space. Every allowed step keeps
 the books in order and every base where it was.
 */
module LedgerSteps {
  import opened Records
  import opened MirrorMint
  import opened Joined
  import opened Sums
  import opened Ledger
  import opened LedgerWrite
  import opened LedgerRuns
  import opened LedgerHands

  function SourceOf(db: Db, ref: TxRef): Source
    requires ref.id in db.txs
  {
    WholeSource(db.txs[ref.id], ref.id, Merged(db, ref).loanCounted)
  }

  // ---- heal ----

  function HealAsk(db: Db, ref: TxRef): Ask
    requires ref.id in db.txs
  {
    var o := Merged(db, ref); Ask(SourceOf(db, ref), None, o.link, o.peer, None)
  }

  function PeerPatch(peer: Option<TxId>): Patch { NO_CHANGE.(peer := Set(peer)) }

  // mint the missing leg, then peer the row with it
  function HealLeg(db: Db, ref: TxRef): Db
    requires ref.id in db.txs
  {
    var q := HealAsk(db, ref);
    if q.Minting(db) then
      var e := RunSteps(db, q.Plan(db).steps);
      if ref.id in e.txs then Write(e, ref, PeerPatch(Some(Mirror(ref.id)))) else e
    else db
  }

  lemma HealedRows(db: Db, home: Home, ref: TxRef)
    requires KeepsRow(db, home, ref)
    ensures var q := HealAsk(db, ref); var e := RunSteps(db, q.Plan(db).steps);
      && KeepsRow(e, home, ref) && Seen(e, home, ref.id) == Seen(db, home, ref.id) && e.txs[ref.id] == db.txs[ref.id]
      && SameKinds(db, e) && SameBut(db, e, Mirror(ref.id)) && LegOf(e, ref.id) == q.NextLeg(db)
    ensures var q := HealAsk(db, ref);
      forall a :: Base(RunSteps(db, q.Plan(db).steps), home, a) == Base(db, home, a) + PlanDrift(db, q, a)
  {
    var q := HealAsk(db, ref);
    PlanEffect(db, db, q);
    forall a ensures Base(RunSteps(db, q.Plan(db).steps), home, a) == Base(db, home, a) + PlanDrift(db, q, a) {
      BaseAfterPlan(db, db, home, q, a);
    }
  }

  /** Healing any row of books in order mints exactly the leg that was missing. */
  lemma HealKeeps(db: Db, home: Home, ref: TxRef)
    requires KeepsRow(db, home, ref) && InOrder(db, home)
    ensures InOrder(HealLeg(db, ref), home) && SameBases(db, HealLeg(db, ref), home)
  {
    var q := HealAsk(db, ref);
    if q.Minting(db) {
      HealedRows(db, home, ref);
      var e, patch := RunSteps(db, q.Plan(db).steps), PeerPatch(Some(Mirror(ref.id)));
      var f := Write(e, ref, patch);
      assert LegOf(db, ref.id) == Claim(db, home, ref.id);
      forall a ensures Base(f, home, a) == Base(db, home, a) {
        WriteDrift(e, home, ref, patch, a);
      }
      forall x ensures LegOf(f, x) == Claim(f, home, x) {
        HealedLeg(db, home, ref, x);
      }
    }
  }

  lemma HealedLeg(db: Db, home: Home, ref: TxRef, x: TxId)
    requires KeepsRow(db, home, ref) && InOrder(db, home) && HealAsk(db, ref).Minting(db)
    ensures LegOf(HealLeg(db, ref), x) == Claim(HealLeg(db, ref), home, x)
  {
    var q := HealAsk(db, ref);
    HealedRows(db, home, ref);
    var e, patch := RunSteps(db, q.Plan(db).steps), PeerPatch(Some(Mirror(ref.id)));
    assert HealLeg(db, ref) == Write(e, ref, patch);
    assert LegOf(db, x) == Claim(db, home, x);
    if x == ref.id {
      HealedSource(db, e, home, ref);
    } else {
      WriteRows(e, ref, patch);
      WriteLegs(e, ref, patch, x);
      PlanKeepsRows(db, e, ref.id);
      HealedElsewhere(db, e, Write(e, ref, patch), home, ref, x);
    }
  }

  // the healed row asks for the leg it was given
  lemma HealedSource(db: Db, e: Db, home: Home, ref: TxRef)
    requires KeepsRow(db, home, ref) && KeepsRow(e, home, ref) && SameKinds(db, e)
    requires LegOf(db, ref.id) == Claim(db, home, ref.id) && HealAsk(db, ref).Minting(db)
    requires Seen(e, home, ref.id) == Seen(db, home, ref.id) && e.txs[ref.id] == db.txs[ref.id]
    requires LegOf(e, ref.id) == HealAsk(db, ref).NextLeg(db)
    ensures var f := Write(e, ref, PeerPatch(Some(Mirror(ref.id)))); LegOf(f, ref.id) == Claim(f, home, ref.id)
  {
    RowClaimAfter(e, home, ref, PeerPatch(Some(Mirror(ref.id))));
    SameMintable(db, e);
  }

  lemma HealedElsewhere(db: Db, e: Db, f: Db, home: Home, ref: TxRef, x: TxId)
    requires KeepsRow(db, home, ref) && KeepsRow(f, home, ref) && SameRows(e, f, ref) && db.metas == e.metas
    requires SameKinds(db, f) && e.txs[ref.id] == db.txs[ref.id]
    requires forall k: TxId :: !k.Mirror? ==> (k in e.txs) == (k in db.txs) && (k in db.txs ==> e.txs[k] == db.txs[k])
    requires Seen(f, home, ref.id).splits == Seen(db, home, ref.id).splits
    requires x != ref.id
    ensures Claim(f, home, x) == Claim(db, home, x)
  {
    SameMintable(db, f);
    if Root(x) != ref.id {
      ClaimElsewhere(db, f, home, ref, x);
    }
  }

  // ---- deleting a row ----

  function RemoveAsk(db: Db, ref: TxRef): Ask
    requires ref.id in db.txs
  {
    Ask(SourceOf(db, ref), Merged(db, ref).link, None, Some(Mirror(ref.id)), None)
  }

  // the row's own leg goes first, while the merged row can still be read
  function DeleteRow(db: Db, ref: TxRef): Db
    requires ref.id in db.txs
  {
    RemoveTx(RunSteps(db, RemoveAsk(db, ref).Plan(db).steps), ref.spaceId, ref.id)
  }

  lemma DeletedRow(db: Db, home: Home, ref: TxRef)
    requires KeepsRow(db, home, ref) && !ref.feed && LegOf(db, ref.id) == Claim(db, home, ref.id)
    ensures var e := DeleteRow(db, ref);
      && SameKinds(db, e) && e.metas == db.metas
      && LegOf(e, ref.id) == None && (forall x :: x != ref.id ==> LegOf(e, x) == LegOf(db, x))
      && OthersStay(db, e, ref.id)
      && ref.id in e.txs && e.txs[ref.id] == db.txs[ref.id].(deleted := true)
  {
    var q := RemoveAsk(db, ref);
    PlanEffect(db, db, q);
    PlanKeepsRows(db, RunSteps(db, q.Plan(db).steps), ref.id);
  }

  lemma TombstoneKeepsBase(d: Db, home: Home, ref: TxRef, a: AccountId)
    requires ref.id.Row? && ref.id in d.txs && d.txs[ref.id].spaceId == ref.spaceId
    ensures Base(RemoveTx(d, ref.spaceId, ref.id), home, a) == Base(d, home, a)
  {
    var e := RemoveTx(d, ref.spaceId, ref.id);
    assert forall x :: LegOf(e, x) == LegOf(d, x);
    assert forall y :: Counts(e, home, y, a) == Counts(d, home, y, a);
    assert Legs(e, home, a) == Legs(d, home, a);
  }

  lemma DeletedRowBase(db: Db, home: Home, ref: TxRef, a: AccountId)
    requires KeepsRow(db, home, ref) && !ref.feed && LegOf(db, ref.id) == Claim(db, home, ref.id)
    ensures Base(DeleteRow(db, ref), home, a) == Base(db, home, a)
  {
    var q := RemoveAsk(db, ref);
    var d := RunSteps(db, q.Plan(db).steps);
    PlanEffect(db, db, q);
    BaseAfterPlan(db, db, home, q, a);
    TombstoneKeepsBase(d, home, ref, a);
  }

  predicate PartsHoldNoLeg(db: Db, home: Home, ref: TxRef)
    requires ref.id in db.txs
  {
    forall p :: p in PartsSeen(db, home, ref.id) ==> LegOf(db, PartKey(ref.id, p)).None?
  }

  // what other sources ask for once a row is a tombstone
  lemma ClaimsWithout(db: Db, e: Db, home: Home, ref: TxRef, x: TxId)
    requires KeepsRow(db, home, ref) && SameKinds(db, e) && e.metas == db.metas
    requires OthersStay(db, e, ref.id)
    requires ref.id in e.txs && e.txs[ref.id].deleted
    ensures Claim(e, home, x) == if Root(x) == ref.id then None else Claim(db, home, x)
  {
    SameMintable(db, e);
    if Root(x).Row? && Root(x) in db.txs && Root(x) != ref.id {
      assert Seen(e, home, Root(x)) == Seen(db, home, Root(x));
    }
  }

  /** Deleting a row refunds its leg; the legs of its parts stay behind, so the books stay in
      order if and only if no part of the row holds one. */
  lemma DeleteKeeps(db: Db, home: Home, ref: TxRef)
    requires KeepsRow(db, home, ref) && !ref.feed && InOrder(db, home)
    ensures SameBases(db, DeleteRow(db, ref), home)
    ensures InOrder(DeleteRow(db, ref), home) <==> PartsHoldNoLeg(db, home, ref)
  {
    var e := DeleteRow(db, ref);
    assert LegOf(db, ref.id) == Claim(db, home, ref.id);
    forall a ensures Base(e, home, a) == Base(db, home, a) { DeletedRowBase(db, home, ref, a); }
    DeletedRow(db, home, ref);
    PartlessOrder(db, e, home, ref);
  }

  // with the row a tombstone and its own leg gone, only its parts' legs can be out of order
  lemma PartlessOrder(db: Db, e: Db, home: Home, ref: TxRef)
    requires KeepsRow(db, home, ref) && InOrder(db, home) && SameKinds(db, e) && e.metas == db.metas
    requires OthersStay(db, e, ref.id)
    requires ref.id in e.txs && e.txs[ref.id].deleted && LegOf(e, ref.id) == None
    requires forall x :: x != ref.id ==> LegOf(e, x) == LegOf(db, x)
    ensures InOrder(e, home) <==> PartsHoldNoLeg(db, home, ref)
  {
    forall x ensures Claim(e, home, x) == if Root(x) == ref.id then None else LegOf(db, x) {
      ClaimsWithout(db, e, home, ref, x);
      assert LegOf(db, x) == Claim(db, home, x);
    }
    forall p ensures LegOf(db, PartKey(ref.id, p)) == Claim(db, home, PartKey(ref.id, p)) {
    }
    forall p | p in PartsSeen(db, home, ref.id) ensures LegOf(e, PartKey(ref.id, p)) == LegOf(db, PartKey(ref.id, p)) {
    }
    forall p ensures Claim(e, home, PartKey(ref.id, p)) == None {
    }
  }

  // ---- counting a row in by hand ----

  predicate Adjustable(db: Db, id: Option<AccountId>) {
    id.Some? && id.value in db.accounts &&
    var a := db.accounts[id.value]; !a.deleted && a.manual && IsLiability(a.kind)
  }

  const COUNTED := NO_CHANGE.(loanCounted := Set(Some(true)))

  // the row as the caller shows it when the button is tapped
  datatype Tap = Tap(link: Option<AccountId>, counted: Option<bool>, amountCents: int)

  predicate Applies(db: Db, tap: Tap) { Adjustable(db, tap.link) && tap.counted != Some(true) }

  function Tapped(db: Db, ref: TxRef, tap: Tap): Db
    requires ref.id in db.txs
  {
    if Applies(db, tap) then Write(AddBalance(db, tap.link.value, -tap.amountCents), ref, COUNTED) else db
  }

  // a tap on the row as it is stored
  function FreshTap(db: Db, ref: TxRef): Tap
    requires ref.id in db.txs
  {
    Tap(Merged(db, ref).link, Merged(db, ref).loanCounted, db.txs[ref.id].amountCents)
  }

  function CountIn(db: Db, ref: TxRef): Db
    requires ref.id in db.txs
  {
    Tapped(db, ref, FreshTap(db, ref))
  }

  // the balance as the caller saw the row, then the marker on the stored one
  method CountPreAnchorTx(store: Store, ref: TxRef, tap: Tap) returns (applied: bool)
    requires ref.id in store.txs
    modifies store
    ensures store.View() == Tapped(old(store.View()), ref, tap) && applied == Applies(old(store.View()), tap)
  {
    if !Adjustable(store.View(), tap.link) || tap.counted == Some(true) {
      return false;
    }
    store.MoveBalance(tap.link.value, -tap.amountCents);
    WriteTxTransform(store, ref, COUNTED);
    applied := true;
  }

  /** The marker makes it one-shot: counting the stored row in a second time does nothing. */
  lemma CountedOnce(db: Db, ref: TxRef)
    requires Sees(db, ref)
    ensures ref.id in CountIn(db, ref).txs && CountIn(CountIn(db, ref), ref) == CountIn(db, ref)
  {
    var tap := FreshTap(db, ref);
    if Applies(db, tap) {
      var d := AddBalance(db, tap.link.value, -tap.amountCents);
      assert Merged(d, ref) == Merged(db, ref);
      WriteRows(d, ref, COUNTED);
    }
  }

  /** A tap moves its loan by what the caller saw, whatever is stored by then: the marker stops only a
      caller who has seen it. */
  lemma TapMoves(db: Db, ref: TxRef, tap: Tap, a: AccountId)
    requires ref.id in db.txs
    ensures Balance(Tapped(db, ref, tap), a) ==
      Balance(db, a) - if Applies(db, tap) && tap.link == Some(a) then tap.amountCents else 0
    ensures ref.id in Tapped(db, ref, tap).txs && (Applies(Tapped(db, ref, tap), tap) <==> Applies(db, tap))
  {
    if Applies(db, tap) {
      var d := AddBalance(db, tap.link.value, -tap.amountCents);
      AddBalanceEffect(db, tap.link.value, -tap.amountCents);
      assert RowSteps(d, ref, COUNTED) == [] && PartAsks(d, ref, COUNTED) == [];
      assert Write(d, ref, COUNTED) == PutOpinions(d, ref, COUNTED);
    }
  }

  // it may be counted in when its leg stands on the loan and has not moved it
  predicate CountInFits(db: Db, home: Home, ref: TxRef)
    requires ref.id in db.txs
  {
    var o, raw := Seen(db, home, ref.id), db.txs[ref.id];
    Adjustable(db, o.link) && o.loanCounted != Some(true) ==>
      raw.amountCents == 0 || (LegOf(db, ref.id).Some? && !Moves(db.accounts[o.link.value], raw.date, false))
  }

  // what counting in takes off a base: the row's money, unless its leg starts to count for as much
  function CountInMove(db: Db, home: Home, ref: TxRef, a: AccountId): int
    requires ref.id in db.txs && Adjustable(db, Seen(db, home, ref.id).link)
  {
    var id, raw := Seen(db, home, ref.id).link.value, db.txs[ref.id];
    if a != id || (LegOf(db, ref.id).Some? && !Moves(db.accounts[id], raw.date, false)) then 0 else raw.amountCents
  }

  lemma AddBalanceBooks(db: Db, home: Home, id: AccountId, delta: int, a: AccountId)
    requires id in db.accounts && !db.accounts[id].deleted
    ensures var d := AddBalance(db, id, delta);
      && SameKinds(db, d) && d.txs == db.txs && d.metas == db.metas
      && (forall x :: LegOf(d, x) == LegOf(db, x) && Claim(d, home, x) == Claim(db, home, x))
      && Base(d, home, a) == Base(db, home, a) + (if a == id then delta else 0)
  {
    var d := AddBalance(db, id, delta);
    AddBalanceEffect(db, id, delta);
    forall x ensures LegOf(d, x) == LegOf(db, x) && Claim(d, home, x) == Claim(db, home, x) {
      SameClaim(db, d, home, x);
    }
    assert Legs(d, home, a) == Legs(db, home, a);
  }

  lemma SameClaim(d: Db, e: Db, home: Home, x: TxId)
    requires SameKinds(d, e) && e.txs == d.txs && e.metas == d.metas
    ensures LegOf(e, x) == LegOf(d, x) && Claim(e, home, x) == Claim(d, home, x)
  {
    SameMintable(d, e);
  }

  lemma CountInOrder(db: Db, home: Home, ref: TxRef)
    requires KeepsRow(db, home, ref) && InOrder(db, home)
    ensures InOrder(CountIn(db, ref), home)
  {
    var o := Seen(db, home, ref.id);
    if Adjustable(db, o.link) && o.loanCounted != Some(true) {
      AddBalanceOrder(db, home, ref, o.link.value, -db.txs[ref.id].amountCents);
      CountedOrder(AddBalance(db, o.link.value, -db.txs[ref.id].amountCents), home, ref);
    }
  }

  lemma AddBalanceOrder(db: Db, home: Home, ref: TxRef, id: AccountId, delta: int)
    requires KeepsRow(db, home, ref) && InOrder(db, home) && id in db.accounts && !db.accounts[id].deleted
    ensures KeepsRow(AddBalance(db, id, delta), home, ref) && InOrder(AddBalance(db, id, delta), home)
  {
    AddBalanceBooks(db, home, id, delta, "");
    forall x ensures LegOf(AddBalance(db, id, delta), x) == Claim(AddBalance(db, id, delta), home, x) {
      assert LegOf(db, x) == Claim(db, home, x);
    }
  }

  lemma CountedOrder(d: Db, home: Home, ref: TxRef)
    requires KeepsRow(d, home, ref) && InOrder(d, home)
    ensures InOrder(Write(d, ref, COUNTED), home)
  {
    OrderKept(d, home, ref, COUNTED);
  }

  lemma CountInBase(db: Db, home: Home, ref: TxRef, a: AccountId)
    requires KeepsRow(db, home, ref) && LegOf(db, ref.id) == Claim(db, home, ref.id)
    requires Adjustable(db, Seen(db, home, ref.id).link) && Seen(db, home, ref.id).loanCounted != Some(true)
    ensures Base(CountIn(db, ref), home, a) == Base(db, home, a) - CountInMove(db, home, ref, a)
  {
    var d := BalanceFirst(db, home, ref, a);
    CountedOn(db, d, home, ref, a);
  }

  lemma CountedOn(db: Db, d: Db, home: Home, ref: TxRef, a: AccountId)
    requires KeepsRow(db, home, ref) && SameKinds(db, d) && d.txs == db.txs && d.metas == db.metas
    requires LegOf(db, ref.id) == Claim(db, home, ref.id)
    requires Adjustable(db, Seen(db, home, ref.id).link) && Seen(db, home, ref.id).loanCounted != Some(true)
    requires Base(d, home, a) == Base(db, home, a) +
      if a == Seen(db, home, ref.id).link.value then -db.txs[ref.id].amountCents else 0
    ensures Base(Write(d, ref, COUNTED), home, a) == Base(db, home, a) - CountInMove(db, home, ref, a)
  {
    CountedFrom(db, d, home, ref, a);
  }

  // the store between the balance's move and the marker
  lemma BalanceFirst(db: Db, home: Home, ref: TxRef, a: AccountId) returns (d: Db)
    requires KeepsRow(db, home, ref)
    requires Adjustable(db, Seen(db, home, ref.id).link) && Seen(db, home, ref.id).loanCounted != Some(true)
    ensures SameKinds(db, d) && d.txs == db.txs && d.metas == db.metas
    ensures CountIn(db, ref) == Write(d, ref, COUNTED)
    ensures Base(d, home, a) == Base(db, home, a) +
      if a == Seen(db, home, ref.id).link.value then -db.txs[ref.id].amountCents else 0
  {
    var id, cents := Seen(db, home, ref.id).link.value, db.txs[ref.id].amountCents;
    d := CountInSteps(db, home, ref);
    AddBalanceBooks(db, home, id, -cents, a);
  }

  lemma CountInSteps(db: Db, home: Home, ref: TxRef) returns (d: Db)
    requires KeepsRow(db, home, ref)
    requires Adjustable(db, Seen(db, home, ref.id).link) && Seen(db, home, ref.id).loanCounted != Some(true)
    ensures d == AddBalance(db, Seen(db, home, ref.id).link.value, -db.txs[ref.id].amountCents)
    ensures ref.id in d.txs && CountIn(db, ref) == Write(d, ref, COUNTED)
  {
    d := AddBalance(db, Seen(db, home, ref.id).link.value, -db.txs[ref.id].amountCents);
  }

  lemma CountedFrom(db: Db, d: Db, home: Home, ref: TxRef, a: AccountId)
    requires KeepsRow(db, home, ref) && SameKinds(db, d) && d.txs == db.txs && d.metas == db.metas
    requires LegOf(db, ref.id) == Claim(db, home, ref.id)
    requires Adjustable(db, Seen(db, home, ref.id).link) && Seen(db, home, ref.id).loanCounted != Some(true)
    ensures var id, raw := Seen(db, home, ref.id).link.value, db.txs[ref.id];
      Base(Write(d, ref, COUNTED), home, a) == Base(d, home, a) +
        if a == id && LegOf(db, ref.id).Some? && !Moves(db.accounts[id], raw.date, false) then raw.amountCents else 0
  {
    CountedBase(d, home, ref, a);
    CountedDrift(db, d, home, ref, a);
  }

  lemma CountedDrift(db: Db, d: Db, home: Home, ref: TxRef, a: AccountId)
    requires KeepsRow(db, home, ref) && SameKinds(db, d) && d.txs == db.txs && d.metas == db.metas
    requires LegOf(db, ref.id) == Claim(db, home, ref.id)
    requires Adjustable(db, Seen(db, home, ref.id).link) && Seen(db, home, ref.id).loanCounted != Some(true)
    ensures var id, raw := Seen(db, home, ref.id).link.value, db.txs[ref.id];
      CountDrift(d, home, ref, COUNTED.loanCounted, a) ==
        if a == id && LegOf(db, ref.id).Some? && !Moves(db.accounts[id], raw.date, false) then raw.amountCents else 0
  {
    assert LegOf(d, ref.id) == LegOf(db, ref.id);
  }

  // marking a row as counted moves a base by the leg that starts to count
  lemma CountedBase(d: Db, home: Home, ref: TxRef, a: AccountId)
    requires Holds(d, home, ref)
    ensures Base(Write(d, ref, COUNTED), home, a) == Base(d, home, a) + CountDrift(d, home, ref, COUNTED.loanCounted, a)
  {
    WriteDrift(d, home, ref, COUNTED, a);
  }

  /** Counting in keeps the books in order; it keeps every base if and only if it fits. */
  lemma CountInKeeps(db: Db, home: Home, ref: TxRef)
    requires KeepsRow(db, home, ref) && InOrder(db, home)
    ensures InOrder(CountIn(db, ref), home)
    ensures SameBases(db, CountIn(db, ref), home) <==> CountInFits(db, home, ref)
  {
    var o := Seen(db, home, ref.id);
    CountInOrder(db, home, ref);
    assert LegOf(db, ref.id) == Claim(db, home, ref.id);
    if Adjustable(db, o.link) && o.loanCounted != Some(true) {
      forall a ensures Base(CountIn(db, ref), home, a) == Base(db, home, a) || !CountInFits(db, home, ref) {
        CountInBase(db, home, ref, a);
      }
      CountInBase(db, home, ref, o.link.value);
    }
  }

  // ---- runs ----

  // an edit may come from any space, and may be of a leg; `Hand` gives a row's books to another space
  datatype LedgerStep =
    | Edit(ref: TxRef, patch: Patch)
    | Heal(ref: TxRef)
    | Delete(ref: TxRef)
    | Count(ref: TxRef)
    | Hand(ref: TxRef)

  datatype Books = Books(db: Db, home: Home)

  function KeptBy(home: Home, t: TxId, space: SpaceId): Home {
    (x: TxId) => if x == t then space else home(x)
  }

  function Next(b: Books, step: LedgerStep): Books
    requires step.ref.id in b.db.txs
  {
    match step
    case Edit(ref, patch) => b.(db := Write(b.db, ref, patch))
    case Heal(ref) => b.(db := HealLeg(b.db, ref))
    case Delete(ref) => b.(db := DeleteRow(b.db, ref))
    case Count(ref) => b.(db := CountIn(b.db, ref))
    case Hand(ref) => b.(home := KeptBy(b.home, ref.id, ref.spaceId))
  }

  // a row changes hands while neither it nor its parts hold or ask for a leg
  ghost predicate Free(db: Db, home: Home, ref: TxRef) {
    forall x :: Root(x) == ref.id ==> LegOf(db, x).None? && Claim(db, KeptBy(home, ref.id, ref.spaceId), x).None?
  }

  ghost predicate EditAllowed(db: Db, home: Home, ref: TxRef, patch: Patch) {
    Sees(db, ref) && PartsNamedOnce(patch) &&
    if ref.id.Mirror? then LeavesLegs(db, ref, patch) && PeerStays(db, ref, patch)
    else if ref.spaceId != home(ref.id) then LeavesLegs(db, ref, patch)
    else PeerFits(db, home, ref, patch) && SplitsPeersFit(db, home, ref, patch) && MoneyFits(db, home, ref, patch)
  }

  ghost predicate Allowed(b: Books, step: LedgerStep) {
    match step
    case Edit(ref, patch) => EditAllowed(b.db, b.home, ref, patch)
    case Heal(ref) => KeepsRow(b.db, b.home, ref)
    case Delete(ref) => KeepsRow(b.db, b.home, ref) && !ref.feed && PartsHoldNoLeg(b.db, b.home, ref)
    case Count(ref) => KeepsRow(b.db, b.home, ref) && CountInFits(b.db, b.home, ref)
    case Hand(ref) => Live(b.db, ref.id) && ref.id.Row? && Free(b.db, b.home, ref)
  }

  ghost predicate AllowedRun(b: Books, steps: seq<LedgerStep>)
    decreases |steps|
  {
    steps != [] ==> Allowed(b, steps[0]) && AllowedRun(Next(b, steps[0]), steps[1..])
  }

  ghost function After(b: Books, steps: seq<LedgerStep>): Books
    requires AllowedRun(b, steps)
    decreases |steps|
  {
    if steps == [] then b else After(Next(b, steps[0]), steps[1..])
  }

  ghost predicate Balanced(b: Books, c: Books) {
    InOrder(c.db, c.home) && forall a :: Base(c.db, c.home, a) == Base(b.db, b.home, a)
  }

  /** An edit, whoever makes it and of whatever row, keeps the books exactly when it is allowed. */
  lemma EditKeeps(db: Db, home: Home, ref: TxRef, patch: Patch)
    requires InOrder(db, home) && Sees(db, ref) && PartsNamedOnce(patch)
    ensures EditAllowed(db, home, ref, patch) <==>
              InOrder(Write(db, ref, patch), home) && SameBases(db, Write(db, ref, patch), home)
  {
    if ref.id.Mirror? {
      LegEdited(db, home, ref, patch);
    } else if ref.spaceId != home(ref.id) {
      OtherSpacesWrite(db, home, ref, patch);
    } else {
      OrderKept(db, home, ref, patch);
      BasesKept(db, home, ref, patch);
    }
  }

  lemma HandedOver(db: Db, home: Home, ref: TxRef)
    requires InOrder(db, home) && Live(db, ref.id) && ref.id.Row? && Free(db, home, ref)
    ensures var next := KeptBy(home, ref.id, ref.spaceId);
      InOrder(db, next) && forall a :: Base(db, next, a) == Base(db, home, a)
  {
    var next := KeptBy(home, ref.id, ref.spaceId);
    forall x ensures LegOf(db, x) == Claim(db, next, x) {
      assert LegOf(db, x) == Claim(db, home, x);
      if Root(x) != ref.id && Root(x) in db.txs {
        assert Seen(db, next, Root(x)) == Seen(db, home, Root(x));
      }
    }
    forall a ensures Base(db, next, a) == Base(db, home, a) {
      HandedOverLegs(db, home, ref, a);
    }
  }

  lemma HandedOverLegs(db: Db, home: Home, ref: TxRef, a: AccountId)
    requires ref.id.Row? && Free(db, home, ref)
    ensures Legs(db, KeptBy(home, ref.id, ref.spaceId), a) == Legs(db, home, a)
  {
    var next := KeptBy(home, ref.id, ref.spaceId);
    forall m | m in db.txs ensures LegCents(db, next, m, a) == LegCents(db, home, m, a) {
      if m.Mirror? && Root(m.source) != ref.id && Root(m.source) in db.txs {
        assert Seen(db, next, Root(m.source)) == Seen(db, home, Root(m.source));
      }
    }
  }

  lemma StepKeeps(b: Books, step: LedgerStep)
    requires InOrder(b.db, b.home) && Allowed(b, step)
    ensures Balanced(b, Next(b, step))
  {
    match step {
      case Edit(ref, patch) => EditKeeps(b.db, b.home, ref, patch);
      case Heal(ref) => HealKeeps(b.db, b.home, ref);
      case Delete(ref) => DeleteKeeps(b.db, b.home, ref);
      case Count(ref) => CountInKeeps(b.db, b.home, ref);
      case Hand(ref) => HandedOver(b.db, b.home, ref);
    }
  }

  /** Over any run of allowed steps, by any spaces, the live legs stay exactly the asked ones, and
      every balance moves by exactly the change in the legs that count for it. */
  lemma {:induction false} BooksBalance(b: Books, steps: seq<LedgerStep>)
    requires InOrder(b.db, b.home) && AllowedRun(b, steps)
    ensures Balanced(b, After(b, steps))
    ensures var c := After(b, steps);
      forall a :: Balance(c.db, a) - Balance(b.db, a) == Sum(Legs(c.db, c.home, a)) - Sum(Legs(b.db, b.home, a))
    decreases |steps|
  {
    if steps != [] {
      StepKeeps(b, steps[0]);
      BooksBalance(Next(b, steps[0]), steps[1..]);
    }
    var c := After(b, steps);
    forall a ensures Base(c.db, c.home, a) == Base(b.db, b.home, a) &&
      Balance(c.db, a) - Balance(b.db, a) == Sum(Legs(c.db, c.home, a)) - Sum(Legs(b.db, b.home, a))
    {
      if steps != [] {
        assert Base(Next(b, steps[0]).db, Next(b, steps[0]).home, a) == Base(b.db, b.home, a);
      }
    }
  }

  /** In order, every live leg is minus its source's money, on the account the source links,
      and source and leg point at each other. */
  lemma LegsMirrorTheirSources(db: Db, home: Home, x: TxId)
    requires InOrder(db, home) && LegOf(db, x).Some?
    ensures var leg := LegOf(db, x).value;
      && Root(x).Row? && Live(db, Root(x)) && leg.back == Some(x) && Mintable(db, Some(leg.account))
      && (x.Row? ==> leg.cents == -db.txs[x].amountCents && Seen(db, home, x).link == Some(leg.account) &&
                     Seen(db, home, x).peer == Some(Mirror(x)))
      && (x.PartKey? ==> x.part in PartsSeen(db, home, x.tx) && var part := PartsSeen(db, home, x.tx)[x.part];
            leg.cents == -Signed(db.txs[x.tx], part.amountCents) && part.link == Some(leg.account) &&
            part.peer == Some(Mirror(x)))
  {
    assert LegOf(db, x) == Claim(db, home, x);
  }

  // ---- a link and its undo ----

  function LinkPatch(link: Option<AccountId>): Patch { NO_CHANGE.(link := Set(link)) }

  /** Linking a row that holds no leg and unlinking it again gives every balance back. */
  lemma UnlinkUndoesLink(db: Db, home: Home, ref: TxRef, id: AccountId)
    requires KeepsRow(db, home, ref) && InOrder(db, home) && LegOf(db, ref.id).None?
    ensures ref.id in Write(db, ref, LinkPatch(Some(id))).txs
    ensures var e := Write(Write(db, ref, LinkPatch(Some(id))), ref, LinkPatch(None));
      LegOf(e, ref.id).None? && forall a :: Balance(e, a) == Balance(db, a)
  {
    var on, off := LinkPatch(Some(id)), LinkPatch(None);
    var d := Write(db, ref, on);
    LinkStays(db, home, ref, Some(id));
    LinkStays(d, home, ref, None);
    var e := Write(d, ref, off);
    assert LegOf(e, ref.id) == Claim(e, home, ref.id);
    forall a ensures Balance(e, a) == Balance(db, a) {
      assert Base(d, home, a) == Base(db, home, a) && Base(e, home, a) == Base(d, home, a);
      LegsAfterUndo(db, home, ref, id, a);
    }
  }

  lemma LinkStays(db: Db, home: Home, ref: TxRef, link: Option<AccountId>)
    requires KeepsRow(db, home, ref) && InOrder(db, home)
    ensures var e := Write(db, ref, LinkPatch(link));
      KeepsRow(e, home, ref) && InOrder(e, home) && SameBases(db, e, home) && Seen(e, home, ref.id).link == link
  {
    WriteRows(db, ref, LinkPatch(link));
    OrderKept(db, home, ref, LinkPatch(link));
    BasesKept(db, home, ref, LinkPatch(link));
  }

  lemma LegsAfterUndo(db: Db, home: Home, ref: TxRef, id: AccountId, a: AccountId)
    requires KeepsRow(db, home, ref) && LegOf(db, ref.id).None? && Holds(Write(db, ref, LinkPatch(Some(id))), home, ref)
    requires LegOf(Write(Write(db, ref, LinkPatch(Some(id))), ref, LinkPatch(None)), ref.id).None?
    ensures var e := Write(Write(db, ref, LinkPatch(Some(id))), ref, LinkPatch(None));
      Sum(Legs(e, home, a)) == Sum(Legs(db, home, a))
  {
    var on, off, m := LinkPatch(Some(id)), LinkPatch(None), Mirror(ref.id);
    var d := Write(db, ref, on);
    var e := Write(d, ref, off);
    LegsAfterWrite(db, home, ref, on, a);
    LegsAfterWrite(d, home, ref, off, a);
    assert Legs(db, home, a) - {m} == Legs(e, home, a) - {m};
    SumChange(Legs(db, home, a), Legs(e, home, a), m);
  }

  lemma LegsAfterWrite(db: Db, home: Home, ref: TxRef, patch: Patch, a: AccountId)
    requires KeepsRow(db, home, ref) && patch.splits.Keep? && patch.loanCounted.Keep?
    ensures Legs(db, home, a) - {Mirror(ref.id)} == Legs(Write(db, ref, patch), home, a) - {Mirror(ref.id)}
  {
    var w := Written(db, ref, patch);
    var d := PutOpinions(db, ref, w);
    PutOpinionsRows(db, ref, w);
    OtherLegsAfterOpinions(db, home, ref, w, a);
    if patch.link.Set? {
      PlanEffect(db, d, LinkAsk(db, ref, patch));
      LegsElsewhere(d, Write(db, ref, patch), home, ref.id, a);
    }
  }
}
