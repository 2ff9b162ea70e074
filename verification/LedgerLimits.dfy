/**
 Concrete stores on which a write that is not allowed breaks the books. Each is the family the
 exact conditions of LedgerRuns and LedgerSteps shut out.
 */
module LedgerLimits {
  import opened Records
  import opened MirrorMint
  import opened Joined
  import opened Sums
  import opened Ledger
  import opened LedgerWrite
  import opened LedgerHands
  import opened LedgerRuns
  import opened LedgerSteps
  import opened LedgerBypass

  const T := Row("t")
  const OWN := TxRef(T, "home", false, false)
  const AT_HOME: Home := x => "home"

  function Manual(kind: AccountType, asOf: Option<Date>): Account {
    Account("home", kind, true, 0, asOf, false)
  }

  const ACCOUNTS := map[
    "pot" := Manual(Savings, None), "jar" := Manual(Savings, None),
    "loan" := Manual(Loan, Some(10)), "debt" := Manual(Loan, Some(10))]

  function Spent(space: SpaceId, ops: Opinions): Tx { Tx(space, "checking", 5, -100, false, false, ops) }

  function Minted(x: TxId, account: AccountId, cents: int): Tx {
    Tx("home", account, 5, cents, false, false, NO_OPINIONS.(link := Some("checking"), peer := Some(x)))
  }

  // one own row and the leg of source `x`
  function OneRow(ops: Opinions, x: TxId, account: AccountId, cents: int): Db {
    Db(ACCOUNTS, map[T := Spent("home", ops), Mirror(x) := Minted(x, account, cents)], map[])
  }

  function Linked(account: AccountId): Opinions {
    NO_OPINIONS.(link := Some(account), peer := Some(Mirror(T)))
  }

  const P := PartKey(T, "p")

  function Split(account: AccountId, cents: int): seq<Part> {
    [Part(Some("p"), Uncategorized, cents, Some(account), Some(Mirror(P)))]
  }

  const SPLIT_BOOKS := OneRow(NO_OPINIONS.(splits := Some(Split("pot", 60))), P, "pot", 60)

  lemma SplitBooksInOrder()
    ensures InOrder(SPLIT_BOOKS, AT_HOME) && Holds(SPLIT_BOOKS, AT_HOME, OWN)
    ensures PartsSeen(SPLIT_BOOKS, AT_HOME, T) == map["p" := Split("pot", 60)[0]]
    ensures LegOf(SPLIT_BOOKS, P) == Some(Leg("pot", 60, Some(P)))
  {
  }

  /** Clearing the splits of a row leaves the legs of its parts behind. */
  lemma ClearedSplitsOrphanLegs()
    ensures InOrder(SPLIT_BOOKS, AT_HOME)
    ensures !InOrder(Write(SPLIT_BOOKS, OWN, NO_CHANGE.(splits := Set(None))), AT_HOME)
  {
    SplitBooksInOrder();
    OrderKept(SPLIT_BOOKS, AT_HOME, OWN, NO_CHANGE.(splits := Set(None)));
  }

  /** Deleting a split row leaves the legs of its parts behind. */
  lemma DeletedSplitRowOrphansLegs()
    ensures InOrder(SPLIT_BOOKS, AT_HOME)
    ensures !InOrder(DeleteRow(SPLIT_BOOKS, OWN), AT_HOME)
  {
    SplitBooksInOrder();
    DeleteKeeps(SPLIT_BOOKS, AT_HOME, OWN);
  }

  /** A part that changes account and amount in one write refunds the new amount. */
  lemma MovedPartRefundsItsNewAmount()
    ensures InOrder(SPLIT_BOOKS, AT_HOME)
    ensures var e := Write(SPLIT_BOOKS, OWN, NO_CHANGE.(splits := Set(Some(Split("jar", 40)))));
      Base(e, AT_HOME, "pot") == Base(SPLIT_BOOKS, AT_HOME, "pot") + 20
  {
    SplitBooksInOrder();
    var db, next := SPLIT_BOOKS, Split("jar", 40);
    var patch := NO_CHANGE.(splits := Set(Some(next)));
    var raw, known := db.txs[T], PartsSeen(db, AT_HOME, T);
    var q := PartAsk(raw, T, next[0], Some(known["p"]));
    assert next[1..] == [];
    assert DiffParts(db, raw, T, next, known).asks == [q];
    assert DiffParts(db, raw, T, next, known).rest == map[];
    NothingGone(raw, T, PartIds(PrevParts(db, OWN)));
    assert PartAsks(db, OWN, patch) == [q];
    assert PlansDrift(db, [q], "pot") == PlanDrift(db, q, "pot") + PlansDrift(db, [q][1..], "pot");
    WriteDrift(db, AT_HOME, OWN, patch, "pot");
  }

  lemma {:induction false} NothingGone(raw: Tx, t: TxId, order: seq<string>)
    ensures GoneAsks(raw, t, order, map[]) == []
  {
    if order != [] { NothingGone(raw, t, order[1..]); }
  }

  /** Relinking from a loan whose leg did not count, with loanCounted in the same write, refunds
      money that never moved. */
  lemma CountedRelinkRefundsTooMuch()
    ensures var db := OneRow(Linked("loan"), T, "loan", 100);
      && InOrder(db, AT_HOME)
      && !SameBases(db, Write(db, OWN, LinkPatch(Some("debt")).(loanCounted := Set(Some(true)))), AT_HOME)
  {
    var db := OneRow(Linked("loan"), T, "loan", 100);
    var patch := LinkPatch(Some("debt")).(loanCounted := Set(Some(true)));
    assert CountDrift(db, AT_HOME, OWN, patch.loanCounted, "loan") == -100;
    assert !MoneyFits(db, AT_HOME, OWN, patch) by { assert "loan" in db.accounts; }
    BasesKept(db, AT_HOME, OWN, patch);
  }

  // ---- counting in ----

  const LINKED_ONLY := Db(ACCOUNTS, map[T := Spent("home", NO_OPINIONS.(link := Some("loan")))], map[])

  /** Counting in a row that has no leg moves the loan with nothing to show for it. */
  lemma CountedWithoutALeg()
    ensures InOrder(LINKED_ONLY, AT_HOME)
    ensures !SameBases(LINKED_ONLY, CountIn(LINKED_ONLY, OWN), AT_HOME)
  {
    CountInKeeps(LINKED_ONLY, AT_HOME, OWN);
  }

  /** A second tap made before the first one's marker is seen moves the loan again. */
  lemma StaleTapCountsTwice()
    ensures var tap := FreshTap(LINKED_ONLY, OWN);
      && T in Tapped(LINKED_ONLY, OWN, tap).txs
      && var twice := Tapped(Tapped(LINKED_ONLY, OWN, tap), OWN, tap);
         Balance(LINKED_ONLY, "loan") == 0 && Balance(CountIn(LINKED_ONLY, OWN), "loan") == 100 &&
         Balance(twice, "loan") == 200
  {
    var tap := FreshTap(LINKED_ONLY, OWN);
    TapMoves(LINKED_ONLY, OWN, tap, "loan");
    TapMoves(Tapped(LINKED_ONLY, OWN, tap), OWN, tap, "loan");
  }

  // ---- two spaces, one feed row ----

  const FEED_ROW := Db(ACCOUNTS, map[T := Spent("feed", NO_OPINIONS)], map[])
  const MINE := TxRef(T, "mine", true, true)
  const YOURS := TxRef(T, "yours", true, true)

  const BY_ME: Home := x => "mine"
  const BY_YOU: Home := x => "yours"

  // the first space keeps the books of the feed row and links it
  lemma FirstSpaceLinks()
    ensures var d := Write(FEED_ROW, MINE, LinkPatch(Some("pot")));
      InOrder(d, BY_ME) && Sees(d, YOURS) && d.txs[T] == FEED_ROW.txs[T] && SameKinds(FEED_ROW, d)
    ensures var d := Write(FEED_ROW, MINE, LinkPatch(Some("pot")));
      LegOf(d, T) == Some(Leg("pot", 100, Some(T))) && T in d.txs && Merged(d, YOURS) == NO_OPINIONS
  {
    var db, mine := FEED_ROW, LinkPatch(Some("pot"));
    OrderKept(db, BY_ME, MINE, mine);
    WriteRows(db, MINE, mine);
    WriteLegs(db, MINE, mine, T);
  }

  /** The id of a minted leg names the row, not the space: a second space that links the same feed
      row elsewhere takes the first space's leg over without giving its balance back. */
  lemma SecondSpaceTakesTheLegOver()
    ensures var d := Write(FEED_ROW, MINE, LinkPatch(Some("pot")));
      && InOrder(d, BY_ME) && T in d.txs
      && var e := Write(d, YOURS, LinkPatch(Some("jar")));
         !InOrder(e, BY_ME) && Base(e, BY_YOU, "pot") == Base(d, BY_YOU, "pot") + 100
  {
    FirstSpaceLinks();
    SecondSpaceLinks(Write(FEED_ROW, MINE, LinkPatch(Some("pot"))));
  }

  lemma SecondSpaceLinks(d: Db)
    requires InOrder(d, BY_ME) && Sees(d, YOURS) && d.txs[T] == FEED_ROW.txs[T] && SameKinds(FEED_ROW, d)
    requires LegOf(d, T) == Some(Leg("pot", 100, Some(T))) && Merged(d, YOURS) == NO_OPINIONS
    ensures var e := Write(d, YOURS, LinkPatch(Some("jar")));
      !InOrder(e, BY_ME) && Base(e, BY_YOU, "pot") == Base(d, BY_YOU, "pot") + 100
  {
    var yours := LinkPatch(Some("jar"));
    SameMintable(FEED_ROW, d);
    assert !Idle(d, LinkAsk(d, YOURS, yours));
    OtherSpacesWrite(d, BY_ME, YOURS, yours);
    assert Moves(d.accounts["pot"], 5, false);
    WriteDrift(d, BY_YOU, YOURS, yours, "pot");
  }

  // ---- a part that comes from a foreign row ----

  // the part is paired with a real row of a bank account
  const PAIRED := Part(Some("p"), Uncategorized, 60, Some("bank"), Some(Row("real")))

  /** A part that leaves a foreign row for a mintable account and names its own leg in the same write
      asks for a leg that is never minted. */
  lemma PartClaimsALegItNeverGets()
    ensures var db := Db(ACCOUNTS, map[T := Spent("home", NO_OPINIONS.(splits := Some([PAIRED])))], map[]);
      InOrder(db, AT_HOME) &&
      !InOrder(Write(db, OWN, NO_CHANGE.(splits := Set(Some(Split("pot", 60))))), AT_HOME)
  {
    var db := Db(ACCOUNTS, map[T := Spent("home", NO_OPINIONS.(splits := Some([PAIRED])))], map[]);
    assert [PAIRED][..0] == [];
    assert PartMap([PAIRED]) == map["p" := PAIRED];
    var next := Split("pot", 60);
    assert PartsSeen(db, AT_HOME, T) == map["p" := PAIRED];
    assert !PartPeerFits(db, T, next[0], Some(PAIRED));
    OrderKept(db, AT_HOME, OWN, NO_CHANGE.(splits := Set(Some(next))));
  }

  // ---- keeping a generated leg ----

  const LET_GO := NO_CHANGE.(link := Set(None), peer := Set(None))

  /** The unpair question's "keep" leaves every base where it was and the leg live on its account, but
      nothing asks for that leg any more, so the books are out of order. */
  lemma KeptLegLeavesTheBooks(db: Db, home: Home, ref: TxRef, leg: TxRef)
    requires KeepsRow(db, home, ref) && InOrder(db, home) && LegOf(db, ref.id).Some?
    requires Sees(db, leg) && !leg.feed && leg.id == Mirror(ref.id)
    ensures var d := Write(db, leg, LET_GO);
      ref.id in d.txs && var e := Write(d, ref, NO_CHANGE.(peer := Set(None)));
        && LegOf(e, ref.id) == Some(LegOf(db, ref.id).value.(back := None)) && Claim(e, home, ref.id) == None
        && forall a :: Base(e, home, a) == Base(db, home, a)
  {
    var d, undo := Write(db, leg, LET_GO), NO_CHANGE.(peer := Set(None));
    LegLetGo(db, home, ref, leg);
    RowClaimAfter(d, home, ref, undo);
    forall a ensures Base(Write(d, ref, undo), home, a) == Base(db, home, a) {
      WriteDrift(d, home, ref, undo, a);
    }
  }

  // the leg's own half of it: the leg points nowhere, and its source is as it was
  lemma LegLetGo(db: Db, home: Home, ref: TxRef, leg: TxRef)
    requires KeepsRow(db, home, ref) && InOrder(db, home) && LegOf(db, ref.id).Some?
    requires Sees(db, leg) && !leg.feed && leg.id == Mirror(ref.id)
    ensures var d := Write(db, leg, LET_GO);
      && KeepsRow(d, home, ref) && SameBases(db, d, home)
      && LegOf(d, ref.id) == Some(LegOf(db, ref.id).value.(back := None))
  {
    assert LegOf(db, leg.id) == Claim(db, home, leg.id);
    LegEdited(db, home, leg, LET_GO);
    OnlyOpinions(db, leg, LET_GO);
    assert Written(db, leg, LET_GO) == LET_GO;
    PutOpinionsRows(db, leg, LET_GO);
  }

  // ---- a reconciliation's plain writes ----

  /** An import that leaves by a plain removal leaves its leg behind, and a plain overwrite of a linked
      row's link leaves the leg where it stood. */
  lemma PlainWritesOrphanLegs()
    ensures var db := OneRow(Linked("pot"), T, "pot", 100);
      && InOrder(db, AT_HOME)
      && !InOrder(RemoveTx(db, "home", T), AT_HOME) && !InOrder(PutOpinions(db, OWN, LinkPatch(Some("jar"))), AT_HOME)
  {
    var db := OneRow(Linked("pot"), T, "pot", 100);
    assert LegOf(db, T) == Some(Leg("pot", 100, Some(T)));
    PlainRemoval(db, AT_HOME, OWN);
    PlainOverwrite(db, AT_HOME, OWN, LinkPatch(Some("jar")));
  }
}
