/**
 What a splits write does to the balances, told from the stored parts: every balance follows the
 money the row's parts book onto it.
 */
module LedgerParts {
  import opened Numbers
  import opened Records
  import opened MirrorMint
  import opened Joined
  import opened Sums
  import opened Ledger
  import opened LedgerWrite
  import opened LedgerRuns
  import opened LedgerFacts

  /** In order, the leg of a part stands on the account the part links and holds the part's magnitude,
      against the row: out of the account under an income, into it under an expense. */
  lemma PartLegIs(db: Db, home: Home, t: TxId, p: string)
    requires InOrder(db, home) && LegOf(db, PartKey(t, p)).Some?
    ensures Live(db, t) && p in PartsSeen(db, home, t)
    ensures var raw, part, leg := db.txs[t], PartsSeen(db, home, t)[p], LegOf(db, PartKey(t, p)).value;
      && part.link == Some(leg.account) && part.peer == leg.back.(value := Mirror(PartKey(t, p)))
      && (leg.cents == part.amountCents || leg.cents == -part.amountCents)
      && (raw.amountCents >= 0 ==> leg.cents <= 0) && (raw.amountCents < 0 ==> leg.cents >= 0)
  {
    assert LegOf(db, PartKey(t, p)) == Claim(db, home, PartKey(t, p));
  }

  // where a leg may stand
  predicate TakesLegs(db: Db, link: Option<AccountId>) {
    link.Some? && link.value in db.accounts &&
    var acct := db.accounts[link.value]; !acct.deleted && acct.manual && acct.kind != Funding
  }

  // the peer a splits write stores with one part, given the stored part of the same id
  function PeerStored(db: Db, t: TxId, part: Part, prev: Option<Part>): Option<TxId>
    requires part.id.Some?
  {
    var x := PartKey(t, part.id.value);
    var had, link := if prev.Some? then prev.value.peer else None, if prev.Some? then prev.value.link else None;
    if link == part.link || (part.peer.Some? && part.peer != Some(Mirror(x))) then part.peer
    else if TakesLegs(db, part.link) && (had.None? || had == Some(Mirror(x))) then Some(Mirror(x))
    else if TakesLegs(db, link) && had == Some(Mirror(x)) && LegOn(db, x, link) then None
    else part.peer
  }

  /** A splits write stores every part as written but for the peer: one that names a foreign row, or whose
      link stays, keeps its own; one that moves to an account legs may stand on names its leg, unless it
      was paired with a foreign row before; one that only leaves its leg names nothing. */
  lemma StoredPart(db: Db, home: Home, ref: TxRef, patch: Patch, next: seq<Part>, i: nat)
    requires KeepsRow(db, home, ref) && patch.splits == Set(Some(next)) && DistinctIds(next)
    requires i < |next| && next[i].id.Some?
    ensures ref.id in Write(db, ref, patch).txs
    ensures var prev := Known(PartsSeen(db, home, ref.id), next[i].id.value);
      Known(PartsSeen(Write(db, ref, patch), home, ref.id), next[i].id.value) ==
      Some(next[i].(peer := PeerStored(db, ref.id, next[i], prev)))
  {
    PartSeenAfter(db, home, ref, patch, next, i);
    AdjustedIs(db, db.txs[ref.id], ref.id, next[i], Known(PartsSeen(db, home, ref.id), next[i].id.value));
  }

  lemma AdjustedIs(db: Db, raw: Tx, t: TxId, part: Part, prev: Option<Part>)
    requires part.id.Some?
    ensures Adjusted(db, raw, t, part, prev) == part.(peer := PeerStored(db, t, part, prev))
  {
  }

  // the money a part that is peered with its own leg books onto account `a`: its magnitude, signed as the row is
  function Booked(raw: Tx, t: TxId, parts: map<string, Part>, p: string, a: AccountId): int {
    if p in parts && parts[p].link == Some(a) && parts[p].peer == Some(Mirror(PartKey(t, p))) then
      var size: int := Abs(parts[p].amountCents);
      if raw.amountCents < 0 then -size else size
    else 0
  }

  function BookedParts(raw: Tx, t: TxId, parts: map<string, Part>, a: AccountId): map<string, int> {
    map p | p in parts :: Booked(raw, t, parts, p, a)
  }

  lemma BookedLeg(db: Db, home: Home, ref: TxRef, p: string, a: AccountId)
    requires KeepsRow(db, home, ref) && LegOf(db, PartKey(ref.id, p)) == Claim(db, home, PartKey(ref.id, p))
    requires a in db.accounts && !db.accounts[a].deleted && db.accounts[a].manual && db.accounts[a].kind != Funding
    ensures At(Legs(db, home, a), Mirror(PartKey(ref.id, p))) ==
      if Counting(db.accounts[a], db.txs[ref.id].date, false)
      then -Booked(db.txs[ref.id], ref.id, PartsSeen(db, home, ref.id), p, a) else 0
  {
    AtLegs(db, home, PartKey(ref.id, p), a);
  }

  // a write of splits and plain opinions leaves every leg that is none of the row's parts' as it was
  lemma LegElsewhere(db: Db, home: Home, ref: TxRef, patch: Patch, x: TxId)
    requires KeepsRow(db, home, ref) && PartsNamedOnce(patch) && patch.link.Keep?
    requires !(x.PartKey? && x.tx == ref.id)
    ensures LegOf(Write(db, ref, patch), x) == LegOf(db, x)
  {
    PartAsksAre(db, ref, patch);
    WriteLegs(db, ref, patch, x);
  }

  lemma CountsKept(db: Db, home: Home, ref: TxRef, patch: Patch, x: TxId, a: AccountId)
    requires KeepsRow(db, home, ref) && PartsNamedOnce(patch) && patch.loanCounted.Keep?
    ensures Counts(Write(db, ref, patch), home, x, a) == Counts(db, home, x, a)
  {
    HeldAfter(db, home, ref, patch);
    WriteRows(db, ref, patch);
    CountsWithRows(db, Write(db, ref, patch), home, ref, x, a);
  }

  lemma CountsWithRows(d: Db, e: Db, home: Home, ref: TxRef, x: TxId, a: AccountId)
    requires KeepsRow(d, home, ref) && SameRows(d, e, ref) && SameKinds(d, e)
    requires Seen(e, home, ref.id).loanCounted == Seen(d, home, ref.id).loanCounted
    ensures Counts(e, home, x, a) == Counts(d, home, x, a)
  {
    if Root(x) != ref.id && Root(x) in d.txs {
      assert Root(x).Row? ==> e.txs[Root(x)] == d.txs[Root(x)];
    }
  }

  lemma OtherLegsAt(db: Db, home: Home, ref: TxRef, patch: Patch, x: TxId, a: AccountId)
    requires KeepsRow(db, home, ref) && PartsNamedOnce(patch) && patch.link.Keep? && patch.loanCounted.Keep?
    requires !(x.PartKey? && x.tx == ref.id)
    ensures At(Legs(Write(db, ref, patch), home, a), Mirror(x)) == At(Legs(db, home, a), Mirror(x))
  {
    AtLegs(db, home, x, a);
    AtLegs(Write(db, ref, patch), home, x, a);
    LegElsewhere(db, home, ref, patch, x);
    CountsKept(db, home, ref, patch, x, a);
  }

  // in order, nothing stands for a part that is not there
  lemma NoPartNoLeg(db: Db, home: Home, t: TxId, p: string, a: AccountId)
    requires InOrder(db, home) && t in db.txs && p !in PartsSeen(db, home, t)
    ensures At(Legs(db, home, a), Mirror(PartKey(t, p))) == 0
  {
    assert LegOf(db, PartKey(t, p)) == Claim(db, home, PartKey(t, p));
    AtLegs(db, home, PartKey(t, p), a);
  }

  lemma LegsAway(db: Db, home: Home, ref: TxRef, patch: Patch, a: AccountId, s: set<string>)
    requires KeepsRow(db, home, ref) && PartsNamedOnce(patch) && patch.link.Keep? && patch.loanCounted.Keep?
    requires InOrder(db, home) && InOrder(Write(db, ref, patch), home) && ref.id in Write(db, ref, patch).txs
    requires s == PartsSeen(db, home, ref.id).Keys + PartsSeen(Write(db, ref, patch), home, ref.id).Keys
    ensures AgreeAway(Legs(db, home, a), Legs(Write(db, ref, patch), home, a),
                      (p: string) => Mirror(PartKey(ref.id, p)), s)
  {
    var e := Write(db, ref, patch);
    forall k: TxId | forall p: string :: p in s ==> Mirror(PartKey(ref.id, p)) != k
      ensures At(Legs(db, home, a), k) == At(Legs(e, home, a), k)
    {
      if k.Mirror? && k.source.PartKey? && k.source.tx == ref.id {
        assert k == Mirror(PartKey(ref.id, k.source.part));
        NoPartNoLeg(db, home, ref.id, k.source.part, a);
        NoPartNoLeg(e, home, ref.id, k.source.part, a);
      } else if k.Mirror? {
        OtherLegsAt(db, home, ref, patch, k.source, a);
      }
    }
  }

  // legs that hold minus what is booked move by minus what the booked money moved
  lemma MovesBack(c: map<TxId, int>, d: map<TxId, int>, before: map<string, int>, after: map<string, int>,
                  at: string -> TxId, s: set<string>)
    requires Apart(at, s) && AgreeAway(c, d, at, s) && before.Keys <= s && after.Keys <= s
    requires forall p :: p in s ==> At(d, at(p)) - At(c, at(p)) == At(before, p) - At(after, p)
    ensures Sum(d) - Sum(c) == Sum(before) - Sum(after)
  {
    var moved := map p | p in s :: At(before, p) - At(after, p);
    SumMoves(c, d, at, s, moved);
    SumDifference(after, before, s, moved);
  }

  lemma NothingMoves(c: map<TxId, int>, d: map<TxId, int>, at: string -> TxId, s: set<string>)
    requires Apart(at, s) && AgreeAway(c, d, at, s) && forall p :: p in s ==> At(c, at(p)) == At(d, at(p))
    ensures Sum(d) == Sum(c)
  {
    var moved := map p | p in s :: 0;
    SumMoves(c, d, at, s, moved);
    SumNothing(moved);
  }

  /** A splits write moves the balance of a live manual account that is no funding pot by minus the
      change of the money the row's parts book onto it, and a loan not at all on a day its balance
      already knew. */
  lemma BalanceFollowsParts(db: Db, home: Home, ref: TxRef, patch: Patch, a: AccountId)
    requires KeepsRow(db, home, ref) && InOrder(db, home) && PartsNamedOnce(patch)
    requires patch.link.Keep? && patch.loanCounted.Keep?
    requires PeerFits(db, home, ref, patch) && SplitsPeersFit(db, home, ref, patch) && MoneyFits(db, home, ref, patch)
    requires a in db.accounts && !db.accounts[a].deleted && db.accounts[a].manual && db.accounts[a].kind != Funding
    ensures ref.id in Write(db, ref, patch).txs
    ensures var e, raw, t := Write(db, ref, patch), db.txs[ref.id], ref.id;
      Balance(e, a) - Balance(db, a) == if Counting(db.accounts[a], raw.date, false) then
        Sum(BookedParts(raw, t, PartsSeen(db, home, t), a)) - Sum(BookedParts(raw, t, PartsSeen(e, home, t), a)) else 0
  {
    var e, raw, t := Write(db, ref, patch), db.txs[ref.id], ref.id;
    OrderKept(db, home, ref, patch);
    BasesKept(db, home, ref, patch);
    HeldAfter(db, home, ref, patch);
    assert Base(e, home, a) == Base(db, home, a);
    LegsFollowParts(db, e, home, ref, patch, a);
  }

  lemma LegsFollowParts(db: Db, e: Db, home: Home, ref: TxRef, patch: Patch, a: AccountId)
    requires KeepsRow(db, home, ref) && InOrder(db, home) && PartsNamedOnce(patch)
    requires patch.link.Keep? && patch.loanCounted.Keep? && e == Write(db, ref, patch) && InOrder(e, home)
    requires a in db.accounts && !db.accounts[a].deleted && db.accounts[a].manual && db.accounts[a].kind != Funding
    ensures ref.id in e.txs
    ensures var raw, t := db.txs[ref.id], ref.id;
      Sum(Legs(e, home, a)) - Sum(Legs(db, home, a)) == if Counting(db.accounts[a], raw.date, false) then
        Sum(BookedParts(raw, t, PartsSeen(db, home, t), a)) - Sum(BookedParts(raw, t, PartsSeen(e, home, t), a)) else 0
  {
    HeldAfter(db, home, ref, patch);
    var raw, t := db.txs[ref.id], ref.id;
    var before, after := BookedParts(raw, t, PartsSeen(db, home, t), a), BookedParts(raw, t, PartsSeen(e, home, t), a);
    var s := before.Keys + after.Keys;
    var at := (p: string) => Mirror(PartKey(t, p));
    LegsAway(db, home, ref, patch, a, s);
    forall p ensures LegMoves(Legs(db, home, a), Legs(e, home, a), at(p), At(before, p) - At(after, p),
                              Counting(db.accounts[a], raw.date, false))
    {
      PartLegsAt(db, e, home, ref, patch, p, a);
    }
    LegsMove(Legs(db, home, a), Legs(e, home, a), before, after, at, s, Counting(db.accounts[a], raw.date, false));
  }

  predicate LegMoves(c: map<TxId, int>, d: map<TxId, int>, k: TxId, gap: int, counting: bool) {
    At(d, k) - At(c, k) == if counting then gap else 0
  }

  lemma LegsMove(c: map<TxId, int>, d: map<TxId, int>, before: map<string, int>, after: map<string, int>,
                 at: string -> TxId, s: set<string>, counting: bool)
    requires Apart(at, s) && AgreeAway(c, d, at, s) && before.Keys <= s && after.Keys <= s
    requires forall p :: LegMoves(c, d, at(p), At(before, p) - At(after, p), counting)
    ensures Sum(d) - Sum(c) == if counting then Sum(before) - Sum(after) else 0
  {
    forall p | p in s ensures At(d, at(p)) - At(c, at(p)) == if counting then At(before, p) - At(after, p) else 0 {
      assert LegMoves(c, d, at(p), At(before, p) - At(after, p), counting);
    }
    if counting { MovesBack(c, d, before, after, at, s); } else { NothingMoves(c, d, at, s); }
  }

  lemma PartLegsAt(db: Db, e: Db, home: Home, ref: TxRef, patch: Patch, p: string, a: AccountId)
    requires KeepsRow(db, home, ref) && InOrder(db, home) && PartsNamedOnce(patch)
    requires e == Write(db, ref, patch) && InOrder(e, home)
    requires a in db.accounts && !db.accounts[a].deleted && db.accounts[a].manual && db.accounts[a].kind != Funding
    ensures ref.id in e.txs
    ensures var raw, t := db.txs[ref.id], ref.id;
      LegMoves(Legs(db, home, a), Legs(e, home, a), Mirror(PartKey(t, p)),
               At(BookedParts(raw, t, PartsSeen(db, home, t), a), p) -
               At(BookedParts(raw, t, PartsSeen(e, home, t), a), p),
               Counting(db.accounts[a], raw.date, false))
  {
    HeldAfter(db, home, ref, patch);
    WriteRows(db, ref, patch);
    assert LegOf(db, PartKey(ref.id, p)) == Claim(db, home, PartKey(ref.id, p));
    assert LegOf(e, PartKey(ref.id, p)) == Claim(e, home, PartKey(ref.id, p));
    BookedLeg(db, home, ref, p, a);
    BookedLeg(e, home, ref, p, a);
  }
}
