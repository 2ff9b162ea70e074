/**
 The books over whole runs. In order means: the live counter legs are exactly the ones the
 rows and parts ask for (linked to a mintable account and peered with their own leg), each of
 minus its source's money and pointing back at it.
 */
module LedgerRuns {
  import opened Records
  import opened MirrorMint
  import opened Joined
  import opened Ledger
  import opened LedgerWrite

  // the leg a source asks for, given its link, its peer and its money
  function Asked(db: Db, x: TxId, link: Option<AccountId>, peer: Option<TxId>, cents: int): Option<Leg> {
    if Mintable(db, link) && peer == Some(Mirror(x)) then Some(Leg(link.value, -cents, Some(x))) else None
  }

  function PartsSeen(db: Db, home: Home, t: TxId): map<string, Part>
    requires t in db.txs
  {
    var o := Seen(db, home, t);
    if o.splits.Some? then PartMap(o.splits.value) else map[]
  }

  function Claim(db: Db, home: Home, x: TxId): Option<Leg> {
    match x
    case Row(_) =>
      if Live(db, x) then
        var o := Seen(db, home, x); Asked(db, x, o.link, o.peer, db.txs[x].amountCents)
      else None
    case PartKey(t, p) =>
      if t.Row? && Live(db, t) && p in PartsSeen(db, home, t) then
        var part := PartsSeen(db, home, t)[p];
        Asked(db, x, part.link, part.peer, Signed(db.txs[t], part.amountCents))
      else None
    case Mirror(_) => None
  }

  // a bank or manual row, held by its keeper
  ghost predicate KeepsRow(db: Db, home: Home, ref: TxRef) {
    Holds(db, home, ref) && ref.id.Row?
  }

  ghost predicate InOrder(db: Db, home: Home) {
    forall x :: LegOf(db, x) == Claim(db, home, x)
  }

  ghost predicate SameBases(db: Db, e: Db, home: Home) {
    forall a :: Base(e, home, a) == Base(db, home, a)
  }

  // ---- when a write keeps the books in order ----

  predicate LinkChanges(o: Opinions, patch: Patch) {
    patch.link.Set? && patch.link.value != o.link
  }

  /** A changed link lets the plan decide the peer, or names a foreign row; it may clear the
      peer only when nothing is minted. An unchanged link leaves the peer of a live leg alone. */
  predicate PeerFits(db: Db, home: Home, ref: TxRef, patch: Patch)
    requires ref.id in db.txs
  {
    var o, own := Seen(db, home, ref.id), Some(Mirror(ref.id));
    if patch.peer.Keep? then true
    else if LinkChanges(o, patch) then
      Mintable(db, patch.link.value) ==>
        patch.peer.value != own && (patch.peer.value.None? ==> o.peer.Some? && o.peer != own)
    else if LegOf(db, ref.id).Some? then patch.peer.value == own
    else Mintable(db, o.link) ==> patch.peer.value != own
  }

  // one part of a splits write against the stored part of the same id: an unchanged link
  // keeps pointing at its leg; after a foreign peer the part may not claim a leg it never had
  predicate PartPeerFits(db: Db, t: TxId, part: Part, prev: Option<Part>)
    requires part.id.Some?
  {
    var own := Some(OwnPartMirror(t, part.id.value));
    Mintable(db, part.link) ==>
      if LinkMoved(part, prev) then PeerOf(prev).None? || PeerOf(prev) == own || part.peer != own
      else (part.peer == own) == LegOf(db, PartKey(t, part.id.value)).Some?
  }

  // what a part that leaves account `a` takes along beyond the money its leg had brought
  function PartChange(db: Db, raw: Tx, t: TxId, part: Part, prev: Option<Part>, a: AccountId): int
    requires part.id.Some?
  {
    var leg := LegOf(db, PartKey(t, part.id.value));
    if LinkMoved(part, prev) && leg.Some? && leg.value.account == a && a in db.accounts &&
       Moves(db.accounts[a], raw.date, false)
    then Signed(raw, part.amountCents) + leg.value.cents
    else 0
  }

  // one part leaves, if it leaves, with the money it came with
  predicate PartMoneyFits(db: Db, raw: Tx, t: TxId, part: Part, prev: Option<Part>)
    requires part.id.Some?
  {
    var leg := LegOf(db, PartKey(t, part.id.value));
    (LinkMoved(part, prev) && leg.Some? && leg.value.account in db.accounts &&
     Moves(db.accounts[leg.value.account], raw.date, false)) ==>
      Signed(raw, part.amountCents) == -leg.value.cents
  }

  function PartsChange(db: Db, raw: Tx, t: TxId, next: seq<Part>, known: map<string, Part>, a: AccountId): int {
    if next == [] then 0
    else
      (if next[0].id.None? then 0 else PartChange(db, raw, t, next[0], Known(known, next[0].id.value), a)) +
      PartsChange(db, raw, t, next[1..], known, a)
  }

  function SplitsChange(db: Db, home: Home, ref: TxRef, patch: Patch, a: AccountId): int
    requires ref.id in db.txs
  {
    if NewParts(patch).None? then 0
    else PartsChange(db, db.txs[ref.id], ref.id, NewParts(patch).value, PartsSeen(db, home, ref.id), a)
  }

  // per account: what a changed count flag un-counts or counts, and what parts leave with, add up to nothing
  predicate MoneyFits(db: Db, home: Home, ref: TxRef, patch: Patch)
    requires ref.id in db.txs
  {
    forall a :: a in db.accounts ==>
      CountDrift(db, home, ref, patch.loanCounted, a) + SplitsChange(db, home, ref, patch, a) == 0
  }

  // clearing the splits of a row retires nothing, so no part may hold a leg
  predicate SplitsPeersFit(db: Db, home: Home, ref: TxRef, patch: Patch)
    requires ref.id in db.txs
  {
    var known := PartsSeen(db, home, ref.id);
    match patch.splits
    case Keep => true
    case Set(None) => forall p :: p in known ==> LegOf(db, PartKey(ref.id, p)).None?
    case Set(Some(next)) =>
      forall i :: 0 <= i < |next| && next[i].id.Some? ==>
        PartPeerFits(db, ref.id, next[i], Known(known, next[i].id.value))
  }

  // ---- the row's own leg ----

  function RowAsked(db: Db, home: Home, ref: TxRef, patch: Patch): Option<Leg>
    requires ref.id in db.txs
  {
    var o := Seen(db, home, ref.id);
    var link, peer := Changed(patch.link, o.link), Changed(Written(db, ref, patch).peer, o.peer);
    Asked(db, ref.id, link, peer, db.txs[ref.id].amountCents)
  }

  lemma SameMintable(d: Db, e: Db)
    requires SameKinds(d, e)
    ensures forall l :: Mintable(e, l) == Mintable(d, l)
  {
  }

  // the written row as its keeper sees it afterwards
  lemma HeldAfter(db: Db, home: Home, ref: TxRef, patch: Patch)
    requires KeepsRow(db, home, ref) && PartsNamedOnce(patch)
    ensures var e := Write(db, ref, patch);
      && KeepsRow(e, home, ref) && e.txs[ref.id] == db.txs[ref.id].(ops := e.txs[ref.id].ops)
      && Seen(e, home, ref.id) == Apply(Stored(ref, Written(db, ref, patch)), Seen(db, home, ref.id))
      && (forall l :: Mintable(e, l) == Mintable(db, l))
  {
    WriteRows(db, ref, patch);
    SameMintable(db, Write(db, ref, patch));
  }

  // what a source asks for does not depend on other rows
  lemma ClaimElsewhere(d: Db, e: Db, home: Home, ref: TxRef, x: TxId)
    requires SameRows(d, e, ref) && SameKinds(d, e) && Root(x) != ref.id
    ensures Claim(e, home, x) == Claim(d, home, x)
  {
    SameMintable(d, e);
    if Root(x).Row? && Root(x) in d.txs {
      assert Seen(e, home, Root(x)) == Seen(d, home, Root(x));
    }
  }

  lemma RowClaimAfter(db: Db, home: Home, ref: TxRef, patch: Patch)
    requires KeepsRow(db, home, ref) && PartsNamedOnce(patch)
    ensures Claim(Write(db, ref, patch), home, ref.id) == RowAsked(db, home, ref, patch)
    ensures LegOf(Write(db, ref, patch), ref.id) == RowNextLeg(db, ref, patch)
  {
    HeldAfter(db, home, ref, patch);
    WriteLegs(db, ref, patch, ref.id);
  }

  lemma RowLegKept(db: Db, home: Home, ref: TxRef, patch: Patch)
    requires KeepsRow(db, home, ref) && LegOf(db, ref.id) == Claim(db, home, ref.id)
    requires !LinkChanges(Seen(db, home, ref.id), patch)
    ensures RowNextLeg(db, ref, patch) == LegOf(db, ref.id)
    ensures LegOf(db, ref.id) == RowAsked(db, home, ref, patch) <==> PeerFits(db, home, ref, patch)
  {
  }

  lemma RowLegMoves(db: Db, home: Home, ref: TxRef, patch: Patch)
    requires KeepsRow(db, home, ref) && LegOf(db, ref.id) == Claim(db, home, ref.id)
    requires LinkChanges(Seen(db, home, ref.id), patch)
    ensures RowNextLeg(db, ref, patch) == RowAsked(db, home, ref, patch) <==> PeerFits(db, home, ref, patch)
  {
  }

  lemma RowLegFits(db: Db, home: Home, ref: TxRef, patch: Patch)
    requires KeepsRow(db, home, ref) && InOrder(db, home) && PartsNamedOnce(patch)
    ensures LegOf(Write(db, ref, patch), ref.id) == Claim(Write(db, ref, patch), home, ref.id)
        <==> PeerFits(db, home, ref, patch)
  {
    RowClaimAfter(db, home, ref, patch);
    if LinkChanges(Seen(db, home, ref.id), patch) {
      RowLegMoves(db, home, ref, patch);
    } else {
      RowLegKept(db, home, ref, patch);
    }
  }

  // ---- the legs of its parts ----

  // the leg a surviving part ends up with
  function PartNextLeg(db: Db, raw: Tx, t: TxId, part: Part, prev: Option<Part>): Option<Leg>
    requires part.id.Some?
  {
    if Touched(part, prev) then PartAsk(raw, t, part, prev).NextLeg(db) else LegOf(db, PartKey(t, part.id.value))
  }

  // the leg its stored form asks for
  function PartAsked(db: Db, raw: Tx, t: TxId, part: Part, prev: Option<Part>): Option<Leg>
    requires part.id.Some?
  {
    var peer := Adjusted(db, raw, t, part, prev).peer;
    Asked(db, PartKey(t, part.id.value), part.link, peer, Signed(raw, part.amountCents))
  }

  function PrevAsked(db: Db, raw: Tx, t: TxId, p: string, prev: Option<Part>): Option<Leg> {
    if prev.Some? then
      Asked(db, PartKey(t, p), prev.value.link, prev.value.peer, Signed(raw, prev.value.amountCents))
    else None
  }

  lemma PartLegFits(db: Db, raw: Tx, t: TxId, part: Part, prev: Option<Part>)
    requires part.id.Some?
    requires LegOf(db, PartKey(t, part.id.value)) == PrevAsked(db, raw, t, part.id.value, prev)
    ensures PartNextLeg(db, raw, t, part, prev) == PartAsked(db, raw, t, part, prev)
        <==> PartPeerFits(db, t, part, prev)
  {
  }

  lemma PartDrift(db: Db, raw: Tx, t: TxId, part: Part, prev: Option<Part>, a: AccountId)
    requires part.id.Some? && t.Row?
    requires LegOf(db, PartKey(t, part.id.value)) == PrevAsked(db, raw, t, part.id.value, prev)
    ensures PlanDrift(db, PartAsk(raw, t, part, prev), a) == PartChange(db, raw, t, part, prev, a)
  {
  }

  /** A part's plan moves no base if and only if the part leaves with the money it came with. */
  lemma PartKeepsBases(db: Db, raw: Tx, t: TxId, part: Part, prev: Option<Part>)
    requires part.id.Some? && t.Row?
    requires LegOf(db, PartKey(t, part.id.value)) == PrevAsked(db, raw, t, part.id.value, prev)
    ensures (forall a :: PlanDrift(db, PartAsk(raw, t, part, prev), a) == 0) <==> PartMoneyFits(db, raw, t, part, prev)
  {
    forall a ensures PlanDrift(db, PartAsk(raw, t, part, prev), a) == PartChange(db, raw, t, part, prev, a) {
      PartDrift(db, raw, t, part, prev, a);
    }
    var leg := LegOf(db, PartKey(t, part.id.value));
    if leg.Some? {
      assert PartChange(db, raw, t, part, prev, leg.value.account) == 0 <==> PartMoneyFits(db, raw, t, part, prev);
    }
  }

  lemma GoneLeg(db: Db, raw: Tx, t: TxId, p: string, gone: Part, a: AccountId)
    requires t.Row? && LegOf(db, PartKey(t, p)) == PrevAsked(db, raw, t, p, Some(gone))
    ensures GoneAsk(raw, t, p, gone).NextLeg(db) == None
    ensures PlanDrift(db, GoneAsk(raw, t, p, gone), a) == 0
  {
  }

  lemma OtherLegs(db: Db, home: Home, ref: TxRef, patch: Patch, x: TxId)
    requires KeepsRow(db, home, ref) && InOrder(db, home) && PartsNamedOnce(patch)
    requires x != ref.id && !(x.PartKey? && x.tx == ref.id)
    ensures LegOf(Write(db, ref, patch), x) == Claim(Write(db, ref, patch), home, x)
  {
    WriteRows(db, ref, patch);
    PartAsksAre(db, ref, patch);
    WriteLegs(db, ref, patch, x);
    assert LegOf(db, x) == Claim(db, home, x);
    ClaimElsewhere(db, Write(db, ref, patch), home, ref, x);
  }

  // the asks of a splits write, part by part
  lemma AskOf(db: Db, home: Home, ref: TxRef, next: seq<Part>, q: Ask)
    requires KeepsRow(db, home, ref) && DistinctIds(next)
    ensures var raw, seen := db.txs[ref.id], PartsSeen(db, home, ref.id);
      q in SplitsAsks(db, ref, next) <==>
        || (exists i :: FromPart(raw, ref.id, next, seen, q, i))
        || (exists p :: p in seen && p !in IdsOf(next) && seen[p].link.Some? && q == GoneAsk(raw, ref.id, p, seen[p]))
  {
    var raw, prev := db.txs[ref.id], PrevParts(db, ref);
    var known := PartMap(prev);
    assert known == PartsSeen(db, home, ref.id);
    DiffShape(db, raw, ref.id, next, known);
    DiffAsks(db, raw, ref.id, next, known);
    PartIdsAre(prev);
    GoneAsksAre(raw, ref.id, PartIds(prev), known - IdsOf(next));
  }

  lemma AdjustedSeen(db: Db, home: Home, ref: TxRef, patch: Patch, next: seq<Part>)
    requires KeepsRow(db, home, ref) && patch.splits == Set(Some(next)) && DistinctIds(next)
    ensures var known, seen := PartsSeen(db, home, ref.id), PartMap(SplitsDiff(db, ref, next).adjusted);
      && seen.Keys == IdsOf(next)
      && forall i :: 0 <= i < |next| && next[i].id.Some? ==>
           seen[next[i].id.value] ==
           Adjusted(db, db.txs[ref.id], ref.id, next[i], Known(known, next[i].id.value))
  {
    var raw, known, adjusted := db.txs[ref.id], PartsSeen(db, home, ref.id), SplitsDiff(db, ref, next).adjusted;
    DiffShape(db, raw, ref.id, next, known);
    assert forall j :: 0 <= j < |next| ==> adjusted[j].id == next[j].id;
    PartMapAt(adjusted);
    forall p ensures p in IdsOf(adjusted) <==> p in IdsOf(next) {
      if p in IdsOf(adjusted) {
        var j :| 0 <= j < |adjusted| && adjusted[j].id == Some(p);
        assert next[j].id == Some(p);
      }
      if p in IdsOf(next) {
        var j :| 0 <= j < |next| && next[j].id == Some(p);
        assert adjusted[j].id == Some(p);
      }
    }
    forall i | 0 <= i < |next| && next[i].id.Some?
      ensures PartMap(adjusted)[next[i].id.value] == Adjusted(db, raw, ref.id, next[i], Known(known, next[i].id.value))
    {
      assert adjusted[i] == AdjustedAt(db, raw, ref.id, next, known, i);
    }
  }

  lemma PartsSeenAfter(db: Db, home: Home, ref: TxRef, patch: Patch, next: seq<Part>)
    requires KeepsRow(db, home, ref) && patch.splits == Set(Some(next)) && DistinctIds(next)
    ensures var e := Write(db, ref, patch);
      && Live(e, ref.id) && e.txs[ref.id] == db.txs[ref.id].(ops := e.txs[ref.id].ops)
      && (forall l :: Mintable(e, l) == Mintable(db, l))
      && PartsSeen(e, home, ref.id) == PartMap(SplitsDiff(db, ref, next).adjusted)
  {
    HeldAfter(db, home, ref, patch);
  }

  lemma SurvivingClaim(db: Db, home: Home, ref: TxRef, patch: Patch, next: seq<Part>, i: int)
    requires KeepsRow(db, home, ref) && patch.splits == Set(Some(next)) && DistinctIds(next)
    requires 0 <= i < |next| && next[i].id.Some?
    ensures Claim(Write(db, ref, patch), home, PartKey(ref.id, next[i].id.value))
         == PartAsked(db, db.txs[ref.id], ref.id, next[i], Known(PartsSeen(db, home, ref.id), next[i].id.value))
  {
    HeldAfter(db, home, ref, patch);
    PartSeenAfter(db, home, ref, patch, next, i);
    var prev := Known(PartsSeen(db, home, ref.id), next[i].id.value);
    ClaimOfPart(db, Write(db, ref, patch), home, ref.id, next[i].id.value,
                Adjusted(db, db.txs[ref.id], ref.id, next[i], prev));
  }

  // what a part asks for is told by its link, its peer and its money
  lemma ClaimOfPart(db: Db, e: Db, home: Home, t: TxId, p: string, part: Part)
    requires t.Row? && t in db.txs && Live(e, t) && Known(PartsSeen(e, home, t), p) == Some(part)
    requires e.txs[t].amountCents == db.txs[t].amountCents && forall l :: Mintable(e, l) == Mintable(db, l)
    ensures Claim(e, home, PartKey(t, p)) ==
      Asked(db, PartKey(t, p), part.link, part.peer, Signed(db.txs[t], part.amountCents))
  {
  }

  lemma PartSeenAfter(db: Db, home: Home, ref: TxRef, patch: Patch, next: seq<Part>, i: int)
    requires KeepsRow(db, home, ref) && patch.splits == Set(Some(next)) && DistinctIds(next)
    requires 0 <= i < |next| && next[i].id.Some?
    ensures ref.id in Write(db, ref, patch).txs
    ensures Known(PartsSeen(Write(db, ref, patch), home, ref.id), next[i].id.value) ==
            Some(Adjusted(db, db.txs[ref.id], ref.id, next[i], Known(PartsSeen(db, home, ref.id), next[i].id.value)))
  {
    PartsSeenAfter(db, home, ref, patch, next);
    AdjustedSeen(db, home, ref, patch, next);
    assert next[i].id.value in IdsOf(next);
  }

  lemma SurvivingLeg(db: Db, home: Home, ref: TxRef, patch: Patch, next: seq<Part>, i: int)
    requires KeepsRow(db, home, ref) && patch.splits == Set(Some(next)) && DistinctIds(next)
    requires 0 <= i < |next| && next[i].id.Some?
    ensures LegOf(Write(db, ref, patch), PartKey(ref.id, next[i].id.value))
         == PartNextLeg(db, db.txs[ref.id], ref.id, next[i], Known(PartsSeen(db, home, ref.id), next[i].id.value))
  {
    var raw, known, p := db.txs[ref.id], PartsSeen(db, home, ref.id), next[i].id.value;
    var x := PartKey(ref.id, p);
    WriteLegs(db, ref, patch, x);
    if TouchedAt(next, known, i) {
      var q := AskAt(raw, ref.id, next, known, i);
      assert FromPart(raw, ref.id, next, known, q, i);
      AskOf(db, home, ref, next, q);
    } else {
      forall r | r in PartAsks(db, ref, patch) ensures r.source.id != x {
        UntouchedPart(db, home, ref, next, i, r);
      }
    }
  }

  // nothing is asked about a part that nothing touched
  lemma UntouchedPart(db: Db, home: Home, ref: TxRef, next: seq<Part>, i: int, q: Ask)
    requires KeepsRow(db, home, ref) && DistinctIds(next) && q in SplitsAsks(db, ref, next)
    requires 0 <= i < |next| && next[i].id.Some? && !TouchedAt(next, PartsSeen(db, home, ref.id), i)
    ensures q.source.id != PartKey(ref.id, next[i].id.value)
  {
    AskOf(db, home, ref, next, q);
    assert next[i].id.value in IdsOf(next);
  }

  lemma VanishedPart(db: Db, home: Home, ref: TxRef, patch: Patch, next: seq<Part>, p: string)
    requires KeepsRow(db, home, ref) && InOrder(db, home) && patch.splits == Set(Some(next)) && DistinctIds(next)
    requires p !in IdsOf(next)
    ensures var e := Write(db, ref, patch);
      LegOf(e, PartKey(ref.id, p)) == None && Claim(e, home, PartKey(ref.id, p)) == None
  {
    var raw, known := db.txs[ref.id], PartsSeen(db, home, ref.id);
    var x := PartKey(ref.id, p);
    PartsSeenAfter(db, home, ref, patch, next);
    AdjustedSeen(db, home, ref, patch, next);
    WriteLegs(db, ref, patch, x);
    assert LegOf(db, x) == Claim(db, home, x);
    if p in known && known[p].link.Some? {
      AskOf(db, home, ref, next, GoneAsk(raw, ref.id, p, known[p]));
      GoneLeg(db, raw, ref.id, p, known[p], "");
    } else {
      forall r | r in PartAsks(db, ref, patch) ensures r.source.id != x {
        AskOf(db, home, ref, next, r);
      }
    }
  }

  // without new parts no part's leg moves
  lemma UnsplitLegs(db: Db, home: Home, ref: TxRef, patch: Patch, p: string)
    requires KeepsRow(db, home, ref) && NewParts(patch).None?
    ensures LegOf(Write(db, ref, patch), PartKey(ref.id, p)) == LegOf(db, PartKey(ref.id, p))
  {
    WriteLegs(db, ref, patch, PartKey(ref.id, p));
  }

  lemma UnsplitClaims(db: Db, home: Home, ref: TxRef, patch: Patch, p: string)
    requires KeepsRow(db, home, ref) && NewParts(patch).None?
    ensures Claim(Write(db, ref, patch), home, PartKey(ref.id, p)) ==
      if patch.splits.Keep? then Claim(db, home, PartKey(ref.id, p)) else None
  {
    HeldAfter(db, home, ref, patch);
    PartsSeenUnsplit(db, home, ref, patch);
    SamePartClaim(db, Write(db, ref, patch), home, ref.id, p);
  }

  lemma PartsSeenUnsplit(db: Db, home: Home, ref: TxRef, patch: Patch)
    requires KeepsRow(db, home, ref) && NewParts(patch).None?
    ensures ref.id in Write(db, ref, patch).txs
    ensures PartsSeen(Write(db, ref, patch), home, ref.id) ==
      if patch.splits.Keep? then PartsSeen(db, home, ref.id) else map[]
  {
    HeldAfter(db, home, ref, patch);
  }

  lemma SamePartClaim(d: Db, e: Db, home: Home, t: TxId, p: string)
    requires t.Row? && Live(d, t) && Live(e, t) && e.txs[t].amountCents == d.txs[t].amountCents
    requires forall l :: Mintable(e, l) == Mintable(d, l)
    ensures p !in PartsSeen(e, home, t) ==> Claim(e, home, PartKey(t, p)) == None
    ensures PartsSeen(e, home, t) == PartsSeen(d, home, t) ==>
      Claim(e, home, PartKey(t, p)) == Claim(d, home, PartKey(t, p))
  {
  }

  lemma PartLegsFit(db: Db, home: Home, ref: TxRef, patch: Patch)
    requires KeepsRow(db, home, ref) && InOrder(db, home) && PartsNamedOnce(patch)
    ensures var e := Write(db, ref, patch);
      (forall p :: LegOf(e, PartKey(ref.id, p)) == Claim(e, home, PartKey(ref.id, p)))
        <==> SplitsPeersFit(db, home, ref, patch)
  {
    var e, raw, known := Write(db, ref, patch), db.txs[ref.id], PartsSeen(db, home, ref.id);
    forall p ensures LegOf(db, PartKey(ref.id, p)) == PrevAsked(db, raw, ref.id, p, Known(known, p)) {
      assert LegOf(db, PartKey(ref.id, p)) == Claim(db, home, PartKey(ref.id, p));
    }
    match patch.splits {
      case Set(Some(next)) =>
        forall i | 0 <= i < |next| && next[i].id.Some?
          ensures LegOf(e, PartKey(ref.id, next[i].id.value)) == Claim(e, home, PartKey(ref.id, next[i].id.value))
             <==> PartPeerFits(db, ref.id, next[i], Known(known, next[i].id.value))
        {
          SurvivingLeg(db, home, ref, patch, next, i);
          SurvivingClaim(db, home, ref, patch, next, i);
          PartLegFits(db, raw, ref.id, next[i], Known(known, next[i].id.value));
        }
        forall p | p !in IdsOf(next)
          ensures LegOf(e, PartKey(ref.id, p)) == Claim(e, home, PartKey(ref.id, p))
        {
          VanishedPart(db, home, ref, patch, next, p);
        }
      case _ =>
        forall p ensures LegOf(e, PartKey(ref.id, p)) == LegOf(db, PartKey(ref.id, p)) &&
          Claim(e, home, PartKey(ref.id, p)) == if patch.splits.Keep? then Claim(db, home, PartKey(ref.id, p)) else None
        {
          UnsplitLegs(db, home, ref, patch, p);
          UnsplitClaims(db, home, ref, patch, p);
        }
    }
  }

  /** A write keeps the live legs exactly the asked ones if and only if the peers it carries fit. */
  lemma OrderKept(db: Db, home: Home, ref: TxRef, patch: Patch)
    requires KeepsRow(db, home, ref) && InOrder(db, home) && PartsNamedOnce(patch)
    ensures InOrder(Write(db, ref, patch), home) <==>
      PeerFits(db, home, ref, patch) && SplitsPeersFit(db, home, ref, patch)
  {
    RowLegFits(db, home, ref, patch);
    PartLegsFit(db, home, ref, patch);
    forall x | x != ref.id && !(x.PartKey? && x.tx == ref.id)
      ensures LegOf(Write(db, ref, patch), x) == Claim(Write(db, ref, patch), home, x)
    {
      OtherLegs(db, home, ref, patch, x);
    }
  }

  // ---- the money ----

  lemma RowPlanDriftless(db: Db, home: Home, ref: TxRef, patch: Patch, a: AccountId)
    requires KeepsRow(db, home, ref) && LegOf(db, ref.id) == Claim(db, home, ref.id)
    ensures RowDrift(db, ref, patch, a) == 0
  {
  }

  lemma {:induction false} NoDrift(db: Db, asks: seq<Ask>, a: AccountId)
    requires forall q :: q in asks ==> PlanDrift(db, q, a) == 0
    ensures PlansDrift(db, asks, a) == 0
  {
    if asks != [] { NoDrift(db, asks[1..], a); }
  }

  lemma {:induction false} DriftConcat(db: Db, p: seq<Ask>, q: seq<Ask>, a: AccountId)
    ensures PlansDrift(db, p + q, a) == PlansDrift(db, p, a) + PlansDrift(db, q, a)
  {
    if p == [] {
      assert p + q == q;
    } else {
      assert (p + q)[1..] == p[1..] + q;
      DriftConcat(db, p[1..], q, a);
    }
  }

  lemma {:induction false} SameKnownChange(
    db: Db, raw: Tx, t: TxId, next: seq<Part>, known: map<string, Part>, inner: map<string, Part>, a: AccountId)
    requires forall i :: 0 <= i < |next| && next[i].id.Some? ==>
      Known(inner, next[i].id.value) == Known(known, next[i].id.value)
    ensures PartsChange(db, raw, t, next, inner, a) == PartsChange(db, raw, t, next, known, a)
  {
    if next != [] {
      assert forall i :: 0 <= i < |next| - 1 ==> next[1..][i] == next[i + 1];
      SameKnownChange(db, raw, t, next[1..], known, inner, a);
    }
  }

  // the plans of the surviving parts drift by what the parts leave with
  lemma {:induction false} SurvivingDrift(
    db: Db, raw: Tx, t: TxId, next: seq<Part>, known: map<string, Part>, a: AccountId)
    requires t.Row? && DistinctIds(next)
    requires forall i :: 0 <= i < |next| && next[i].id.Some? ==>
      LegOf(db, PartKey(t, next[i].id.value)) == PrevAsked(db, raw, t, next[i].id.value, Known(known, next[i].id.value))
    ensures PlansDrift(db, DiffParts(db, raw, t, next, known).asks, a) == PartsChange(db, raw, t, next, known, a)
  {
    if next != [] {
      var inner := Inner(next, known);
      TailKnows(next, known);
      assert forall i {:trigger next[1..][i]} :: 0 <= i < |next| - 1 ==> next[1..][i] == next[i + 1];
      SurvivingDrift(db, raw, t, next[1..], inner, a);
      SameKnownChange(db, raw, t, next[1..], known, inner, a);
      var own := if TouchedAt(next, known, 0) then [AskAt(raw, t, next, known, 0)] else [];
      var rest := DiffParts(db, raw, t, next[1..], inner).asks;
      assert DiffParts(db, raw, t, next, known).asks == own + rest;
      DriftConcat(db, own, rest, a);
      if own != [] {
        assert own[1..] == [];
        PartDrift(db, raw, t, next[0], Known(known, next[0].id.value), a);
      }
    }
  }

  lemma PartsDrift(db: Db, home: Home, ref: TxRef, patch: Patch, a: AccountId)
    requires KeepsRow(db, home, ref) && InOrder(db, home) && PartsNamedOnce(patch)
    ensures PlansDrift(db, PartAsks(db, ref, patch), a) == SplitsChange(db, home, ref, patch, a)
  {
    if NewParts(patch).Some? {
      var raw, known, next := db.txs[ref.id], PartsSeen(db, home, ref.id), NewParts(patch).value;
      forall p ensures LegOf(db, PartKey(ref.id, p)) == PrevAsked(db, raw, ref.id, p, Known(known, p)) {
        assert LegOf(db, PartKey(ref.id, p)) == Claim(db, home, PartKey(ref.id, p));
      }
      SurvivingDrift(db, raw, ref.id, next, known, a);
      var order, rest := PartIds(PrevParts(db, ref)), SplitsDiff(db, ref, next).rest;
      PartIdsAre(PrevParts(db, ref));
      DiffShape(db, raw, ref.id, next, known);
      GoneAsksAre(raw, ref.id, order, rest);
      forall q | q in GoneAsks(raw, ref.id, order, rest) ensures PlanDrift(db, q, a) == 0 {
        var p :| p in order && p in rest && q == GoneAsk(raw, ref.id, p, rest[p]);
        GoneLeg(db, raw, ref.id, p, rest[p], a);
      }
      NoDrift(db, GoneAsks(raw, ref.id, order, rest), a);
      DriftConcat(db, SplitsDiff(db, ref, next).asks, GoneAsks(raw, ref.id, order, rest), a);
    }
  }

  /** On books in order a write moves a base by exactly what a changed count flag and the parts that
      leave an account make of it, so every base is kept if and only if these add up to nothing. */
  lemma BasesKept(db: Db, home: Home, ref: TxRef, patch: Patch)
    requires KeepsRow(db, home, ref) && InOrder(db, home) && PartsNamedOnce(patch)
    ensures SameBases(db, Write(db, ref, patch), home) <==> MoneyFits(db, home, ref, patch)
  {
    assert LegOf(db, ref.id) == Claim(db, home, ref.id);
    forall a ensures Base(Write(db, ref, patch), home, a)
      == Base(db, home, a) + CountDrift(db, home, ref, patch.loanCounted, a) + SplitsChange(db, home, ref, patch, a)
    {
      WriteDrift(db, home, ref, patch, a);
      RowPlanDriftless(db, home, ref, patch, a);
      PartsDrift(db, home, ref, patch, a);
    }
    forall a | a !in db.accounts ensures SplitsChange(db, home, ref, patch, a) == 0 {
      if NewParts(patch).Some? {
        NoSuchAccount(db, db.txs[ref.id], ref.id, NewParts(patch).value, PartsSeen(db, home, ref.id), a);
      }
    }
  }

  lemma {:induction false} NoSuchAccount(
    db: Db, raw: Tx, t: TxId, next: seq<Part>, known: map<string, Part>, a: AccountId)
    requires a !in db.accounts
    ensures PartsChange(db, raw, t, next, known, a) == 0
  {
    if next != [] { NoSuchAccount(db, raw, t, next[1..], known, a); }
  }

  /** Splits in which every part that leaves keeps its money, and no change of the count flag: the
      plain case of the condition. */
  lemma {:induction false} UnchangedPartsFit(
    db: Db, raw: Tx, t: TxId, next: seq<Part>, known: map<string, Part>, a: AccountId)
    requires forall i :: 0 <= i < |next| && next[i].id.Some? ==>
      PartMoneyFits(db, raw, t, next[i], Known(known, next[i].id.value))
    ensures PartsChange(db, raw, t, next, known, a) == 0
  {
    if next != [] {
      assert forall i :: 0 <= i < |next| - 1 ==> next[1..][i] == next[i + 1];
      UnchangedPartsFit(db, raw, t, next[1..], known, a);
    }
  }
}
