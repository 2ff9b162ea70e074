/**
 Writes that go around the choke point, as a reconciliation makes them: a plain removal and a plain
 overwrite of a link. Neither plans a leg, so what they may do is exactly delimited.
 */
module LedgerBypass {
  import opened Records
  import opened MirrorMint
  import opened Joined
  import opened Sums
  import opened Ledger
  import opened LedgerWrite
  import opened LedgerRuns
  import opened LedgerSteps

  /** Removing a row without its engine moves no base; it keeps the books in order if and only if
      neither the row nor a part of it holds a leg. */
  lemma PlainRemoval(db: Db, home: Home, ref: TxRef)
    requires KeepsRow(db, home, ref) && InOrder(db, home)
    ensures var e := RemoveTx(db, db.txs[ref.id].spaceId, ref.id);
      && SameBases(db, e, home)
      && (InOrder(e, home) <==> LegOf(db, ref.id).None? && PartsHoldNoLeg(db, home, ref))
  {
    var e := RemoveTx(db, db.txs[ref.id].spaceId, ref.id);
    forall a ensures Base(e, home, a) == Base(db, home, a) {
      TombstoneKeepsBase(db, home, TxRef(ref.id, db.txs[ref.id].spaceId, false, false), a);
    }
    assert forall x :: LegOf(e, x) == LegOf(db, x);
    if LegOf(db, ref.id).None? {
      PartlessOrder(db, e, home, ref);
    } else {
      ClaimsWithout(db, e, home, ref, ref.id);
      assert LegOf(e, ref.id) != Claim(e, home, ref.id);
    }
  }

  // the link the row ends up with is the one its leg stands on, or asks for no leg
  predicate PlainLinkFits(db: Db, home: Home, ref: TxRef, patch: Patch)
    requires ref.id in db.txs
  {
    var o := Seen(db, home, ref.id);
    var link := Changed(patch.link, o.link);
    if LegOf(db, ref.id).Some? then link == o.link else Mintable(db, link) ==> o.peer != Some(Mirror(ref.id))
  }

  // every part the row ends up with asks for just the leg that already stands there
  ghost predicate PlainPartsFit(db: Db, ref: TxRef, patch: Patch)
    requires ref.id in db.txs
  {
    patch.splits.Set? ==>
      var parts := PartMap(if patch.splits.value.Some? then patch.splits.value.value else []);
      forall p :: LegOf(db, PartKey(ref.id, p)) == PrevAsked(db, db.txs[ref.id], ref.id, p, Known(parts, p))
  }

  /** Handing opinions on by a plain overwrite, peers left alone, keeps the books in order if and only
      if the link and the parts fit: a row that has no leg stays without one. */
  lemma PlainOverwrite(db: Db, home: Home, ref: TxRef, patch: Patch)
    requires KeepsRow(db, home, ref) && InOrder(db, home)
    requires patch.peer.Keep? && patch.loanCounted.Keep?
    ensures var e := PutOpinions(db, ref, patch);
      && SameBases(db, e, home)
      && (InOrder(e, home) <==> PlainLinkFits(db, home, ref, patch) && PlainPartsFit(db, ref, patch))
  {
    var e := PutOpinions(db, ref, patch);
    PutOpinionsRows(db, ref, patch);
    forall a ensures Base(e, home, a) == Base(db, home, a) {
      PutOpinionsBase(db, home, ref, patch, a);
    }
    forall x | Root(x) != ref.id ensures LegOf(e, x) == Claim(e, home, x) {
      assert LegOf(db, x) == Claim(db, home, x);
      ClaimElsewhere(db, e, home, ref, x);
    }
    assert LegOf(db, ref.id) == Claim(db, home, ref.id);
    OverwrittenClaim(db, home, ref, patch);
    OverwrittenParts(db, home, ref, patch);
  }

  // the row's leg stays, and what it asks for follows the link
  lemma OverwrittenClaim(db: Db, home: Home, ref: TxRef, patch: Patch)
    requires KeepsRow(db, home, ref) && LegOf(db, ref.id) == Claim(db, home, ref.id) && patch.peer.Keep?
    ensures var e := PutOpinions(db, ref, patch);
      LegOf(e, ref.id) == Claim(e, home, ref.id) <==> PlainLinkFits(db, home, ref, patch)
  {
  }

  lemma OverwrittenParts(db: Db, home: Home, ref: TxRef, patch: Patch)
    requires KeepsRow(db, home, ref) && InOrder(db, home)
    ensures var e := PutOpinions(db, ref, patch);
      (forall p :: LegOf(e, PartKey(ref.id, p)) == Claim(e, home, PartKey(ref.id, p)))
        <==> PlainPartsFit(db, ref, patch)
  {
    var e := PutOpinions(db, ref, patch);
    PutOpinionsRows(db, ref, patch);
    forall p ensures LegOf(e, PartKey(ref.id, p)) == LegOf(db, PartKey(ref.id, p)) {
    }
    forall p ensures Claim(e, home, PartKey(ref.id, p)) ==
      PrevAsked(db, db.txs[ref.id], ref.id, p, Known(PartsSeen(e, home, ref.id), p))
    {
      OverwrittenPart(db, home, ref, patch, p);
    }
    if patch.splits.Keep? {
      assert PartsSeen(e, home, ref.id) == PartsSeen(db, home, ref.id);
      forall p ensures LegOf(db, PartKey(ref.id, p)) == Claim(e, home, PartKey(ref.id, p)) {
        assert LegOf(db, PartKey(ref.id, p)) == Claim(db, home, PartKey(ref.id, p));
      }
    }
  }

  lemma OverwrittenPart(db: Db, home: Home, ref: TxRef, patch: Patch, p: string)
    requires KeepsRow(db, home, ref)
    ensures var e := PutOpinions(db, ref, patch);
      ref.id in e.txs && Claim(e, home, PartKey(ref.id, p)) ==
        PrevAsked(db, db.txs[ref.id], ref.id, p, Known(PartsSeen(e, home, ref.id), p))
  {
  }

  // ---- a whole reconciliation: hand-overs, then removals ----

  datatype Hand = Hand(ref: TxRef, patch: Patch)

  function HandAll(db: Db, hands: seq<Hand>): Db {
    if hands == [] then db
    else
      var d, last := HandAll(db, hands[..|hands| - 1]), hands[|hands| - 1];
      if last.ref.id in d.txs then PutOpinions(d, last.ref, last.patch) else d
  }

  function DropAll(db: Db, drops: seq<TxId>): Db {
    if drops == [] then db
    else
      var d, last := DropAll(db, drops[..|drops| - 1]), drops[|drops| - 1];
      if last in d.txs then RemoveTx(d, d.txs[last].spaceId, last) else d
  }

  // a live row in its own space, or any space's overlay; a peer and a count flag are never handed on
  predicate Plain(db: Db, h: Hand) {
    && h.ref.id in db.txs && (h.ref.feed || (Live(db, h.ref.id) && db.txs[h.ref.id].spaceId == h.ref.spaceId))
    && h.patch.peer.Keep? && h.patch.loanCounted.Keep?
  }

  ghost predicate PlainHands(db: Db, hands: seq<Hand>) { forall h :: h in hands ==> Plain(db, h) }

  predicate Handed(hands: seq<Hand>, t: TxId) { exists h :: h in hands && h.ref.id == t }

  // rows and overlays differ in opinions alone, and not in what a leg is counted or claimed by
  ghost predicate OpinionsOnly(d: Db, e: Db, home: Home) {
    && e.accounts == d.accounts && e.txs.Keys == d.txs.Keys
    && (forall k :: k in d.txs ==> e.txs[k] == d.txs[k].(ops := e.txs[k].ops) && e.txs[k].ops.peer == d.txs[k].ops.peer)
    && (forall t :: t in d.txs ==> Seen(e, home, t).peer == Seen(d, home, t).peer)
    && (forall t :: t in d.txs ==> Seen(e, home, t).loanCounted == Seen(d, home, t).loanCounted)
  }

  lemma HandOne(d: Db, home: Home, h: Hand)
    requires Plain(d, h)
    ensures var e := PutOpinions(d, h.ref, h.patch);
      OpinionsOnly(d, e, home) && forall t :: t in d.txs && t != h.ref.id ==> Seen(e, home, t) == Seen(d, home, t)
  {
    forall t | t in d.txs
      ensures t in PutOpinions(d, h.ref, h.patch).txs && HandedSeen(d, PutOpinions(d, h.ref, h.patch), home, h, t)
    {
      HandOneSeen(d, home, h, t);
    }
  }

  predicate HandedSeen(d: Db, e: Db, home: Home, h: Hand, t: TxId)
    requires t in d.txs && t in e.txs
  {
    && Seen(e, home, t).peer == Seen(d, home, t).peer && Seen(e, home, t).loanCounted == Seen(d, home, t).loanCounted
    && (t != h.ref.id ==> Seen(e, home, t) == Seen(d, home, t))
  }

  lemma HandOneSeen(d: Db, home: Home, h: Hand, t: TxId)
    requires Plain(d, h) && t in d.txs
    ensures t in PutOpinions(d, h.ref, h.patch).txs && HandedSeen(d, PutOpinions(d, h.ref, h.patch), home, h, t)
  {
  }

  lemma {:induction false} HandAllKeeps(db: Db, home: Home, hands: seq<Hand>)
    requires PlainHands(db, hands)
    ensures OpinionsOnly(db, HandAll(db, hands), home)
    ensures forall t :: t in db.txs && !Handed(hands, t) ==> Seen(HandAll(db, hands), home, t) == Seen(db, home, t)
  {
    if hands != [] {
      var rest, last := hands[..|hands| - 1], hands[|hands| - 1];
      assert forall h :: h in rest ==> h in hands;
      assert last in hands;
      HandAllKeeps(db, home, rest);
      HandOne(HandAll(db, rest), home, last);
    }
  }

  lemma OpinionsKeepLegs(d: Db, e: Db, home: Home)
    requires OpinionsOnly(d, e, home)
    ensures forall x :: LegOf(e, x) == LegOf(d, x)
    ensures forall a :: Base(e, home, a) == Base(d, home, a)
  {
    forall a ensures Base(e, home, a) == Base(d, home, a) {
      forall m | m in d.txs ensures LegCents(e, home, m, a) == LegCents(d, home, m, a) {
        SameCents(d, e, home, m, a);
      }
      assert Legs(e, home, a) == Legs(d, home, a);
    }
  }

  lemma SameCents(d: Db, e: Db, home: Home, m: TxId, a: AccountId)
    requires OpinionsOnly(d, e, home) && m in d.txs
    ensures LegCents(e, home, m, a) == LegCents(d, home, m, a)
  {
  }

  // ---- the removals ----

  lemma {:induction false} DropAllIs(db: Db, drops: seq<TxId>)
    ensures var e := DropAll(db, drops);
      && e.accounts == db.accounts && e.metas == db.metas && e.txs.Keys == db.txs.Keys
      && forall k :: k in db.txs ==> e.txs[k] == if k in drops then db.txs[k].(deleted := true) else db.txs[k]
  {
    if drops != [] {
      DropAllIs(db, drops[..|drops| - 1]);
      assert drops == drops[..|drops| - 1] + [drops[|drops| - 1]];
    }
  }

  // the leg that is left of a source's
  function LegLeft(db: Db, drops: seq<TxId>, x: TxId): Option<Leg> {
    if Mirror(x) in drops then None else LegOf(db, x)
  }

  lemma DroppedLegs(e: Db, home: Home, drops: seq<TxId>, x: TxId)
    ensures var f := DropAll(e, drops);
      && LegOf(f, x) == LegLeft(e, drops, x)
      && Claim(f, home, x) == if Root(x) in drops then None else Claim(e, home, x)
  {
    DropAllIs(e, drops);
    if Root(x) in e.txs {
      assert Seen(DropAll(e, drops), home, Root(x)) == Seen(e, home, Root(x));
    }
  }

  function DroppedCents(db: Db, home: Home, drops: seq<TxId>, a: AccountId): int {
    if drops == [] then 0
    else
      var last := drops[|drops| - 1];
      DroppedCents(db, home, drops[..|drops| - 1], a) + if last in db.txs then LegCents(db, home, last, a) else 0
  }

  // removing a row takes it out of the legs, and moves no balance
  lemma DropBase(d: Db, home: Home, id: TxId, a: AccountId)
    requires id in d.txs
    ensures Base(RemoveTx(d, d.txs[id].spaceId, id), home, a) == Base(d, home, a) + LegCents(d, home, id, a)
  {
    var e := RemoveTx(d, d.txs[id].spaceId, id);
    forall m | m in d.txs && m != id ensures LegCents(e, home, m, a) == LegCents(d, home, m, a) {
      OtherCents(d, home, id, m, a);
    }
    assert Legs(e, home, a) - {id} == Legs(d, home, a) - {id};
    SumChange(Legs(d, home, a), Legs(e, home, a), id);
    assert LegCents(e, home, id, a) == 0;
  }

  lemma OtherCents(d: Db, home: Home, id: TxId, m: TxId, a: AccountId)
    requires id in d.txs && m in d.txs && m != id
    ensures LegCents(RemoveTx(d, d.txs[id].spaceId, id), home, m, a) == LegCents(d, home, m, a)
  {
  }

  lemma {:induction false} DropAllBase(d: Db, home: Home, drops: seq<TxId>, a: AccountId)
    requires Once(drops)
    ensures Base(DropAll(d, drops), home, a) == Base(d, home, a) + DroppedCents(d, home, drops, a)
  {
    if drops != [] {
      var rest, last := drops[..|drops| - 1], drops[|drops| - 1];
      DropAllBase(d, home, rest, a);
      DropAllIs(d, rest);
      if last in d.txs {
        DropBase(DropAll(d, rest), home, last, a);
        StillCounted(d, home, rest, last, a);
      }
    }
  }

  lemma StillCounted(d: Db, home: Home, drops: seq<TxId>, m: TxId, a: AccountId)
    requires m in d.txs && m !in drops
    ensures m in DropAll(d, drops).txs && LegCents(DropAll(d, drops), home, m, a) == LegCents(d, home, m, a)
  {
    DropAllIs(d, drops);
  }

  lemma {:induction false} SameDropped(d: Db, e: Db, home: Home, drops: seq<TxId>, a: AccountId)
    requires OpinionsOnly(d, e, home)
    ensures DroppedCents(e, home, drops, a) == DroppedCents(d, home, drops, a)
  {
    if drops != [] {
      var last := drops[|drops| - 1];
      SameDropped(d, e, home, drops[..|drops| - 1], a);
      if last in d.txs { SameCents(d, e, home, last, a); }
    }
  }

  // ---- the law of a whole run ----

  // nothing removed leaves a leg behind, and no leg is removed under a source that still asks for it
  ghost predicate DropsFit(db: Db, hands: seq<Hand>, drops: seq<TxId>) {
    && (forall x :: Root(x) in drops ==> LegLeft(db, drops, x).None?)
    && (forall x :: Mirror(x) in drops && Root(x) !in drops && !Handed(hands, Root(x)) ==> LegOf(db, x).None?)
  }

  // a row that was handed opinions asks, with its parts, for just the legs that are left
  ghost predicate HandFits(db: Db, home: Home, o: Opinions, drops: seq<TxId>, t: TxId)
    requires t in db.txs
  {
    var parts := if o.splits.Some? then PartMap(o.splits.value) else map[];
    && LegLeft(db, drops, t) == Asked(db, t, o.link, Seen(db, home, t).peer, db.txs[t].amountCents)
    && forall p :: LegLeft(db, drops, PartKey(t, p)) == PrevAsked(db, db.txs[t], t, p, Known(parts, p))
  }

  ghost predicate HandsFit(db: Db, home: Home, hands: seq<Hand>, drops: seq<TxId>) {
    var e := HandAll(db, hands);
    forall t :: Live(db, t) && t in e.txs && t.Row? && Handed(hands, t) && t !in drops ==>
      HandFits(db, home, Seen(e, home, t), drops, t)
  }

  lemma UnhandedClaim(db: Db, e: Db, home: Home, x: TxId)
    requires OpinionsOnly(db, e, home) && (Root(x) in db.txs ==> Seen(e, home, Root(x)) == Seen(db, home, Root(x)))
    ensures Claim(e, home, x) == Claim(db, home, x)
  {
    SameMintable(db, e);
    match x
    case Row(_) =>
    case PartKey(t, p) => UnhandedParts(db, e, home, t, p);
    case Mirror(_) =>
  }

  lemma UnhandedParts(db: Db, e: Db, home: Home, t: TxId, p: string)
    requires OpinionsOnly(db, e, home) && (t in db.txs ==> Seen(e, home, t) == Seen(db, home, t))
    ensures Claim(e, home, PartKey(t, p)) == Claim(db, home, PartKey(t, p))
  {
    SameMintable(db, e);
    if t.Row? && Live(db, t) {
      assert PartsSeen(e, home, t) == PartsSeen(db, home, t);
    }
  }

  lemma HandedClaim(db: Db, e: Db, home: Home, t: TxId)
    requires OpinionsOnly(db, e, home) && t.Row? && Live(db, t)
    ensures Claim(e, home, t) ==
      Asked(db, t, Seen(e, home, t).link, Seen(db, home, t).peer, db.txs[t].amountCents)
  {
    SameMintable(db, e);
  }

  lemma HandedPartClaim(db: Db, e: Db, home: Home, t: TxId, p: string)
    requires OpinionsOnly(db, e, home) && t.Row? && Live(db, t)
    ensures t in e.txs && Claim(e, home, PartKey(t, p)) ==
      PrevAsked(db, db.txs[t], t, p, Known(PartsSeen(e, home, t), p))
  {
    SameMintable(db, e);
  }

  lemma HandFitsExactly(db: Db, e: Db, home: Home, drops: seq<TxId>, t: TxId)
    requires OpinionsOnly(db, e, home) && t.Row? && Live(db, t) && t in e.txs
    ensures HandFits(db, home, Seen(e, home, t), drops, t) <==>
      forall x :: Root(x) == t ==> LegLeft(db, drops, x) == Claim(e, home, x)
  {
    HandedClaim(db, e, home, t);
    forall p
      ensures Claim(e, home, PartKey(t, p)) == PrevAsked(db, db.txs[t], t, p, Known(PartsSeen(e, home, t), p))
    {
      HandedPartClaim(db, e, home, t, p);
    }
    forall x | Root(x) == t ensures x == t || exists p :: x == PartKey(t, p) {
      if x.PartKey? { assert x == PartKey(t, x.part); }
    }
  }

  // what is left of a source's leg is what the source still asks for
  predicate LeftFits(db: Db, e: Db, home: Home, drops: seq<TxId>, x: TxId) {
    LegLeft(db, drops, x) == if Root(x) in drops then None else Claim(e, home, x)
  }

  lemma LeftFitsExactly(db: Db, home: Home, hands: seq<Hand>, drops: seq<TxId>, x: TxId)
    requires PlainHands(db, hands)
    ensures var e := HandAll(db, hands); var f := DropAll(e, drops);
      LegOf(f, x) == Claim(f, home, x) <==> LeftFits(db, e, home, drops, x)
  {
    HandAllKeeps(db, home, hands);
    OpinionsKeepLegs(db, HandAll(db, hands), home);
    DroppedLegs(HandAll(db, hands), home, drops, x);
  }

  // a source that was handed nothing, or is no live row, asks for what it had
  lemma AsksAsBefore(db: Db, e: Db, home: Home, x: TxId)
    requires InOrder(db, home) && OpinionsOnly(db, e, home)
    requires !Live(db, Root(x)) || !Root(x).Row? || Seen(e, home, Root(x)) == Seen(db, home, Root(x))
    ensures Claim(e, home, x) == LegOf(db, x)
  {
    assert LegOf(db, x) == Claim(db, home, x);
    if Live(db, Root(x)) && Root(x).Row? { UnhandedClaim(db, e, home, x); }
  }

  lemma FitEach(db: Db, home: Home, hands: seq<Hand>, drops: seq<TxId>, x: TxId)
    requires InOrder(db, home) && PlainHands(db, hands)
    requires DropsFit(db, hands, drops) && HandsFit(db, home, hands, drops)
    ensures LeftFits(db, HandAll(db, hands), home, drops, x)
  {
    var e, t := HandAll(db, hands), Root(x);
    HandAllKeeps(db, home, hands);
    if t !in drops {
      if Handed(hands, t) && Live(db, t) && t.Row? {
        HandFitsExactly(db, e, home, drops, t);
      } else {
        AsksAsBefore(db, e, home, x);
        assert LegOf(db, x) == Claim(db, home, x);
      }
    }
  }

  lemma EachFit(db: Db, home: Home, hands: seq<Hand>, drops: seq<TxId>)
    requires InOrder(db, home) && PlainHands(db, hands)
    requires forall x :: LeftFits(db, HandAll(db, hands), home, drops, x)
    ensures DropsFit(db, hands, drops) && HandsFit(db, home, hands, drops)
  {
    var e := HandAll(db, hands);
    HandAllKeeps(db, home, hands);
    forall x | Root(x) in drops ensures LegLeft(db, drops, x).None? {
      assert LeftFits(db, e, home, drops, x);
    }
    forall x | Mirror(x) in drops && Root(x) !in drops && !Handed(hands, Root(x)) ensures LegOf(db, x).None? {
      assert LeftFits(db, e, home, drops, x);
      AsksAsBefore(db, e, home, x);
    }
    forall t: TxId | t in e.txs && t.Row? && Handed(hands, t) && Live(db, t) && t !in drops
      ensures HandFits(db, home, Seen(e, home, t), drops, t)
    {
      forall x | Root(x) == t ensures LegLeft(db, drops, x) == Claim(e, home, x) {
        assert LeftFits(db, e, home, drops, x);
      }
      HandFitsExactly(db, e, home, drops, t);
    }
  }

  /**
   A whole reconciliation, whatever it hands on and removes, moves a base by just the legs it removes,
   and leaves the books in order if and only if its removals and its hand-overs fit.
   */
  lemma ReconciliationKeeps(db: Db, home: Home, hands: seq<Hand>, drops: seq<TxId>)
    requires InOrder(db, home) && PlainHands(db, hands) && Once(drops)
    ensures var f := DropAll(HandAll(db, hands), drops);
      && (forall a :: Base(f, home, a) == Base(db, home, a) + DroppedCents(db, home, drops, a))
      && (InOrder(f, home) <==> DropsFit(db, hands, drops) && HandsFit(db, home, hands, drops))
  {
    forall a
      ensures Base(DropAll(HandAll(db, hands), drops), home, a) == Base(db, home, a) + DroppedCents(db, home, drops, a)
    {
      ReconciledBase(db, home, hands, drops, a);
    }
    ReconciledOrder(db, home, hands, drops);
  }

  lemma ReconciledBase(db: Db, home: Home, hands: seq<Hand>, drops: seq<TxId>, a: AccountId)
    requires PlainHands(db, hands) && Once(drops)
    ensures Base(DropAll(HandAll(db, hands), drops), home, a) == Base(db, home, a) + DroppedCents(db, home, drops, a)
  {
    var e := HandAll(db, hands);
    HandAllKeeps(db, home, hands);
    OpinionsKeepLegs(db, e, home);
    DropAllBase(e, home, drops, a);
    SameDropped(db, e, home, drops, a);
  }

  lemma ReconciledOrder(db: Db, home: Home, hands: seq<Hand>, drops: seq<TxId>)
    requires InOrder(db, home) && PlainHands(db, hands)
    ensures InOrder(DropAll(HandAll(db, hands), drops), home) <==>
      DropsFit(db, hands, drops) && HandsFit(db, home, hands, drops)
  {
    var e := HandAll(db, hands);
    forall x ensures LegOf(DropAll(e, drops), x) == Claim(DropAll(e, drops), home, x)
        <==> LeftFits(db, e, home, drops, x)
    {
      LeftFitsExactly(db, home, hands, drops, x);
    }
    if DropsFit(db, hands, drops) && HandsFit(db, home, hands, drops) {
      forall x ensures LeftFits(db, e, home, drops, x) { FitEach(db, home, hands, drops, x); }
    } else if forall x :: LeftFits(db, e, home, drops, x) {
      EachFit(db, home, hands, drops);
    }
  }
}
