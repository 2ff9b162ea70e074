/**
 Writes from other hands: a space that does not keep the row's books, or an edit of a minted leg.
 They keep the books in order exactly when they plan nothing a leg would notice.
 */
module LedgerHands {
  import opened Records
  import opened MirrorMint
  import opened Joined
  import opened Ledger
  import opened LedgerWrite
  import opened LedgerRuns

  // a plan that neither retires nor resizes, and mints only what already stands there
  predicate Idle(db: Db, q: Ask) {
    !q.Retiring(db) && !q.Resizing(db) && (q.Minting(db) ==> LegOn(db, q.source.id, q.next))
  }

  predicate LeavesLegs(db: Db, ref: TxRef, patch: Patch)
    requires ref.id in db.txs
  {
    (patch.link.Set? ==> Idle(db, LinkAsk(db, ref, patch))) && forall q :: q in PartAsks(db, ref, patch) ==> Idle(db, q)
  }

  /** A plan changes its leg exactly when it is not idle. */
  lemma IdleExactlyWhen(db: Db, q: Ask)
    ensures Idle(db, q) <==> q.NextLeg(db) == LegOf(db, q.source.id)
  {
  }

  lemma IdlePlan(d: Db, e: Db, q: Ask)
    requires Idle(d, q)
    ensures RunSteps(e, q.Plan(d).steps) == e
  {
  }

  lemma {:induction false} IdleAsks(d: Db, e: Db, asks: seq<Ask>)
    requires forall q :: q in asks ==> Idle(d, q)
    ensures RunAsks(d, e, asks) == e
    decreases |asks|
  {
    if asks != [] {
      IdlePlan(d, e, asks[0]);
      IdleAsks(d, e, asks[1..]);
    }
  }

  // such a write is its opinions and nothing else
  lemma OnlyOpinions(db: Db, ref: TxRef, patch: Patch)
    requires ref.id in db.txs && LeavesLegs(db, ref, patch)
    ensures Write(db, ref, patch) == PutOpinions(db, ref, Written(db, ref, patch))
  {
    var d := PutOpinions(db, ref, Written(db, ref, patch));
    if patch.link.Set? {
      IdlePlan(db, d, LinkAsk(db, ref, patch));
    }
    IdleAsks(db, d, PartAsks(db, ref, patch));
  }

  lemma SomeLegMoves(db: Db, ref: TxRef, patch: Patch) returns (x: TxId)
    requires Sees(db, ref) && PartsNamedOnce(patch) && !LeavesLegs(db, ref, patch)
    ensures Root(x) == ref.id && LegOf(Write(db, ref, patch), x) != LegOf(db, x)
  {
    if patch.link.Set? && !Idle(db, LinkAsk(db, ref, patch)) {
      x := ref.id;
      IdleExactlyWhen(db, LinkAsk(db, ref, patch));
      WriteLegs(db, ref, patch, x);
    } else {
      var q :| q in PartAsks(db, ref, patch) && !Idle(db, q);
      x := q.source.id;
      IdleExactlyWhen(db, q);
      PartAsksAre(db, ref, patch);
      WriteLegs(db, ref, patch, x);
    }
  }

  // opinions nobody keeps books by: another space's, or a leg's
  ghost predicate Aside(db: Db, home: Home, ref: TxRef) {
    Sees(db, ref) && (ref.id.Mirror? || ref.spaceId != home(ref.id))
  }

  lemma AsideSeen(d: Db, e: Db, home: Home, ref: TxRef, t: TxId)
    requires Aside(d, home, ref) && SameRows(d, e, ref) && t.Row? && t in d.txs
    ensures t in e.txs && Seen(e, home, t) == Seen(d, home, t)
  {
  }

  lemma AsideClaims(d: Db, e: Db, home: Home, ref: TxRef, x: TxId)
    requires Aside(d, home, ref) && SameRows(d, e, ref) && SameKinds(d, e)
    ensures Claim(e, home, x) == Claim(d, home, x)
  {
    SameMintable(d, e);
    if Root(x).Row? && Root(x) in d.txs {
      AsideSeen(d, e, home, ref, Root(x));
    }
  }

  lemma AsideBase(db: Db, home: Home, ref: TxRef, w: Patch, a: AccountId)
    requires Aside(db, home, ref)
    ensures Base(PutOpinions(db, ref, w), home, a) == Base(db, home, a)
  {
    var d := PutOpinions(db, ref, w);
    PutOpinionsRows(db, ref, w);
    forall y ensures Counts(d, home, y, a) == Counts(db, home, y, a) {
      if Root(y).Row? && Root(y) in db.txs {
        AsideSeen(db, d, home, ref, Root(y));
      }
    }
    assert Legs(d, home, a) == Legs(db, home, a);
  }

  /**
   Another space's write on a row whose books it does not keep leaves them in order if and only if
   every plan it makes is idle; it then moves no base either.
   */
  lemma OtherSpacesWrite(db: Db, home: Home, ref: TxRef, patch: Patch)
    requires Sees(db, ref) && ref.id.Row? && ref.spaceId != home(ref.id) && PartsNamedOnce(patch) && InOrder(db, home)
    ensures InOrder(Write(db, ref, patch), home) <==> LeavesLegs(db, ref, patch)
    ensures LeavesLegs(db, ref, patch) ==> SameBases(db, Write(db, ref, patch), home)
  {
    var e := Write(db, ref, patch);
    WriteRows(db, ref, patch);
    forall x ensures Claim(e, home, x) == Claim(db, home, x) == LegOf(db, x) {
      AsideClaims(db, e, home, ref, x);
      assert LegOf(db, x) == Claim(db, home, x);
    }
    if LeavesLegs(db, ref, patch) {
      OnlyOpinions(db, ref, patch);
      PutOpinionsRows(db, ref, Written(db, ref, patch));
      forall a ensures Base(e, home, a) == Base(db, home, a) {
        AsideBase(db, home, ref, Written(db, ref, patch), a);
      }
    } else {
      var x := SomeLegMoves(db, ref, patch);
      assert LegOf(e, x) != Claim(e, home, x);
    }
  }

  // the leg still points at its source
  predicate PeerStays(db: Db, ref: TxRef, patch: Patch)
    requires ref.id in db.txs
  {
    ref.feed || patch.peer.Keep? || patch.peer.value == db.txs[ref.id].ops.peer
  }

  /**
   An edit of a live leg leaves the books in order if and only if the leg keeps pointing at its
   source and nothing is planned for the leg itself; it then moves no base either.
   */
  lemma LegEdited(db: Db, home: Home, ref: TxRef, patch: Patch)
    requires Sees(db, ref) && ref.id.Mirror? && PartsNamedOnce(patch) && InOrder(db, home)
    ensures InOrder(Write(db, ref, patch), home) <==> LeavesLegs(db, ref, patch) && PeerStays(db, ref, patch)
    ensures LeavesLegs(db, ref, patch) ==> SameBases(db, Write(db, ref, patch), home)
  {
    var e, w := Write(db, ref, patch), Written(db, ref, patch);
    WriteRows(db, ref, patch);
    forall x ensures Claim(e, home, x) == Claim(db, home, x) == LegOf(db, x) {
      AsideClaims(db, e, home, ref, x);
      assert LegOf(db, x) == Claim(db, home, x);
    }
    if LeavesLegs(db, ref, patch) {
      OnlyOpinions(db, ref, patch);
      PutOpinionsRows(db, ref, w);
      forall a ensures Base(e, home, a) == Base(db, home, a) {
        AsideBase(db, home, ref, w, a);
      }
      assert LegOf(db, ref.id).None?;
      assert w.peer == patch.peer;
      assert LegOf(e, ref.id.source) == LegAfterEdit(db, ref, w, ref.id.source);
    } else {
      var x := SomeLegMoves(db, ref, patch);
      assert LegOf(e, x) != Claim(e, home, x);
    }
  }
}
