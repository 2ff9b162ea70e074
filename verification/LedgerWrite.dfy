/** What one write through the choke point does: to the rows, to the legs, to the bases. */
module LedgerWrite {
  import opened Records
  import opened MirrorMint
  import opened Joined
  import opened Sums
  import opened Ledger

  // ---- the opinions half ----

  // the patch that reaches the stored opinions (an overlay's first write carries the review state)
  function Stored(ref: TxRef, w: Patch): Patch {
    if ref.feed && w.needsReview.Keep? then w.(needsReview := Set(Some(ref.needsReview))) else w
  }

  // every row but `t` is the same; legs are not looked at
  ghost predicate OthersStay(d: Db, e: Db, t: TxId) {
    forall k: TxId :: k != t && !k.Mirror? ==>
      (k in e.txs) == (k in d.txs) && (k in d.txs ==> e.txs[k] == d.txs[k])
  }

  // nothing but the opinions `ref` names, and legs, may differ
  ghost predicate SameRows(d: Db, e: Db, ref: TxRef) {
    && OthersStay(d, e, ref.id)
    && ref.id in d.txs && ref.id in e.txs && e.txs[ref.id] == d.txs[ref.id].(ops := e.txs[ref.id].ops)
    && (ref.feed ==> e.txs[ref.id] == d.txs[ref.id])
    && (forall k :: k != (ref.spaceId, ref.id) || !ref.feed ==>
          (k in e.metas) == (k in d.metas) && (k in d.metas ==> e.metas[k] == d.metas[k]))
  }

  // a leg keeps its account and its money; an edit of the leg's own row may change what it points at
  function Repointed(leg: Option<Leg>, peer: Change<TxId>): Option<Leg> {
    if leg.Some? then Some(leg.value.(back := Changed(peer, leg.value.back))) else None
  }

  function LegAfterEdit(db: Db, ref: TxRef, w: Patch, x: TxId): Option<Leg> {
    if Mirror(x) == ref.id && !ref.feed then Repointed(LegOf(db, x), w.peer) else LegOf(db, x)
  }

  lemma PutOpinionsRows(db: Db, ref: TxRef, w: Patch)
    requires Sees(db, ref)
    ensures var d := PutOpinions(db, ref, w);
      && SameRows(db, d, ref) && d.accounts == db.accounts && d.txs.Keys == db.txs.Keys
      && (forall x :: Mirror(x) != ref.id ==> Unmoved(db, d, x))
      && (forall x :: LegOf(d, x) == LegAfterEdit(db, ref, w, x))
      && Merged(d, ref) == Apply(Stored(ref, w), Merged(db, ref))
      && (forall k :: k in db.txs && k != ref.id ==> d.txs[k] == db.txs[k])
  {
  }

  // a row's own leg and its parts' legs are other rows than the row itself
  lemma NotItsOwnLeg(x: TxId, p: string)
    ensures Mirror(x) != x && Mirror(PartKey(x, p)) != x
    ensures x.Mirror? ==> x.source != Mirror(x) && x.source != PartKey(x, p)
  {
    assert Mirror(x).source == x && Mirror(PartKey(x, p)).source.tx == x;
  }

  // a loanCounted that changes under a live leg changes what that leg counts for
  function CountDrift(db: Db, home: Home, ref: TxRef, counted: Change<bool>, a: AccountId): int
    requires ref.id in db.txs
  {
    if ref.id.Row? && a in db.accounts && LegOn(db, ref.id, Some(a)) then
      var o, raw, acct := Seen(db, home, ref.id), db.txs[ref.id], db.accounts[a];
      var before := Moves(acct, raw.date, o.loanCounted == Some(true));
      var after := Moves(acct, raw.date, Changed(counted, o.loanCounted) == Some(true));
      (if before then LegOf(db, ref.id).value.cents else 0) - (if after then LegOf(db, ref.id).value.cents else 0)
    else 0
  }

  lemma OtherLegsAfterOpinions(db: Db, home: Home, ref: TxRef, w: Patch, a: AccountId)
    requires Holds(db, home, ref)
    ensures Legs(db, home, a) - {Mirror(ref.id)} == Legs(PutOpinions(db, ref, w), home, a) - {Mirror(ref.id)}
  {
    var d := PutOpinions(db, ref, w);
    PutOpinionsRows(db, ref, w);
    forall y | y != ref.id ensures Counts(d, home, y, a) == Counts(db, home, y, a) {
    }
  }

  lemma PutOpinionsBase(db: Db, home: Home, ref: TxRef, w: Patch, a: AccountId)
    requires Holds(db, home, ref)
    ensures Base(PutOpinions(db, ref, w), home, a) == Base(db, home, a) + CountDrift(db, home, ref, w.loanCounted, a)
  {
    var d := PutOpinions(db, ref, w);
    var m := Mirror(ref.id);
    PutOpinionsRows(db, ref, w);
    OtherLegsAfterOpinions(db, home, ref, w, a);
    SumChange(Legs(db, home, a), Legs(d, home, a), m);
    OwnLegAfterOpinions(db, home, ref, w, a);
  }

  lemma OwnLegAfterOpinions(db: Db, home: Home, ref: TxRef, w: Patch, a: AccountId)
    requires Holds(db, home, ref)
    ensures var d, m := PutOpinions(db, ref, w), Mirror(ref.id);
      At(Legs(db, home, a), m) - At(Legs(d, home, a), m) == CountDrift(db, home, ref, w.loanCounted, a)
  {
    var d := PutOpinions(db, ref, w);
    AtLegs(db, home, ref.id, a);
    AtLegs(d, home, ref.id, a);
    OwnCentsAfterOpinions(db, home, ref, w, a);
  }

  lemma OwnCentsAfterOpinions(db: Db, home: Home, ref: TxRef, w: Patch, a: AccountId)
    requires Holds(db, home, ref)
    ensures var d, m := PutOpinions(db, ref, w), Mirror(ref.id);
      LegCents(db, home, m, a) - LegCents(d, home, m, a) == CountDrift(db, home, ref, w.loanCounted, a)
  {
    PutOpinionsRows(db, ref, w);
    NotItsOwnLeg(ref.id, "");
  }

  // ---- the whole write ----

  function RowDrift(db: Db, ref: TxRef, patch: Patch, a: AccountId): int
    requires ref.id in db.txs
  {
    if patch.link.Set? then PlanDrift(db, LinkAsk(db, ref, patch), a) else 0
  }

  function RowNextLeg(db: Db, ref: TxRef, patch: Patch): Option<Leg>
    requires ref.id in db.txs
  {
    if patch.link.Set? then LinkAsk(db, ref, patch).NextLeg(db) else LegOf(db, ref.id)
  }

  // the store between the row's plan and the parts' plans
  function AfterRow(db: Db, ref: TxRef, patch: Patch): Db
    requires ref.id in db.txs
  {
    RunSteps(PutOpinions(db, ref, Written(db, ref, patch)), RowSteps(db, ref, patch))
  }

  // a plan for row `x` run on `d` changes no row and no leg but its own
  lemma PlanKeepsRows(d: Db, f: Db, x: TxId)
    requires SameBut(d, f, Mirror(x)) && x in d.txs
    ensures forall k: TxId :: k != Mirror(x) ==> (k in f.txs) == (k in d.txs) && (k in d.txs ==> f.txs[k] == d.txs[k])
    ensures forall y :: y != x ==> LegOf(f, y) == LegOf(d, y)
  {
  }

  lemma AfterRowBooks(db: Db, ref: TxRef, patch: Patch)
    requires Sees(db, ref)
    ensures var e := AfterRow(db, ref, patch);
      && SameKinds(db, e) && SameRows(db, e, ref)
      && Merged(e, ref) == Apply(Stored(ref, Written(db, ref, patch)), Merged(db, ref))
      && LegOf(e, ref.id) == RowNextLeg(db, ref, patch)
    ensures forall x :: x != ref.id ==>
      LegOf(AfterRow(db, ref, patch), x) == LegAfterEdit(db, ref, Written(db, ref, patch), x)
  {
    var w := Written(db, ref, patch);
    var d := PutOpinions(db, ref, w);
    PutOpinionsRows(db, ref, w);
    NotItsOwnLeg(ref.id, "");
    if patch.link.Set? {
      PlanEffect(db, d, LinkAsk(db, ref, patch));
      PlanKeepsRows(d, AfterRow(db, ref, patch), ref.id);
    }
  }

  lemma AfterRowUnmoved(db: Db, ref: TxRef, patch: Patch)
    requires Sees(db, ref)
    ensures forall x :: x != ref.id && Mirror(x) != ref.id ==> Unmoved(db, AfterRow(db, ref, patch), x)
  {
    var w := Written(db, ref, patch);
    var d := PutOpinions(db, ref, w);
    PutOpinionsRows(db, ref, w);
    NotItsOwnLeg(ref.id, "");
    if patch.link.Set? {
      PlanEffect(db, d, LinkAsk(db, ref, patch));
    }
  }

  lemma AfterRowBase(db: Db, home: Home, ref: TxRef, patch: Patch, a: AccountId)
    requires Holds(db, home, ref)
    ensures Base(AfterRow(db, ref, patch), home, a)
         == Base(db, home, a) + CountDrift(db, home, ref, patch.loanCounted, a) + RowDrift(db, ref, patch, a)
  {
    var w := Written(db, ref, patch);
    var d := PutOpinions(db, ref, w);
    assert w.loanCounted == patch.loanCounted;
    PutOpinionsRows(db, ref, w);
    NotItsOwnLeg(ref.id, "");
    PutOpinionsBase(db, home, ref, w, a);
    if patch.link.Set? {
      BaseAfterPlan(db, d, home, LinkAsk(db, ref, patch), a);
    }
  }

  // a splits write names each part once
  ghost predicate PartsNamedOnce(patch: Patch) {
    NewParts(patch).Some? ==> DistinctIds(NewParts(patch).value)
  }

  lemma PartAsksAre(db: Db, ref: TxRef, patch: Patch)
    requires ref.id in db.txs && PartsNamedOnce(patch)
    ensures Distinct(PartAsks(db, ref, patch))
    ensures forall q :: q in PartAsks(db, ref, patch) ==>
      q.source.id.PartKey? && q.source.id.tx == ref.id && q.source.date == db.txs[ref.id].date && !q.source.loanCounted
  {
    if NewParts(patch).Some? {
      var raw, next, prev := db.txs[ref.id], NewParts(patch).value, PrevParts(db, ref);
      var known, order := PartMap(prev), PartIds(prev);
      var d := DiffParts(db, raw, ref.id, next, known);
      DiffShape(db, raw, ref.id, next, known);
      DiffAsks(db, raw, ref.id, next, known);
      DiffDistinct(db, raw, ref.id, next, known);
      PartIdsAre(prev);
      GoneAsksAre(raw, ref.id, order, d.rest);
      var gone := GoneAsks(raw, ref.id, order, d.rest);
      forall q, r | q in d.asks && r in gone ensures q.source.id != r.source.id {
        var i :| FromPart(raw, ref.id, next, known, q, i);
        assert next[i].id.value in IdsOf(next);
      }
      DistinctConcat(d.asks, gone);
    }
  }

  // the parts' plans find their accounts and legs as planned
  lemma PartsReady(db: Db, ref: TxRef, patch: Patch)
    requires Sees(db, ref) && PartsNamedOnce(patch)
    ensures var e, asks := AfterRow(db, ref, patch), PartAsks(db, ref, patch);
      Distinct(asks) && PartsOf(e, asks, ref.id) && AllUnmoved(db, e, asks)
  {
    AfterRowBooks(db, ref, patch);
    AfterRowUnmoved(db, ref, patch);
    PartAsksAre(db, ref, patch);
    forall q | q in PartAsks(db, ref, patch) ensures Unmoved(db, AfterRow(db, ref, patch), q.source.id) {
      NotItsOwnLeg(ref.id, q.source.id.part);
    }
  }

  /** The exact effect of any write on any base, with no assumption on the state of the books:
      the sum of what a changed loanCounted, the row's plan and each part's plan drift. */
  lemma WriteDrift(db: Db, home: Home, ref: TxRef, patch: Patch, a: AccountId)
    requires Holds(db, home, ref) && PartsNamedOnce(patch)
    ensures Base(Write(db, ref, patch), home, a)
         == Base(db, home, a) + CountDrift(db, home, ref, patch.loanCounted, a) + RowDrift(db, ref, patch, a)
          + PlansDrift(db, PartAsks(db, ref, patch), a)
  {
    AfterRowBase(db, home, ref, patch, a);
    PartsReady(db, ref, patch);
    RunAsksEffect(db, AfterRow(db, ref, patch), home, ref.id, PartAsks(db, ref, patch), a);
  }

  // the parts' plans leave every row that is no leg of theirs alone
  lemma AsksRows(d: Db, e: Db, f: Db, ref: TxRef, asks: seq<Ask>)
    requires AsksDone(d, e, f, asks) && ref.id in e.txs
    requires forall q :: q in asks ==> Mirror(q.source.id) != ref.id
    ensures ref.id in f.txs && f.txs[ref.id] == e.txs[ref.id] && Merged(f, ref) == Merged(e, ref)
    ensures forall k: TxId :: !k.Mirror? ==> (k in f.txs) == (k in e.txs) && (k in e.txs ==> f.txs[k] == e.txs[k])
  {
  }

  lemma AsksLegs(d: Db, e: Db, f: Db, asks: seq<Ask>, x: TxId)
    requires AsksDone(d, e, f, asks) && forall q :: q in asks ==> q.source.id != x
    ensures LegOf(f, x) == LegOf(e, x)
  {
    assert forall q :: q in asks ==> Mirror(x) != Mirror(q.source.id);
  }

  /** Rows and overlays after a write: the written opinions, and nothing else but legs. */
  lemma WriteRows(db: Db, ref: TxRef, patch: Patch)
    requires Sees(db, ref) && PartsNamedOnce(patch)
    ensures var e := Write(db, ref, patch);
      && SameKinds(db, e) && SameRows(db, e, ref)
      && Merged(e, ref) == Apply(Stored(ref, Written(db, ref, patch)), Merged(db, ref))
  {
    var e, asks := AfterRow(db, ref, patch), PartAsks(db, ref, patch);
    AfterRowBooks(db, ref, patch);
    PartsReady(db, ref, patch);
    RunAsksDone(db, e, ref.id, asks);
    forall q | q in asks ensures Mirror(q.source.id) != ref.id {
      NotItsOwnLeg(ref.id, q.source.id.part);
    }
    AsksRows(db, e, Write(db, ref, patch), ref, asks);
  }

  /** Legs after a write: the row's and its parts' as planned, a leg that was itself edited as
      written, every other one as it was. */
  lemma WriteLegs(db: Db, ref: TxRef, patch: Patch, x: TxId)
    requires Sees(db, ref) && PartsNamedOnce(patch)
    ensures x == ref.id ==> LegOf(Write(db, ref, patch), x) == RowNextLeg(db, ref, patch)
    ensures forall q :: q in PartAsks(db, ref, patch) && q.source.id == x ==>
      LegOf(Write(db, ref, patch), x) == q.NextLeg(db)
    ensures x != ref.id && (forall q :: q in PartAsks(db, ref, patch) ==> q.source.id != x) ==>
      LegOf(Write(db, ref, patch), x) == LegAfterEdit(db, ref, Written(db, ref, patch), x)
  {
    var e, asks := AfterRow(db, ref, patch), PartAsks(db, ref, patch);
    AfterRowBooks(db, ref, patch);
    PartsReady(db, ref, patch);
    RunAsksDone(db, e, ref.id, asks);
    if forall q :: q in asks ==> q.source.id != x {
      AsksLegs(db, e, Write(db, ref, patch), asks, x);
    }
  }
}
