/**
 What the heal makes of a row, told from its fields: bare movements find an account of the kind
 their category is about, or go back to review, and nothing else changes.
 */
module BootHealFacts {
  import opened Records
  import opened MirrorMint
  import opened Joined
  import opened Ledger
  import opened BootHeal
  import opened BootHealPass
  import LedgerFacts

  // a movement that names neither an account nor a peer
  predicate Bare(c: Option<Cat>, link: Option<AccountId>, peer: Option<TxId>) {
    c.Some? && !c.value.Uncategorized? && !c.value.Plain? && link.None? && peer.None?
  }

  predicate Transfers(c: Cat) { c.TransferOut? || c.TransferIn? }

  // the space's default account for a movement that is no plain transfer, by its id
  function PotOf(space: SpaceId, c: Cat): AccountId {
    var name :=
      if c.SavingDeposit? || c.SavingWithdraw? then "saving"
      else if c.LoanRepayment? || c.DebtBorrowed? then "debtPayment"
      else if c.InvestContribution? || c.InvestWithdraw? then "investment"
      else if c.CashWithdraw? || c.CashDeposit? then "cash"
      else "funding";
    "defaultacct_" + name + "_" + space
  }

  // it is there, live, and of the kind the movement is about (a debt is a loan)
  predicate HasPot(e: Db, space: SpaceId, c: Cat) {
    var id := PotOf(space, c);
    id in e.accounts && !e.accounts[id].deleted && MovesWith(c, e.accounts[id].kind) && !e.accounts[id].kind.Mortgage?
  }

  /** What becomes of a bare movement `c`: a plain transfer takes the account its text names and that
      account's category, signed as the row is, or stands down with the link it had; any other movement
      keeps its category and finds its space's default account, live and of the kind it is about. */
  predicate Homed(e: Db, space: SpaceId, c: Cat, now: Cat, had: Option<AccountId>, link: Option<AccountId>,
                  found: Option<(AccountId, AccountType)>, amountCents: int)
  {
    if Transfers(c) then
      if found.Some? then
        link == Some(found.value.0) && MovesWith(now, found.value.1) && (PaysInto(now) <==> amountCents < 0)
      else link == had && now.Uncategorized?
    else
      now == c && link == Some(PotOf(space, c)) && HasPot(e, space, c)
  }

  predicate PartFollows(e: Db, space: SpaceId, was: Part, now: Part, found: Option<(AccountId, AccountType)>,
                        amountCents: int)
  {
    now.id == was.id && now.amountCents == was.amountCents &&
    if Bare(Some(was.catId), was.link, was.peer) then
      Homed(e, space, was.catId, now.catId, None, now.link, found, amountCents)
    else now.catId == was.catId && now.link == was.link
  }

  // the accounts a heal prepares are there, live and of their family's type
  predicate HasDefault(db: Db, space: SpaceId, c: Cat) {
    DefaultFamilyFor(c).Some? && var id := DefaultAccountId(space, DefaultFamilyFor(c).value);
    id in db.accounts && !db.accounts[id].deleted &&
    db.accounts[id].kind == FamilyAccountType(DefaultFamilyFor(c).value)
  }

  lemma EnsuredHas(db: Db, space: SpaceId, c: Cat)
    requires DefaultsTyped(db.accounts) && DefaultFamilyFor(c).Some?
    ensures HasDefault(EnsureDefault(db, space, DefaultFamilyFor(c).value), space, c)
  {
  }

  lemma EnsuredKeeps(db: Db, space: SpaceId, f: DefaultFamily, c: Cat)
    requires HasDefault(db, space, c)
    ensures HasDefault(EnsureDefault(db, space, f), space, c)
  {
  }

  lemma {:induction false} EnsuredForHas(db: Db, space: SpaceId, parts: seq<Part>, p: Part)
    requires DefaultsTyped(db.accounts) && p in parts && Bare(Some(p.catId), p.link, p.peer) && !Transfers(p.catId)
    ensures HasDefault(EnsuredFor(db, space, parts), space, p.catId)
  {
    var last, rest := parts[|parts| - 1], parts[..|parts| - 1];
    EnsuredForIsTame(db, space, rest);
    assert parts == rest + [last];
    if p in rest {
      EnsuredForHas(db, space, rest, p);
      if BarePart(last) && DefaultFamilyFor(last.catId) != Some(TransferPot) {
        EnsuredKeeps(EnsuredFor(db, space, rest), space, DefaultFamilyFor(last.catId).value, p.catId);
      }
    } else {
      EnsuredHas(EnsuredFor(db, space, rest), space, p.catId);
    }
  }

  // a default account is of the kind its category is about
  lemma DefaultSuits(db: Db, space: SpaceId, c: Cat)
    requires HasDefault(db, space, c) && !Transfers(c)
    ensures DefaultAccountId(space, DefaultFamilyFor(c).value) == PotOf(space, c) && HasPot(db, space, c)
  {
  }

  lemma MovementIs(kind: AccountType, amountCents: int)
    ensures MovesWith(MovementCatFor(kind, amountCents), kind)
    ensures PaysInto(MovementCatFor(kind, amountCents)) <==> amountCents < 0
  {
  }

  lemma FoldedPartFollows(db: Db, d: Db, space: SpaceId, parts: seq<Part>, i: int,
                          found: Option<(AccountId, AccountType)>, amountCents: int)
    requires DefaultsTyped(db.accounts) && d == EnsuredFor(db, space, parts) && 0 <= i < |parts|
    ensures PartFollows(d, space, parts[i], FoldedPart(parts[i], space, found, amountCents), found, amountCents)
  {
    var p := parts[i];
    if Bare(Some(p.catId), p.link, p.peer) {
      if found.Some? { MovementIs(found.value.1, amountCents); }
      if !Transfers(p.catId) {
        EnsuredForHas(db, space, parts, p);
        DefaultSuits(d, space, p.catId);
      }
    }
  }

  // a container is judged part by part, any other row as a whole
  predicate Follows(e: Db, ref: TxRef, o: Opinions, m: Opinions, now: Opinions,
                    found: Option<(AccountId, AccountType)>, amountCents: int)
  {
    var parts := if o.splits.Some? then o.splits.value else [];
    if |parts| > 1 then PartsFollow(e, ref.spaceId, parts, m, now, found, amountCents)
    else o.catId.Some? && RowFollows(e, ref, o.catId.value, m, now, found, amountCents)
  }

  // the parts as said, and nothing else but the review flag
  predicate PartsFollow(e: Db, space: SpaceId, parts: seq<Part>, m: Opinions, now: Opinions,
                        found: Option<(AccountId, AccountType)>, amountCents: int)
  {
    && now.splits.Some? && |now.splits.value| == |parts|
    && (forall i :: 0 <= i < |parts| ==> PartFollows(e, space, parts[i], now.splits.value[i], found, amountCents))
    && now == m.(splits := now.splits, needsReview := now.needsReview)
  }

  // the row as said, its peer at most its own leg, and nothing else but the review flag
  predicate RowFollows(e: Db, ref: TxRef, c: Cat, m: Opinions, now: Opinions,
                       found: Option<(AccountId, AccountType)>, amountCents: int)
  {
    && Homed(e, ref.spaceId, c, if now.catId.Some? then now.catId.value else c, m.link, now.link, found, amountCents)
    && (Transfers(c) || now.catId == m.catId) && (now.peer == m.peer || now.peer == Some(Mirror(ref.id)))
    && now == m.(catId := now.catId, link := now.link, peer := now.peer, needsReview := now.needsReview)
  }

  // a bare transfer whose text names no account asks for a review
  predicate AsksReview(o: Opinions, found: Option<(AccountId, AccountType)>) {
    var parts := if o.splits.Some? then o.splits.value else [];
    found.None? &&
    if |parts| > 1 then
      exists p :: p in parts && Bare(Some(p.catId), p.link, p.peer) && Transfers(p.catId)
    else o.catId.Some? && Transfers(o.catId.value)
  }

  // ---- one write ----

  // the account half of a settled default, as the write finds it
  lemma RowPrepared(db: Db, o: Opinions, space: SpaceId)
    requires DefaultsTyped(db.accounts) && Unsettled(o) && |PartsIn(o)| <= 1 && !Transfers(o.catId.value)
    ensures HasDefault(Prepared(db, o, space), space, o.catId.value)
  {
    EnsuredHas(db, space, o.catId.value);
  }

  lemma RowWriteFollows(db: Db, ref: TxRef, o: Opinions, found: Option<(AccountId, AccountType)>, amountCents: int)
    requires ref.id in db.txs && DefaultsTyped(db.accounts) && Unsettled(o) && |PartsIn(o)| <= 1
    requires Merged(db, ref).catId == None || Merged(db, ref).catId == o.catId
    requires |PartsIn(Merged(db, ref))| <= 1 && (Merged(db, ref).link.None? || LegShaped(ref.id, Merged(db, ref)))
    ensures var d := Prepared(db, o, ref.spaceId);
      && ref.id in d.txs && Merged(d, ref) == Merged(db, ref)
      && Follows(d, ref, o, Merged(db, ref),
                 Apply(Written(d, ref, HealPatch(o, ref.spaceId, found, amountCents)), Merged(db, ref)),
                 found, amountCents)
  {
    var c := o.catId.value;
    PreparedIsTame(db, o, ref.spaceId);
    if Transfers(c) {
      if found.Some? { MovementIs(found.value.1, amountCents); }
    } else {
      RowPrepared(db, o, ref.spaceId);
      DefaultSuits(Prepared(db, o, ref.spaceId), ref.spaceId, c);
    }
  }

  lemma ContainerWriteFollows(db: Db, ref: TxRef, o: Opinions, found: Option<(AccountId, AccountType)>,
                              amountCents: int)
    requires ref.id in db.txs && DefaultsTyped(db.accounts) && Unsettled(o) && |PartsIn(o)| > 1
    requires DistinctIds(PartsIn(o))
    ensures var d := Prepared(db, o, ref.spaceId);
      && ref.id in d.txs && Merged(d, ref) == Merged(db, ref)
      && Follows(d, ref, o, Merged(db, ref),
                 Apply(Written(d, ref, HealPatch(o, ref.spaceId, found, amountCents)), Merged(db, ref)),
                 found, amountCents)
  {
    var d, parts := Prepared(db, o, ref.spaceId), PartsIn(o);
    PreparedIsTame(db, o, ref.spaceId);
    var next := FoldedParts(parts, ref.spaceId, found, amountCents);
    FoldedPartsFold(parts, ref.spaceId, found, amountCents);
    FoldedIds(parts, next);
    var raw, known := d.txs[ref.id], PartMap(PrevParts(d, ref));
    DiffShape(d, raw, ref.id, next, known);
    forall i | 0 <= i < |parts|
      ensures PartFollows(d, ref.spaceId, parts[i], SplitsDiff(d, ref, next).adjusted[i], found, amountCents)
    {
      FoldedPartFollows(db, d, ref.spaceId, parts, i, found, amountCents);
      assert SplitsDiff(d, ref, next).adjusted[i] == AdjustedAt(d, raw, ref.id, next, known, i);
    }
  }

  // accounts that are live stay live, of the same kind
  ghost predicate AccountsLast(d: Db, e: Db) {
    forall a :: a in d.accounts && !d.accounts[a].deleted ==>
      a in e.accounts && !e.accounts[a].deleted && e.accounts[a].kind == d.accounts[a].kind
  }

  lemma FollowsLasts(d: Db, e: Db, ref: TxRef, o: Opinions, m: Opinions, now: Opinions, later: Opinions,
                     found: Option<(AccountId, AccountType)>, amountCents: int)
    requires Follows(d, ref, o, m, now, found, amountCents) && AccountsLast(d, e)
    requires later == now.(needsReview := later.needsReview)
    ensures Follows(e, ref, o, m, later, found, amountCents)
  {
    var parts := if o.splits.Some? then o.splits.value else [];
    if |parts| > 1 {
      forall i | 0 <= i < |parts|
        ensures PartFollows(e, ref.spaceId, parts[i], later.splits.value[i], found, amountCents)
      {
        assert PartFollows(d, ref.spaceId, parts[i], now.splits.value[i], found, amountCents);
      }
    }
  }

  lemma ReviewWritten(db: Db, ref: TxRef, o: Opinions, found: Option<(AccountId, AccountType)>, amountCents: int)
    requires ref.id in db.txs && Unsettled(o)
    ensures var w := Written(db, ref, HealPatch(o, ref.spaceId, found, amountCents));
      w.needsReview == if AsksReview(o, found) then Set(Some(true)) else Keep
  {
  }

  // what the write stores is what follows, on the row or on the overlay
  lemma StoredAfter(d: Db, e: Db, ref: TxRef, w: Patch)
    requires ref.id in d.txs && OnlyMinted(PutOpinions(d, ref, w), e, ref.id)
    ensures ref.id in e.txs && AccountsLast(d, e)
    ensures var after := Apply(w, Merged(d, ref));
      Merged(e, ref) == after.(needsReview :=
        if w.needsReview.Keep? && ref.feed then Some(ref.needsReview) else after.needsReview)
  {
    NotItsOwnLeg(ref.id);
  }

  lemma WriteFollows(db: Db, ref: TxRef, o: Opinions, found: Option<(AccountId, AccountType)>, amountCents: int)
    requires ref.id in db.txs && DefaultsTyped(db.accounts) && Unsettled(o) && StillFits(db, ref, o)
    requires Merged(db, ref).catId == None || Merged(db, ref).catId == o.catId
    ensures var d := Prepared(db, o, ref.spaceId);
      && ref.id in d.txs && Merged(d, ref) == Merged(db, ref)
      && Follows(d, ref, o, Merged(db, ref),
                 Apply(Written(d, ref, HealPatch(o, ref.spaceId, found, amountCents)), Merged(db, ref)),
                 found, amountCents)
  {
    if |PartsIn(o)| > 1 {
      ContainerWriteFollows(db, ref, o, found, amountCents);
    } else {
      RowWriteFollows(db, ref, o, found, amountCents);
    }
  }

  /** One heal write: a bare row, or each bare part of a container, finds an account of the kind its
      category is about; a bare transfer takes the account its text names or goes back to review; the
      other fields, and the review flag otherwise, stay. */
  lemma HealedFollows(db: Db, ref: TxRef, o: Opinions, clue: Clue, amountCents: int)
    requires ref.id in db.txs && DefaultsTyped(db.accounts) && Unsettled(o) && StillFits(db, ref, o)
    requires Merged(db, ref).catId == None || Merged(db, ref).catId == o.catId
    ensures var e, found := Healed(db, ref, o, clue, amountCents), clue(ref.id, ref.spaceId);
      && ref.id in e.txs && Follows(e, ref, o, Merged(db, ref), Merged(e, ref), found, amountCents)
      && Merged(e, ref).needsReview ==
           if AsksReview(o, found) then Some(true)
           else if ref.feed then Some(ref.needsReview) else Merged(db, ref).needsReview
  {
    var d, found, e := Prepared(db, o, ref.spaceId), clue(ref.id, ref.spaceId), Healed(db, ref, o, clue, amountCents);
    HealWrite(db, ref, o, clue, amountCents);
    WriteFollows(db, ref, o, found, amountCents);
    var w := Written(d, ref, HealPatch(o, ref.spaceId, found, amountCents));
    ReviewWritten(d, ref, o, found, amountCents);
    StoredAfter(d, e, ref, w);
    FollowsLasts(d, e, ref, o, Merged(db, ref), Apply(w, Merged(db, ref)), Merged(e, ref), found, amountCents);
  }

  // a default account that is not there starts out manual, with nothing on it
  lemma FreshPot(db: Db, o: Opinions, space: SpaceId)
    requires DefaultsTyped(db.accounts) && Unsettled(o) && |PartsIn(o)| <= 1 && !Transfers(o.catId.value)
    ensures var d, id := Prepared(db, o, space), PotOf(space, o.catId.value);
      && d.txs == db.txs && d.metas == db.metas && HasPot(d, space, o.catId.value)
      && (d.accounts[id].kind.Funding? <==> o.catId.value.FundingOut? || o.catId.value.FundingIn?)
      && (id in db.accounts && !db.accounts[id].deleted ==> d == db)
      && (id !in db.accounts ==>
            d.accounts == db.accounts[id := Account(space, d.accounts[id].kind, true, 0, None, false)])
  {
    RowPrepared(db, o, space);
    DefaultSuits(Prepared(db, o, space), space, o.catId.value);
  }

  /** The leg of a healed row: on the default account, if that is a manual one and no funding pot, with
      minus the row's money; a default that was not there ends up with just that money. */
  lemma HealedRowMints(db: Db, ref: TxRef, o: Opinions, clue: Clue, amountCents: int)
    requires Sees(db, ref) && DefaultsTyped(db.accounts) && |PartsIn(o)| <= 1
    requires Bare(o.catId, o.link, o.peer) && !Transfers(o.catId.value)
    requires Merged(db, ref).link.None? && Merged(db, ref).peer.None? && LegOf(db, ref.id).None?
    ensures var e, id, cents := Healed(db, ref, o, clue, amountCents), PotOf(ref.spaceId, o.catId.value),
                                -db.txs[ref.id].amountCents;
      !o.catId.value.FundingOut? && !o.catId.value.FundingIn? ==>
        && id in e.accounts && (e.accounts[id].manual ==> LegOf(e, ref.id) == Some(Leg(id, cents, Some(ref.id))))
        && (id !in db.accounts ==> e.accounts[id].manual && e.accounts[id].balanceCents == cents)
  {
    var d, id := Prepared(db, o, ref.spaceId), PotOf(ref.spaceId, o.catId.value);
    var patch := HealPatch(o, ref.spaceId, clue(ref.id, ref.spaceId), amountCents);
    FreshPot(db, o, ref.spaceId);
    DefaultSuits(d, ref.spaceId, o.catId.value);
    if !d.accounts[id].kind.Funding? && d.accounts[id].manual {
      LedgerFacts.FreshLinkMints(d, ref, patch, id);
    } else {
      LedgerFacts.WriteSpares(d, ref, patch, id);
    }
  }

  // ---- a whole pass ----

  // rows that are no legs stay as they are, and live accounts stay
  ghost predicate KeepsBut(d: Db, e: Db, t: Option<TxId>) {
    AccountsLast(d, e) &&
    forall k: TxId :: !k.Mirror? && k in d.txs && t != Some(k) ==> k in e.txs && e.txs[k] == d.txs[k]
  }

  lemma KeepsTwice(d: Db, e: Db, f: Db, t: Option<TxId>)
    requires KeepsBut(d, e, t) && KeepsBut(e, f, t)
    ensures KeepsBut(d, f, t)
  {
  }

  lemma StepKeepsRows(db: Db, step: Step)
    ensures KeepsBut(db, RunStep(db, step), None)
  {
    RowHalfEffect(db, step);
  }

  lemma {:induction false} StepsKeepRows(db: Db, steps: seq<Step>)
    ensures KeepsBut(db, RunSteps(db, steps), None)
    decreases |steps|
  {
    if steps != [] {
      StepKeepsRows(db, steps[0]);
      StepsKeepRows(RunStep(db, steps[0]), steps[1..]);
      KeepsTwice(db, RunStep(db, steps[0]), RunSteps(db, steps), None);
    }
  }

  lemma {:induction false} AsksKeepRows(d: Db, e: Db, asks: seq<Ask>)
    ensures KeepsBut(e, RunAsks(d, e, asks), None)
    decreases |asks|
  {
    if asks != [] {
      var f := RunSteps(e, asks[0].Plan(d).steps);
      StepsKeepRows(e, asks[0].Plan(d).steps);
      AsksKeepRows(d, f, asks[1..]);
      KeepsTwice(e, f, RunAsks(d, e, asks), None);
    }
  }

  lemma {:induction false} EnsuredForLasts(db: Db, space: SpaceId, parts: seq<Part>)
    ensures AccountsLast(db, EnsuredFor(db, space, parts))
  {
    if parts != [] { EnsuredForLasts(db, space, parts[..|parts| - 1]); }
  }

  // a heal of one row leaves the others
  lemma HealedKeepsRows(db: Db, ref: TxRef, o: Opinions, clue: Clue, amountCents: int)
    requires ref.id in db.txs && Unsettled(o)
    ensures KeepsBut(db, Healed(db, ref, o, clue, amountCents), if ref.feed then None else Some(ref.id))
  {
    var t := if ref.feed then None else Some(ref.id);
    var d, patch := Prepared(db, o, ref.spaceId), HealPatch(o, ref.spaceId, clue(ref.id, ref.spaceId), amountCents);
    EnsuredForKeeps(db, ref.spaceId, PartsIn(o));
    EnsuredForLasts(db, ref.spaceId, PartsIn(o));
    var p := PutOpinions(d, ref, Written(d, ref, patch));
    assert KeepsBut(db, p, t);
    var f, e := RunSteps(p, RowSteps(d, ref, patch)), Healed(db, ref, o, clue, amountCents);
    StepsKeepRows(p, RowSteps(d, ref, patch));
    AsksKeepRows(d, f, PartAsks(d, ref, patch));
    KeepsTwice(p, f, e, None);
    assert KeepsBut(p, e, t);
    KeepsTwice(db, p, e, t);
  }

  // the row, or one of the parts of a container
  predicate BareIn(o: Opinions) {
    var parts := if o.splits.Some? then o.splits.value else [];
    if |parts| > 1 then exists p :: p in parts && Bare(Some(p.catId), p.link, p.peer)
    else Bare(o.catId, o.link, o.peer)
  }

  predicate OnPot(db: Db, id: AccountId) { id in db.accounts && IsPot(db.accounts[id].kind) }

  // a live local row that is on no pot of its own and has a bare movement: the row, or a part of it
  ghost predicate NeedsHeal(start: Db, feeds: set<SpaceId>, k: TxId)
    requires k in start.txs
  {
    var row := start.txs[k];
    !row.deleted && row.spaceId !in feeds && !OnPot(start, row.accountId) && BareIn(row.ops)
  }

  // `k` stands in `e` as one heal of it leaves it
  ghost predicate HealedIn(start: Db, e: Db, clue: Clue, k: TxId)
    requires k in start.txs
  {
    var row, found := start.txs[k], clue(k, start.txs[k].spaceId);
    && k in e.txs && e.txs[k] == row.(ops := e.txs[k].ops)
    && Follows(e, OwnRef(k, row), row.ops, row.ops, e.txs[k].ops, found, row.amountCents)
    && e.txs[k].ops.needsReview == if AsksReview(row.ops, found) then Some(true) else row.ops.needsReview
  }

  lemma StaysHealed(start: Db, d: Db, e: Db, clue: Clue, k: TxId, t: Option<TxId>)
    requires k.Row? && k in start.txs && HealedIn(start, d, clue, k) && KeepsBut(d, e, t) && t != Some(k)
    ensures HealedIn(start, e, clue, k)
  {
    var row := start.txs[k];
    FollowsLasts(d, e, OwnRef(k, row), row.ops, row.ops, d.txs[k].ops, e.txs[k].ops, clue(k, row.spaceId),
                 row.amountCents);
  }

  lemma RowStepKeepsRows(h: Healing, start: Db, clue: Clue, j: TxId)
    ensures KeepsBut(h.db, RowStep(h, start, clue, j).db, Some(j))
  {
    if j in start.txs && j in h.db.txs && Unsettled(start.txs[j].ops) {
      HealedKeepsRows(h.db, OwnRef(j, start.txs[j]), start.txs[j].ops, clue, start.txs[j].amountCents);
    }
  }

  lemma MetaStepKeepsRows(h: Healing, start: Db, clue: Clue, key: (SpaceId, TxId))
    ensures KeepsBut(h.db, MetaStep(h, start, clue, key).db, None)
  {
    if key in start.metas && Live(h.db, key.1) {
      var raw := h.db.txs[key.1];
      var o := Fallback(start.metas[key].ops, raw.ops);
      if Unsettled(o) { HealedKeepsRows(h.db, JoinedRef(key, o), o, clue, raw.amountCents); }
    }
  }

  lemma {:induction false} MetaPassKeepsRows(h: Healing, start: Db, clue: Clue, order: seq<(SpaceId, TxId)>)
    ensures KeepsBut(h.db, MetaPass(h, start, clue, order).db, None)
  {
    if order != [] {
      var g := MetaPass(h, start, clue, order[..|order| - 1]);
      MetaPassKeepsRows(h, start, clue, order[..|order| - 1]);
      MetaStepKeepsRows(g, start, clue, order[|order| - 1]);
      KeepsTwice(h.db, g.db, MetaPass(h, start, clue, order).db, None);
    }
  }

  // `k` as it stands when the visits so far did or did not include it
  ghost predicate StandsIn(start: Db, feeds: set<SpaceId>, e: Db, clue: Clue, k: TxId, visited: bool)
    requires k in start.txs
  {
    k in e.txs && if visited && NeedsHeal(start, feeds, k) then HealedIn(start, e, clue, k)
                  else e.txs[k] == start.txs[k]
  }

  // the visit of a row nothing has changed since it was read
  lemma VisitHeals(start: Db, feeds: set<SpaceId>, h: Healing, clue: Clue, k: TxId)
    requires Sound(start) && DefaultsTyped(h.db.accounts) && k in RowsToVisit(start, feeds)
    requires k.Row? && k in h.db.txs && h.db.txs[k] == start.txs[k]
    ensures StandsIn(start, feeds, RowStep(h, start, clue, k).db, clue, k, true)
  {
    NeedsAre(start, feeds, k);
    if NeedsHeal(start, feeds, k) { HealedVisit(start, h, clue, k); }
  }

  lemma NeedsAre(start: Db, feeds: set<SpaceId>, k: TxId)
    requires k in start.txs
    ensures NeedsHeal(start, feeds, k) <==>
      !start.txs[k].deleted && start.txs[k].spaceId !in feeds && !Stamped(start.accounts, start.txs[k].accountId) &&
      Unsettled(start.txs[k].ops)
  {
    assert forall p: Part :: Bare(Some(p.catId), p.link, p.peer) == BarePart(p);
  }

  lemma HealedVisit(start: Db, h: Healing, clue: Clue, k: TxId)
    requires Sound(start) && DefaultsTyped(h.db.accounts) && k.Row? && Live(start, k)
    requires k in h.db.txs && h.db.txs[k] == start.txs[k]
    requires Unsettled(start.txs[k].ops) && !Stamped(start.accounts, start.txs[k].accountId)
    ensures HealedIn(start, RowStep(h, start, clue, k).db, clue, k)
  {
    var row := start.txs[k];
    var ref := OwnRef(k, row);
    assert StillFits(h.db, ref, row.ops);
    HealedFollows(h.db, ref, row.ops, clue, row.amountCents);
    OwnRowKept(h.db, ref, row.ops, clue, row.amountCents);
  }

  // a heal changes the opinions of its row alone
  lemma OwnRowKept(db: Db, ref: TxRef, o: Opinions, clue: Clue, amountCents: int)
    requires ref.id.Row? && !ref.feed && Live(db, ref.id) && db.txs[ref.id].spaceId == ref.spaceId
    requires DefaultsTyped(db.accounts) && Unsettled(o) && StillFits(db, ref, o)
    ensures var e := Healed(db, ref, o, clue, amountCents);
      ref.id in e.txs && e.txs[ref.id] == db.txs[ref.id].(ops := e.txs[ref.id].ops)
  {
    HealWrite(db, ref, o, clue, amountCents);
  }

  lemma OtherVisit(start: Db, feeds: set<SpaceId>, h: Healing, clue: Clue, j: TxId, k: TxId, visited: bool)
    requires k.Row? && k in start.txs && j != k && StandsIn(start, feeds, h.db, clue, k, visited)
    ensures StandsIn(start, feeds, RowStep(h, start, clue, j).db, clue, k, visited)
  {
    RowStepKeepsRows(h, start, clue, j);
    if visited && NeedsHeal(start, feeds, k) {
      StaysHealed(start, h.db, RowStep(h, start, clue, j).db, clue, k, Some(j));
    }
  }

  lemma {:induction false} RowPassHeals(start: Db, feeds: set<SpaceId>, clue: Clue, order: seq<TxId>, n: nat, k: TxId)
    requires Sound(start) && Visits(order, RowsToVisit(start, feeds)) && n <= |order| && k.Row? && k in start.txs
    ensures StandsIn(start, feeds, RowPass(start, clue, order[..n]).db, clue, k, k in order[..n])
  {
    if n > 0 {
      var j, h := order[n - 1], RowPass(start, clue, order[..n - 1]);
      RowPassHeals(start, feeds, clue, order, n - 1, k);
      assert order[..n] == order[..n - 1] + [j] && order[..n][..n - 1] == order[..n - 1];
      if j == k {
        RowPassSound(start, feeds, clue, order, n - 1);
        NextOf(order, n - 1, RowsToVisit(start, feeds));
        VisitHeals(start, feeds, h, clue, k);
      } else {
        OtherVisit(start, feeds, h, clue, j, k, k in order[..n - 1]);
      }
    }
  }

  lemma RowPassSound(start: Db, feeds: set<SpaceId>, clue: Clue, order: seq<TxId>, n: nat)
    requires Sound(start) && Visits(order, RowsToVisit(start, feeds)) && n <= |order|
    ensures DefaultsTyped(RowPass(start, clue, order[..n]).db.accounts)
  {
    RowPassAt(start, feeds, clue, order, n);
  }

  /** A whole pass, on any row the bank or a person entered: if it is live, local, on no pot of its own,
      and it or one of its parts is a bare movement, every such movement ends as told above; any other
      row ends just as it was. */
  lemma PassFollows(start: Db, feeds: set<SpaceId>, clue: Clue, rows: seq<TxId>, overlays: seq<(SpaceId, TxId)>,
                    k: TxId)
    requires Sound(start) && Orders(start, feeds, rows, overlays) && k.Row? && k in start.txs
    ensures var e := Pass(start, clue, rows, overlays).db;
      k in e.txs && if NeedsHeal(start, feeds, k) then HealedIn(start, e, clue, k) else e.txs[k] == start.txs[k]
  {
    var h := RowPass(start, clue, rows);
    RowPassHeals(start, feeds, clue, rows, |rows|, k);
    assert rows[..|rows|] == rows;
    MetaPassKeepsRows(h, start, clue, overlays);
    if NeedsHeal(start, feeds, k) {
      assert k in RowsToVisit(start, feeds);
      StaysHealed(start, h.db, Pass(start, clue, rows, overlays).db, clue, k, None);
    }
  }

  // ---- the overlays of a pass ----

  // a row as a space's overlay decides it: the overlay's word, or else the row's own
  function Said<T>(overlay: Option<T>, row: Option<T>): Option<T> { if overlay.None? then row else overlay }

  function Decided(m: Opinions, raw: Opinions): Opinions {
    raw.(catId := Said(m.catId, raw.catId), splits := Said(m.splits, raw.splits),
         link := Said(m.link, raw.link), peer := Said(m.peer, raw.peer),
         needsReview := Said(m.needsReview, raw.needsReview))
  }

  // some bare movement in the overlay itself: what puts it up for a visit
  predicate Shows(m: Opinions) {
    Bare(m.catId, m.link, m.peer) ||
    (m.splits.Some? && exists p :: p in m.splits.value && Bare(Some(p.catId), p.link, p.peer))
  }

  // a live overlay with a bare movement, on a live row that is on no pot and, so decided, has one too
  ghost predicate OverlayNeedsHeal(start: Db, e: Db, key: (SpaceId, TxId))
    requires key in start.metas
  {
    && !start.metas[key].deleted && Shows(start.metas[key].ops) && Live(e, key.1)
    && !OnPot(start, e.txs[key.1].accountId) && BareIn(Decided(start.metas[key].ops, e.txs[key.1].ops))
  }

  // the overlay in `e` as one heal of it leaves it
  ghost predicate OverlayHealedIn(start: Db, e: Db, clue: Clue, key: (SpaceId, TxId))
    requires key in start.metas
  {
    && key.1 in e.txs && key in e.metas && !e.metas[key].deleted
    && var raw, m, now, found := e.txs[key.1], start.metas[key].ops, e.metas[key].ops, clue(key.1, key.0);
       var o := Decided(m, raw.ops);
       && Follows(e, TxRef(key.1, key.0, true, o.needsReview == Some(true)), o, m, now, found, raw.amountCents)
       && now.needsReview == Some(AsksReview(o, found) || o.needsReview == Some(true))
  }

  ghost predicate OverlayStandsIn(start: Db, e: Db, clue: Clue, key: (SpaceId, TxId), visited: bool)
    requires key in start.metas
  {
    key in e.metas && if visited && OverlayNeedsHeal(start, e, key) then OverlayHealedIn(start, e, clue, key)
                      else e.metas[key] == start.metas[key]
  }

  // a heal of one overlay leaves the others
  lemma HealedKeepsOverlays(db: Db, ref: TxRef, o: Opinions, clue: Clue, amountCents: int, key: (SpaceId, TxId))
    requires ref.id in db.txs && Unsettled(o) && key in db.metas && key != (ref.spaceId, ref.id)
    ensures var e := Healed(db, ref, o, clue, amountCents); key in e.metas && e.metas[key] == db.metas[key]
  {
    var d, patch := Prepared(db, o, ref.spaceId), HealPatch(o, ref.spaceId, clue(ref.id, ref.spaceId), amountCents);
    EnsuredForKeeps(db, ref.spaceId, PartsIn(o));
    var p := PutOpinions(d, ref, Written(d, ref, patch));
    StepsKeep(p, RowSteps(d, ref, patch));
    AsksKeep(d, RunSteps(p, RowSteps(d, ref, patch)), PartAsks(d, ref, patch));
  }

  lemma OtherOverlay(start: Db, h: Healing, clue: Clue, other: (SpaceId, TxId), key: (SpaceId, TxId), visited: bool)
    requires key in start.metas && key.1.Row? && key.1 in h.db.txs && other != key
    requires OverlayStandsIn(start, h.db, clue, key, visited)
    ensures OverlayStandsIn(start, MetaStep(h, start, clue, other).db, clue, key, visited)
  {
    var e := MetaStep(h, start, clue, other).db;
    MetaStepKeepsRows(h, start, clue, other);
    if other in start.metas && Live(h.db, other.1) {
      var raw := h.db.txs[other.1];
      var o := Fallback(start.metas[other].ops, raw.ops);
      if Unsettled(o) { HealedKeepsOverlays(h.db, JoinedRef(other, o), o, clue, raw.amountCents, key); }
    }
    if visited && OverlayNeedsHeal(start, e, key) {
      StaysHealedOver(start, h.db, e, clue, key);
    }
  }

  lemma StaysHealedOver(start: Db, d: Db, e: Db, clue: Clue, key: (SpaceId, TxId))
    requires key.1.Row? && key in start.metas && OverlayHealedIn(start, d, clue, key) && KeepsBut(d, e, None)
    requires key in e.metas && e.metas[key] == d.metas[key]
    ensures OverlayHealedIn(start, e, clue, key)
  {
    var raw, m, now := d.txs[key.1], start.metas[key].ops, d.metas[key].ops;
    var o := Decided(m, raw.ops);
    var ref := TxRef(key.1, key.0, true, o.needsReview == Some(true));
    FollowsLasts(d, e, ref, o, m, now, now, clue(key.1, key.0), raw.amountCents);
  }

  lemma OverlayNeedsAre(start: Db, e: Db, key: (SpaceId, TxId))
    requires key in start.metas && key in OverlaysToVisit(start)
    ensures OverlayNeedsHeal(start, e, key) <==>
      Live(e, key.1) && !Stamped(start.accounts, e.txs[key.1].accountId) &&
      Unsettled(Fallback(start.metas[key].ops, e.txs[key.1].ops))
  {
    assert forall p: Part :: Bare(Some(p.catId), p.link, p.peer) == BarePart(p);
  }

  lemma OverlayVisit(start: Db, feeds: set<SpaceId>, h: Healing, clue: Clue, key: (SpaceId, TxId))
    requires RowsAt(start, feeds, h, {}) && key in OverlaysToVisit(start) && key.1.Row?
    requires key in h.db.metas && h.db.metas[key] == start.metas[key]
    ensures OverlayStandsIn(start, MetaStep(h, start, clue, key).db, clue, key, true)
  {
    var e := MetaStep(h, start, clue, key).db;
    MetaStepKeepsRows(h, start, clue, key);
    OverlayNeedsAre(start, h.db, key);
    if OverlayNeedsHeal(start, h.db, key) {
      HealedOverlayVisit(start, feeds, h, clue, key);
    } else if Live(h.db, key.1) {
      assert e == h.db;
    }
  }

  lemma HealedOverlayVisit(start: Db, feeds: set<SpaceId>, h: Healing, clue: Clue, key: (SpaceId, TxId))
    requires RowsAt(start, feeds, h, {}) && key in OverlaysToVisit(start) && key.1.Row?
    requires key in h.db.metas && h.db.metas[key] == start.metas[key] && OverlayNeedsHeal(start, h.db, key)
    ensures OverlayHealedIn(start, MetaStep(h, start, clue, key).db, clue, key)
  {
    OverlayNeedsAre(start, h.db, key);
    MetaStepKeepsRows(h, start, clue, key);
    var raw, m := h.db.txs[key.1], start.metas[key].ops;
    var o := Fallback(m, raw.ops);
    assert o == Decided(m, raw.ops);
    assert StillFits(h.db, JoinedRef(key, o), o);
    HealedFollows(h.db, JoinedRef(key, o), o, clue, raw.amountCents);
    OverlayLives(h.db, JoinedRef(key, o), o, clue, raw.amountCents);
  }

  lemma OverlayLives(db: Db, ref: TxRef, o: Opinions, clue: Clue, amountCents: int)
    requires ref.id in db.txs && ref.feed && DefaultsTyped(db.accounts) && Unsettled(o) && StillFits(db, ref, o)
    ensures var e := Healed(db, ref, o, clue, amountCents);
      (ref.spaceId, ref.id) in e.metas && !e.metas[(ref.spaceId, ref.id)].deleted
  {
    HealWrite(db, ref, o, clue, amountCents);
  }

  lemma OwnOverlayTurn(start: Db, feeds: set<SpaceId>, h: Healing, clue: Clue, order: seq<(SpaceId, TxId)>, n: nat)
    requires RowsAt(start, feeds, h, {}) && h.db.metas == start.metas
    requires Visits(order, OverlaysToVisit(start)) && n < |order| && order[n] in start.metas && order[n].1.Row?
    requires order[n] !in order[..n]
    requires OverlayStandsIn(start, MetaPass(h, start, clue, order[..n]).db, clue, order[n], false)
    ensures var g := MetaPass(h, start, clue, order[..n]);
      OverlayStandsIn(start, MetaStep(g, start, clue, order[n]).db, clue, order[n], true)
  {
    MetaPassAt(start, feeds, h, clue, order, n);
    assert order[n] in order;
    OverlayVisit(start, feeds, MetaPass(h, start, clue, order[..n]), clue, order[n]);
  }

  lemma OneMoreOverlay(h: Healing, start: Db, clue: Clue, order: seq<(SpaceId, TxId)>, n: nat)
    requires 0 < n <= |order|
    ensures MetaPass(h, start, clue, order[..n]) ==
            MetaStep(MetaPass(h, start, clue, order[..n - 1]), start, clue, order[n - 1])
    ensures forall key :: key in order[..n] <==> key in order[..n - 1] || key == order[n - 1]
  {
    assert order[..n] == order[..n - 1] + [order[n - 1]] && order[..n][..n - 1] == order[..n - 1];
  }

  // the next visit, of this overlay or of another
  lemma NextTurn(start: Db, feeds: set<SpaceId>, h: Healing, clue: Clue, order: seq<(SpaceId, TxId)>, n: nat,
                 key: (SpaceId, TxId), d: Db, visited: bool) returns (e: Db)
    requires RowsAt(start, feeds, h, {}) && h.db.metas == start.metas && key in start.metas
    requires Visits(order, OverlaysToVisit(start)) && n < |order| && key.1.Row?
    requires d == MetaPass(h, start, clue, order[..n]).db && visited == (key in order[..n])
    requires key.1 in d.txs && OverlayStandsIn(start, d, clue, key, visited)
    ensures e == MetaStep(MetaPass(h, start, clue, order[..n]), start, clue, order[n]).db
    ensures key.1 in e.txs && OverlayStandsIn(start, e, clue, key, visited || key == order[n])
  {
    var g := MetaPass(h, start, clue, order[..n]);
    e := MetaStep(g, start, clue, order[n]).db;
    MetaStepKeepsRows(g, start, clue, order[n]);
    NextOf(order, n, OverlaysToVisit(start));
    if order[n] == key {
      OwnOverlayTurn(start, feeds, h, clue, order, n);
    } else {
      OtherOverlay(start, g, clue, order[n], key, visited);
    }
  }

  lemma {:induction false} MetaPassHeals(
    start: Db, feeds: set<SpaceId>, h: Healing, clue: Clue, order: seq<(SpaceId, TxId)>, n: nat, key: (SpaceId, TxId))
    returns (e: Db, visited: bool)
    requires RowsAt(start, feeds, h, {}) && h.db.metas == start.metas && key in start.metas
    requires Visits(order, OverlaysToVisit(start)) && n <= |order| && key.1.Row? && key.1 in h.db.txs
    ensures e == MetaPass(h, start, clue, order[..n]).db && visited == (key in order[..n])
    ensures key.1 in e.txs && OverlayStandsIn(start, e, clue, key, visited)
  {
    if n == 0 {
      e, visited := h.db, false;
    } else {
      var d, before := MetaPassHeals(start, feeds, h, clue, order, n - 1, key);
      e := NextTurn(start, feeds, h, clue, order, n - 1, key, d, before);
      visited := before || key == order[n - 1];
      OneMoreOverlay(h, start, clue, order, n);
    }
  }

  /** A whole pass, on any overlay of a bank or manual row: if it is live, shows a bare movement, and the
      row as it decides it has one, is live and on no pot, it ends as one heal of that row leaves it; any
      other overlay ends just as it was. */
  lemma PassFollowsOverlays(start: Db, feeds: set<SpaceId>, clue: Clue, rows: seq<TxId>,
                            overlays: seq<(SpaceId, TxId)>, key: (SpaceId, TxId))
    requires Sound(start) && Orders(start, feeds, rows, overlays)
    requires key in start.metas && key.1.Row? && key.1 in start.txs
    ensures var e := Pass(start, clue, rows, overlays).db;
      key in e.metas && if OverlayNeedsHeal(start, e, key) then OverlayHealedIn(start, e, clue, key)
                        else e.metas[key] == start.metas[key]
  {
    var h := RowPass(start, clue, rows);
    FromAll(rows, RowsToVisit(start, feeds));
    RowPassAt(start, feeds, clue, rows, |rows|);
    RowPassKeeps(start, clue, rows);
    var e, _ := MetaPassHeals(start, feeds, h, clue, overlays, |overlays|, key);
    assert rows[..|rows|] == rows && overlays[..|overlays|] == overlays;
    if OverlayNeedsHeal(start, e, key) {
      assert key in OverlaysToVisit(start);
    }
  }
}
