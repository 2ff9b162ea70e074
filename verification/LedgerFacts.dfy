/**
 What the ledger does, told from the stored fields: which accounts a write can touch, and the leg
 and the balances a link ends with.
 */
module LedgerFacts {
  import opened Records
  import opened MirrorMint
  import opened Joined
  import opened Ledger
  import opened LedgerWrite
  import opened LedgerRuns
  import opened LedgerSteps

  // ---- accounts no write touches ----

  // `e` has account `a` as `d` has it, and no row or leg on it that `d` has not
  ghost predicate Spared(d: Db, e: Db, a: AccountId) {
    && (a in e.accounts <==> a in d.accounts) && (a in d.accounts ==> e.accounts[a] == d.accounts[a])
    && (forall k :: k in e.txs && e.txs[k].accountId == a ==> k in d.txs && d.txs[k].accountId == a)
    && (forall k: TxId :: k.Mirror? && k in e.txs && e.txs[k].accountId == a && !e.txs[k].deleted ==> !d.txs[k].deleted)
  }

  // a step planned on `db` whose account is another, and whose leg stands elsewhere if it is only resized
  predicate Elsewhere(db: Db, step: Step, a: AccountId) {
    step.id != a &&
    (step.Resize? ==> Mirror(step.source.id) in db.txs && db.txs[Mirror(step.source.id)].accountId != a)
  }

  lemma StepSpares(db: Db, e: Db, step: Step, a: AccountId)
    requires Spared(db, e, a) && Elsewhere(db, step, a)
    ensures Spared(db, RunStep(e, step), a)
  {
    RowHalfSpares(db, e, step, a);
  }

  lemma RowHalfSpares(db: Db, e: Db, step: Step, a: AccountId)
    requires Spared(db, e, a) && Elsewhere(db, step, a)
    ensures Spared(db, RowHalf(e, step), a)
  {
  }

  lemma {:induction false} StepsSpare(db: Db, e: Db, steps: seq<Step>, a: AccountId)
    requires Spared(db, e, a) && forall s :: s in steps ==> Elsewhere(db, s, a)
    ensures Spared(db, RunSteps(e, steps), a)
    decreases |steps|
  {
    if steps != [] {
      StepSpares(db, e, steps[0], a);
      StepsSpare(db, RunStep(e, steps[0]), steps[1..], a);
    }
  }

  lemma PlanElsewhere(db: Db, q: Ask, a: AccountId)
    requires a in db.accounts ==> db.accounts[a].deleted || !db.accounts[a].manual || db.accounts[a].kind == Funding
    ensures forall s :: s in q.Plan(db).steps ==> Elsewhere(db, s, a)
  {
  }

  lemma {:induction false} AsksSpare(db: Db, e: Db, asks: seq<Ask>, a: AccountId)
    requires a in db.accounts ==> db.accounts[a].deleted || !db.accounts[a].manual || db.accounts[a].kind == Funding
    requires Spared(db, e, a)
    ensures Spared(db, RunAsks(db, e, asks), a)
    decreases |asks|
  {
    if asks != [] {
      PlanElsewhere(db, asks[0], a);
      StepsSpare(db, e, asks[0].Plan(db).steps, a);
      AsksSpare(db, RunSteps(e, asks[0].Plan(db).steps), asks[1..], a);
    }
  }

  /** No write, whoever makes it and whatever it carries, touches an account that is deleted, not the
      space's own manual one, or a funding pot: its record stays, and no leg appears on it. */
  lemma WriteSpares(db: Db, ref: TxRef, patch: Patch, a: AccountId)
    requires Live(db, ref.id)
    requires a in db.accounts ==> db.accounts[a].deleted || !db.accounts[a].manual || db.accounts[a].kind == Funding
    ensures Spared(db, Write(db, ref, patch), a)
  {
    var d := PutOpinions(db, ref, Written(db, ref, patch));
    if patch.link.Set? {
      PlanElsewhere(db, LinkAsk(db, ref, patch), a);
    }
    StepsSpare(db, d, RowSteps(db, ref, patch), a);
    AsksSpare(db, RunSteps(d, RowSteps(db, ref, patch)), PartAsks(db, ref, patch), a);
  }

  // ---- nor any run ----

  lemma SparedTwice(d: Db, e: Db, f: Db, a: AccountId)
    requires Spared(d, e, a) && Spared(e, f, a)
    ensures Spared(d, f, a)
  {
  }

  lemma PlanSpares(db: Db, q: Ask, a: AccountId)
    requires a in db.accounts ==> db.accounts[a].deleted || !db.accounts[a].manual || db.accounts[a].kind == Funding
    ensures Spared(db, RunSteps(db, q.Plan(db).steps), a)
  {
    PlanElsewhere(db, q, a);
    StepsSpare(db, db, q.Plan(db).steps, a);
  }

  lemma HealSpares(db: Db, home: Home, ref: TxRef, a: AccountId)
    requires KeepsRow(db, home, ref)
    requires a in db.accounts ==> db.accounts[a].deleted || !db.accounts[a].manual || db.accounts[a].kind == Funding
    ensures Spared(db, HealLeg(db, ref), a)
  {
    var q := HealAsk(db, ref);
    if q.Minting(db) {
      var e := RunSteps(db, q.Plan(db).steps);
      PlanSpares(db, q, a);
      HealedRows(db, home, ref);
      WriteSpares(e, ref, PeerPatch(Some(Mirror(ref.id))), a);
      SparedTwice(db, e, HealLeg(db, ref), a);
    }
  }

  lemma CountInSpares(db: Db, ref: TxRef, a: AccountId)
    requires Live(db, ref.id)
    requires a in db.accounts ==> db.accounts[a].deleted || !db.accounts[a].manual || db.accounts[a].kind == Funding
    ensures Spared(db, CountIn(db, ref), a)
  {
    var tap := FreshTap(db, ref);
    if Applies(db, tap) {
      var d := AddBalance(db, tap.link.value, -tap.amountCents);
      WriteSpares(d, ref, COUNTED, a);
      SparedTwice(db, d, CountIn(db, ref), a);
    }
  }

  lemma StepSparesBooks(b: Books, step: LedgerStep, a: AccountId)
    requires Allowed(b, step)
    requires a in b.db.accounts ==>
      b.db.accounts[a].deleted || !b.db.accounts[a].manual || b.db.accounts[a].kind == Funding
    ensures Spared(b.db, Next(b, step).db, a)
  {
    match step {
      case Edit(ref, patch) => WriteSpares(b.db, ref, patch, a);
      case Heal(ref) => HealSpares(b.db, b.home, ref, a);
      case Delete(ref) => PlanSpares(b.db, RemoveAsk(b.db, ref), a);
      case Count(ref) => CountInSpares(b.db, ref, a);
      case Hand(ref) =>
    }
  }

  /** Over any run of ledger steps an account that is deleted, bank-fed or a funding pot keeps its
      record, balance included, and no leg appears on it. */
  lemma {:induction false} RunSpares(b: Books, steps: seq<LedgerStep>, a: AccountId)
    requires AllowedRun(b, steps)
    requires a in b.db.accounts ==>
      b.db.accounts[a].deleted || !b.db.accounts[a].manual || b.db.accounts[a].kind == Funding
    ensures Spared(b.db, LedgerSteps.After(b, steps).db, a)
    decreases |steps|
  {
    if steps != [] {
      StepSparesBooks(b, steps[0], a);
      RunSpares(Next(b, steps[0]), steps[1..], a);
      SparedTwice(b.db, Next(b, steps[0]).db, LedgerSteps.After(b, steps).db, a);
    }
  }

  // ---- the leg and the balances of a link ----

  // does money of day `date` move this account? A loan ignores what its known balance already holds
  predicate Counting(acct: Account, date: Date, counted: bool) {
    acct.kind !in {Credit, Mortgage, Loan} || counted || acct.balanceAsOf.None? || acct.balanceAsOf.value < date
  }

  // the account's record with its balance moved
  function Paid(acct: Account, cents: int): Account { acct.(balanceCents := acct.balanceCents + cents) }

  // a fresh link to account `id`, as its plan sees it
  lemma PlanMints(db: Db, q: Ask, id: AccountId)
    requires q.next == Some(id) && q.prev != Some(id) && q.incoming.None? && q.peer.None?
    requires LegOf(db, q.source.id).None?
    requires id in db.accounts && !db.accounts[id].deleted && db.accounts[id].manual && db.accounts[id].kind != Funding
    ensures q.NextLeg(db) == Some(Leg(id, -q.source.amountCents, Some(q.source.id)))
    ensures q.Plan(db).peer == Set(Some(Mirror(q.source.id)))
    ensures var s := q.source;
      forall a ::
        q.Moved(db, a) == if a == id && Counting(db.accounts[id], s.date, s.loanCounted) then -s.amountCents else 0
  {
  }

  // a leg on a pot is filed by the pot, as money into it or out of it; any other leg by the account
  // that pays it, as the money the leg itself brings or takes
  predicate LegCategory(db: Db, s: Source, kind: AccountType, c: Cat) {
    if IsPot(kind) then MovesWith(c, kind) && (PaysInto(c) <==> -s.amountCents >= 0)
    else
      MovesWith(c, if s.accountId in db.accounts then db.accounts[s.accountId].kind else Checking) &&
      (PaysInto(c) <==> -s.amountCents < 0)
  }

  lemma MintCatIs(db: Db, kind: AccountType, s: Source)
    ensures LegCategory(db, s, kind, MintCat(db, kind, s))
  {
  }

  // only the four fields a mint writes
  function BareOpinions(o: Opinions): Opinions {
    NO_OPINIONS.(catId := o.catId, needsReview := o.needsReview, link := o.link, peer := o.peer)
  }

  // the row a fresh link mints
  lemma PlanMintsRow(d: Db, e: Db, q: Ask, id: AccountId)
    requires q.next == Some(id) && q.prev != Some(id) && q.incoming.None? && q.peer.None?
    requires LegOf(d, q.source.id).None?
    requires id in d.accounts && !d.accounts[id].deleted && d.accounts[id].manual && d.accounts[id].kind != Funding
    ensures Mirror(q.source.id) in RunSteps(e, q.Plan(d).steps).txs
    ensures var s, row := q.source, RunSteps(e, q.Plan(d).steps).txs[Mirror(q.source.id)];
      && row.spaceId == d.accounts[id].spaceId && row.accountId == id && row.date == s.date
      && row.amountCents == -s.amountCents && !row.deleted
      && row.ops.link == Some(s.accountId) && row.ops.peer == Some(s.id) && row.ops.needsReview == Some(false)
      && row.ops.catId == Some(MintCat(d, d.accounts[id].kind, s))
      && (Mirror(s.id) !in e.txs ==> !row.pending && row.ops == BareOpinions(row.ops))
  {
    RunOne(e, MintStep(d, q.source, id));
    assert q.Plan(d).steps == [MintStep(d, q.source, id)];
  }

  // a link that leaves account `id`, where its leg stands
  lemma PlanLeaves(db: Db, q: Ask, id: AccountId)
    requires q.prev == Some(id) && q.next != Some(id) && q.incoming.None? && q.peer == Some(Mirror(q.source.id))
    requires LegOf(db, q.source.id).Some? && LegOf(db, q.source.id).value.account == id
    requires id in db.accounts && !db.accounts[id].deleted && db.accounts[id].manual && db.accounts[id].kind != Funding
    ensures var s, to := q.source, if q.next.Some? then q.next.value else "";
      var lands := q.next.Some? && to in db.accounts && !db.accounts[to].deleted && db.accounts[to].manual &&
                   db.accounts[to].kind != Funding;
      && q.NextLeg(db) == (if lands then Some(Leg(to, -s.amountCents, Some(s.id))) else None)
      && q.Plan(db).peer == Set(if lands then Some(Mirror(s.id)) else None)
      && forall a :: q.Moved(db, a) ==
           (if a == id && Counting(db.accounts[id], s.date, s.loanCounted) then s.amountCents else 0) -
           (if lands && a == to && Counting(db.accounts[to], s.date, s.loanCounted) then s.amountCents else 0)
  {
  }

  // a link written again, its leg standing there with whatever money
  lemma PlanResizes(db: Db, q: Ask, id: AccountId)
    requires q.prev == Some(id) && q.next == Some(id) && q.peer == Some(Mirror(q.source.id))
    requires LegOf(db, q.source.id).Some? && LegOf(db, q.source.id).value.account == id
    requires id in db.accounts && !db.accounts[id].deleted && db.accounts[id].manual && db.accounts[id].kind != Funding
    ensures var s, leg := q.source, LegOf(db, q.source.id).value;
      && q.NextLeg(db) == Some(leg.(cents := -s.amountCents)) && q.Plan(db).peer.Keep?
      && forall a :: q.Moved(db, a) ==
           (if a == id && Counting(db.accounts[id], s.date, s.loanCounted) then -s.amountCents - leg.cents else 0)
  {
  }

  // a write that names no splits is its opinions and the row's plan
  lemma LinkWrite(db: Db, ref: TxRef, patch: Patch)
    requires Sees(db, ref) && patch.link.Set? && patch.splits.Keep?
    ensures var q := LinkAsk(db, ref, patch); var e := Write(db, ref, patch);
      && LegOf(e, ref.id) == q.NextLeg(db) && e.accounts.Keys == db.accounts.Keys
      && forall a :: a in db.accounts ==> e.accounts[a] == Paid(db.accounts[a], q.Moved(db, a))
  {
    var q, d := LinkAsk(db, ref, patch), PutOpinions(db, ref, Written(db, ref, patch));
    PutOpinionsRows(db, ref, Written(db, ref, patch));
    NotItsOwnLeg(ref.id, "");
    PlanEffect(db, d, q);
    var e := Write(db, ref, patch);
    forall a | a in db.accounts ensures e.accounts[a] == Paid(db.accounts[a], q.Moved(db, a)) {
      assert Balance(e, a) == Balance(d, a) + q.Moved(db, a);
    }
  }

  // the written link, and the peer the plan decided unless the caller names one
  lemma LinkShows(db: Db, ref: TxRef, patch: Patch)
    requires Sees(db, ref) && patch.link.Set? && patch.splits.Keep?
    ensures var e, q := Write(db, ref, patch), LinkAsk(db, ref, patch);
      && ref.id in e.txs && Merged(e, ref).link == patch.link.value
      && Merged(e, ref).peer == Changed(if patch.peer.Keep? then q.Plan(db).peer else patch.peer, Merged(db, ref).peer)
  {
    WriteRows(db, ref, patch);
  }

  /** A changed link to a live manual account that is no funding pot, on a live row without leg or
      peer: the leg stands there with minus the row's money, pointing back, the row's peer names it
      unless the caller clears it, and that one balance moves. */
  lemma FreshLinkMints(db: Db, ref: TxRef, patch: Patch, id: AccountId)
    requires Sees(db, ref) && patch.link == Set(Some(id)) && patch.peer in {Keep, Set(None)} && patch.splits.Keep?
    requires Merged(db, ref).link != Some(id) && Merged(db, ref).peer.None? && LegOf(db, ref.id).None?
    requires id in db.accounts && !db.accounts[id].deleted && db.accounts[id].manual && db.accounts[id].kind != Funding
    ensures var raw, e, acct := db.txs[ref.id], Write(db, ref, patch), db.accounts[id];
      var counted := Changed(patch.loanCounted, Merged(db, ref).loanCounted) == Some(true);
      && LegOf(e, ref.id) == Some(Leg(id, -raw.amountCents, Some(ref.id)))
      && ref.id in e.txs && Merged(e, ref).link == Some(id)
      && Merged(e, ref).peer == (if patch.peer.Keep? then Some(Mirror(ref.id)) else None)
      && e.accounts == db.accounts[id := Paid(acct, if Counting(acct, raw.date, counted) then -raw.amountCents else 0)]
  {
    LinkShows(db, ref, patch);
    LinkWrite(db, ref, patch);
    PlanMints(db, LinkAsk(db, ref, patch), id);
  }

  /** The row such a link mints: on the account, in its space, on the row's day, naming the row's
      account and the row, already reviewed, in the one category that tells what the leg does, and
      with no other opinion unless a removed leg is revived. */
  lemma FreshLinkRow(db: Db, ref: TxRef, patch: Patch, id: AccountId)
    requires Sees(db, ref) && patch.link == Set(Some(id)) && patch.peer in {Keep, Set(None)} && patch.splits.Keep?
    requires Merged(db, ref).link != Some(id) && Merged(db, ref).peer.None? && LegOf(db, ref.id).None?
    requires id in db.accounts && !db.accounts[id].deleted && db.accounts[id].manual && db.accounts[id].kind != Funding
    ensures Mirror(ref.id) in Write(db, ref, patch).txs
    ensures var raw, row, kind := db.txs[ref.id], Write(db, ref, patch).txs[Mirror(ref.id)], db.accounts[id].kind;
      && row.spaceId == db.accounts[id].spaceId && row.accountId == id && row.date == raw.date
      && row.amountCents == -raw.amountCents && !row.deleted
      && row.ops.link == Some(raw.accountId) && row.ops.peer == Some(ref.id) && row.ops.needsReview == Some(false)
      && (Mirror(ref.id) !in db.txs ==> !row.pending && row.ops == BareOpinions(row.ops))
      && row.ops.catId.Some? && var c := row.ops.catId.value;
         if IsPot(kind) then MovesWith(c, kind) && (PaysInto(c) <==> row.amountCents >= 0)
         else MovesWith(c, if raw.accountId in db.accounts then db.accounts[raw.accountId].kind else Checking) &&
              (PaysInto(c) <==> row.amountCents < 0)
  {
    var d := PutOpinions(db, ref, Written(db, ref, patch));
    PlanMintsRow(db, d, LinkAsk(db, ref, patch), id);
    MintCatIs(db, db.accounts[id].kind, LinkAsk(db, ref, patch).source);
    assert Write(db, ref, patch) == RunSteps(d, RowSteps(db, ref, patch));
  }

  /** A link that leaves the account its own leg stands on: that leg is gone, its account has the
      row's money back, and the new account, if it is a live manual one and no funding pot, gets it. */
  lemma LeavingLinkRefunds(db: Db, ref: TxRef, patch: Patch, id: AccountId)
    requires Sees(db, ref) && patch.link.Set? && patch.link.value != Some(id) && patch.peer.Keep? && patch.splits.Keep?
    requires Merged(db, ref).link == Some(id) && Merged(db, ref).peer == Some(Mirror(ref.id))
    requires LegOf(db, ref.id).Some? && LegOf(db, ref.id).value.account == id
    requires id in db.accounts && !db.accounts[id].deleted && db.accounts[id].manual && db.accounts[id].kind != Funding
    ensures var raw, e, next := db.txs[ref.id], Write(db, ref, patch), patch.link.value;
      var to, counted := if next.Some? then next.value else "",
                         Changed(patch.loanCounted, Merged(db, ref).loanCounted) == Some(true);
      var lands := next.Some? && to in db.accounts && !db.accounts[to].deleted && db.accounts[to].manual &&
                   db.accounts[to].kind != Funding;
      && LegOf(e, ref.id) == (if lands then Some(Leg(to, -raw.amountCents, Some(ref.id))) else None)
      && ref.id in e.txs && Merged(e, ref).link == next
      && Merged(e, ref).peer == (if lands then Some(Mirror(ref.id)) else None)
      && e.accounts.Keys == db.accounts.Keys
      && forall a :: a in db.accounts ==> e.accounts[a] == Paid(db.accounts[a],
           (if a == id && Counting(db.accounts[a], raw.date, counted) then raw.amountCents else 0) -
           (if lands && a == to && Counting(db.accounts[a], raw.date, counted) then raw.amountCents else 0))
  {
    LinkShows(db, ref, patch);
    LinkWrite(db, ref, patch);
    PlanLeaves(db, LinkAsk(db, ref, patch), id);
  }

  /** A link written again to the account its own leg stands on: the leg takes the row's money, and
      the balance moves by the difference. */
  lemma SameLinkResizes(db: Db, ref: TxRef, patch: Patch, id: AccountId)
    requires Sees(db, ref) && patch.link == Set(Some(id)) && patch.splits.Keep?
    requires Merged(db, ref).link == Some(id) && Merged(db, ref).peer == Some(Mirror(ref.id))
    requires LegOf(db, ref.id).Some? && LegOf(db, ref.id).value.account == id
    requires id in db.accounts && !db.accounts[id].deleted && db.accounts[id].manual && db.accounts[id].kind != Funding
    ensures var raw, e, acct, leg := db.txs[ref.id], Write(db, ref, patch), db.accounts[id], LegOf(db, ref.id).value;
      var counted := Changed(patch.loanCounted, Merged(db, ref).loanCounted) == Some(true);
      && LegOf(e, ref.id) == Some(leg.(cents := -raw.amountCents))
      && e.accounts == db.accounts[id :=
           Paid(acct, if Counting(acct, raw.date, counted) then -raw.amountCents - leg.cents else 0)]
  {
    LinkWrite(db, ref, patch);
    PlanResizes(db, LinkAsk(db, ref, patch), id);
  }
}
