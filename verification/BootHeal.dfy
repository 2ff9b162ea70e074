/**
 The heal that runs on every boot: movement rows (or container parts) with neither counterparty
 nor peer are linked onto an account, or stand down to uncategorized. What one such write does.
 */
module BootHeal {
  import opened Records
  import opened MirrorMint
  import opened Joined
  import opened Ledger

  datatype DefaultFamily = SavingPot | DebtPot | InvestPot | TransferPot | CashPot | FundingPot

  function DefaultFamilyFor(c: Cat): Option<DefaultFamily> {
    match c
    case SavingDeposit => Some(SavingPot)
    case SavingWithdraw => Some(SavingPot)
    case LoanRepayment => Some(DebtPot)
    case DebtBorrowed => Some(DebtPot)
    case InvestContribution => Some(InvestPot)
    case InvestWithdraw => Some(InvestPot)
    case TransferOut => Some(TransferPot)
    case TransferIn => Some(TransferPot)
    case CashWithdraw => Some(CashPot)
    case CashDeposit => Some(CashPot)
    case FundingOut => Some(FundingPot)
    case FundingIn => Some(FundingPot)
    case _ => None
  }

  function FamilyAccountType(f: DefaultFamily): AccountType {
    match f
    case SavingPot => Savings
    case DebtPot => Loan
    case InvestPot => Brokerage
    case TransferPot => Checking
    case CashPot => Cash
    case FundingPot => Funding
  }

  function DefaultAccountId(space: SpaceId, f: DefaultFamily): AccountId {
    var name := match f
      case SavingPot => "saving"
      case DebtPot => "debtPayment"
      case InvestPot => "investment"
      case TransferPot => "transfer"
      case CashPot => "cash"
      case FundingPot => "funding";
    "defaultacct_" + name + "_" + space
  }

  // minted idempotently; a deleted default revives
  function EnsureDefault(db: Db, space: SpaceId, f: DefaultFamily): Db {
    var id := DefaultAccountId(space, f);
    if id in db.accounts && !db.accounts[id].deleted then db
    else
      var asOf := if id in db.accounts then db.accounts[id].balanceAsOf else None;
      db.(accounts := db.accounts[id := Account(space, FamilyAccountType(f), true, 0, asOf, false)])
  }

  // ---- what is bare ----

  predicate BarePart(p: Part) { IsMovementCat(Some(p.catId)) && p.link.None? && p.peer.None? }

  predicate BareRow(o: Opinions) { IsMovementCat(o.catId) && o.link.None? && o.peer.None? }

  function PartsIn(o: Opinions): seq<Part> { if o.splits.Some? then o.splits.value else [] }

  predicate HasBarePart(o: Opinions) { exists p :: p in PartsIn(o) && BarePart(p) }

  predicate BareContainer(o: Opinions) { |PartsIn(o)| > 1 && HasBarePart(o) }

  // a container is judged part by part, any other row as a whole
  predicate Unsettled(o: Opinions) { if |PartsIn(o)| > 1 then HasBarePart(o) else BareRow(o) }

  // the cheap gate in front of the merged read
  predicate Candidate(o: Opinions) { BareRow(o) || HasBarePart(o) }

  function Or<T>(a: Option<T>, b: Option<T>): Option<T> { if a.Some? then a else b }

  // an overlay's decisions over the raw row's own
  function Fallback(meta: Opinions, raw: Opinions): Opinions {
    raw.(catId := Or(meta.catId, raw.catId), link := Or(meta.link, raw.link), peer := Or(meta.peer, raw.peer),
         splits := Or(meta.splits, raw.splits), needsReview := Or(meta.needsReview, raw.needsReview))
  }

  predicate Stamped(accounts: map<AccountId, Account>, id: AccountId) {
    id in accounts && AccountStamp(accounts[id].kind).Some?
  }

  predicate RowSettled(db: Db, feeds: set<SpaceId>, k: TxId)
    requires k in db.txs
  {
    var row := db.txs[k];
    row.deleted || row.spaceId in feeds || Stamped(db.accounts, row.accountId) || !Unsettled(row.ops)
  }

  predicate MetaSettled(db: Db, key: (SpaceId, TxId))
    requires key in db.metas
  {
    var meta := db.metas[key];
    meta.deleted || !Live(db, key.1) || Stamped(db.accounts, db.txs[key.1].accountId) ||
    !Candidate(meta.ops) || !Unsettled(Fallback(meta.ops, db.txs[key.1].ops))
  }

  ghost predicate AllSettled(db: Db, feeds: set<SpaceId>) {
    (forall k :: k in db.txs ==> RowSettled(db, feeds, k)) && forall key :: key in db.metas ==> MetaSettled(db, key)
  }

  // ---- what the heal relies on ----

  // a default account that exists carries its family's type
  ghost predicate DefaultsTyped(accounts: map<AccountId, Account>) {
    forall space, f :: DefaultAccountId(space, f) in accounts ==>
      accounts[DefaultAccountId(space, f)].kind == FamilyAccountType(f)
  }

  // and a container names each of its parts once
  ghost predicate Sound(db: Db) {
    && DefaultsTyped(db.accounts)
    && (forall k :: k in db.txs ==> DistinctIds(PartsIn(db.txs[k].ops)))
    && (forall key :: key in db.metas ==> DistinctIds(PartsIn(db.metas[key].ops)))
  }

  // ---- a heal write only mints ----

  ghost predicate StampsStay(d: Db, e: Db) {
    && (forall id :: Stamped(d.accounts, id) ==> Stamped(e.accounts, id))
    && (DefaultsTyped(d.accounts) ==> DefaultsTyped(e.accounts))
  }

  // a leg of the row `r` or of one of its parts
  predicate LegFor(r: TxId, k: TxId) {
    k.Mirror? && (k.source == r || (k.source.PartKey? && k.source.tx == r))
  }

  function SplitsAt(db: Db, k: TxId): Option<seq<Part>> {
    if k in db.txs then db.txs[k].ops.splits else None
  }

  // a live leg that names its source, with whatever parts the row under its id had
  predicate JustMinted(d: Db, e: Db, k: TxId)
    requires k in e.txs
  {
    !e.txs[k].deleted && e.txs[k].ops.splits == SplitsAt(d, k) && LegShaped(k, e.txs[k].ops)
  }

  predicate LegShaped(k: TxId, o: Opinions) { k.Mirror? && o.link.Some? && o.peer == Some(k.source) }

  // every row is as it was, or a leg of `r` that was just minted
  ghost predicate OnlyMinted(d: Db, e: Db, r: TxId) {
    && e.metas == d.metas && d.txs.Keys <= e.txs.Keys && SameKinds(d, e)
    && forall k :: k in e.txs ==> (k in d.txs && e.txs[k] == d.txs[k]) || (LegFor(r, k) && JustMinted(d, e, k))
  }

  // asks for `r` or a part of it that can neither retire nor resize
  predicate Quiet(q: Ask, r: TxId) {
    LegFor(r, Mirror(q.source.id)) && (q.prev.None? || q.peer != Some(Mirror(q.source.id)))
  }

  lemma MintOnlyMints(e: Db, step: Step, r: TxId)
    requires step.Mint? && LegFor(r, Mirror(step.source.id))
    ensures OnlyMinted(e, RunStep(e, step), r)
  {
    var half := RowHalf(e, step);
    MintedHalf(e, step, r);
    if !step.adopted && BalanceMoves(step.account, step.source) {
      AddBalanceKinds(half, step.id, -step.source.amountCents);
      OnlyMintedPaid(e, half, AddBalance(half, step.id, -step.source.amountCents), r);
    }
  }

  lemma MintedHalf(e: Db, step: Step, r: TxId)
    requires step.Mint? && LegFor(r, Mirror(step.source.id))
    ensures OnlyMinted(e, RowHalf(e, step), r)
  {
  }

  lemma OnlyMintedPaid(d: Db, e: Db, f: Db, r: TxId)
    requires OnlyMinted(d, e, r) && SameKinds(e, f) && f.txs == e.txs && f.metas == e.metas
    ensures OnlyMinted(d, f, r)
  {
  }

  lemma AddBalanceKinds(db: Db, id: AccountId, delta: int)
    ensures var e := AddBalance(db, id, delta); SameKinds(db, e) && e.txs == db.txs && e.metas == db.metas
  {
  }

  lemma OnlyMintedTwice(d: Db, e: Db, f: Db, r: TxId)
    requires OnlyMinted(d, e, r) && OnlyMinted(e, f, r)
    ensures OnlyMinted(d, f, r)
  {
  }

  lemma QuietPlan(d: Db, e: Db, q: Ask, r: TxId)
    requires Quiet(q, r)
    ensures OnlyMinted(e, RunSteps(e, q.Plan(d).steps), r)
  {
    var steps := q.Plan(d).steps;
    if q.Minting(d) {
      assert steps == [MintStep(d, q.source, q.next.value)];
      RunOne(e, steps[0]);
      MintOnlyMints(e, steps[0], r);
    } else {
      assert steps == [];
    }
  }

  lemma {:induction false} QuietAsks(d: Db, e: Db, asks: seq<Ask>, r: TxId)
    requires forall q :: q in asks ==> Quiet(q, r)
    ensures OnlyMinted(e, RunAsks(d, e, asks), r)
    decreases |asks|
  {
    if asks != [] {
      var f := RunSteps(e, asks[0].Plan(d).steps);
      QuietPlan(d, e, asks[0], r);
      QuietAsks(d, f, asks[1..], r);
      OnlyMintedTwice(e, f, RunAsks(d, f, asks[1..]), r);
    }
  }

  lemma QuietWrite(db: Db, ref: TxRef, patch: Patch)
    requires ref.id in db.txs
    requires patch.link.Set? ==> Quiet(LinkAsk(db, ref, patch), ref.id)
    requires forall q :: q in PartAsks(db, ref, patch) ==> Quiet(q, ref.id)
    ensures OnlyMinted(PutOpinions(db, ref, Written(db, ref, patch)), Write(db, ref, patch), ref.id)
  {
    var d := PutOpinions(db, ref, Written(db, ref, patch));
    var e := RunSteps(d, RowSteps(db, ref, patch));
    if patch.link.Set? {
      QuietPlan(db, d, LinkAsk(db, ref, patch), ref.id);
    }
    QuietAsks(db, e, PartAsks(db, ref, patch), ref.id);
    OnlyMintedTwice(d, e, Write(db, ref, patch), ref.id);
  }

  // ---- default accounts ----

  // the accounts half of a default account's mint
  ghost predicate OnlyDefaults(d: Db, e: Db) {
    e.txs == d.txs && e.metas == d.metas && StampsStay(d, e)
  }

  lemma DefaultIdNamesFamily(s1: SpaceId, f1: DefaultFamily, s2: SpaceId, f2: DefaultFamily)
    requires DefaultAccountId(s1, f1) == DefaultAccountId(s2, f2)
    ensures f1 == f2
  {
    assert DefaultAccountId(s1, f1)[12] == DefaultAccountId(s2, f2)[12];
  }

  lemma EnsureDefaultIsTame(db: Db, space: SpaceId, f: DefaultFamily)
    requires DefaultsTyped(db.accounts)
    ensures OnlyDefaults(db, EnsureDefault(db, space, f))
  {
    forall s, g | DefaultAccountId(s, g) == DefaultAccountId(space, f) ensures g == f {
      DefaultIdNamesFamily(s, g, space, f);
    }
  }

  // the defaults a container's bare parts call for, in order
  function EnsuredFor(db: Db, space: SpaceId, parts: seq<Part>): Db {
    if parts == [] then db
    else
      var p := parts[|parts| - 1];
      var d := EnsuredFor(db, space, parts[..|parts| - 1]);
      if BarePart(p) && DefaultFamilyFor(p.catId) != Some(TransferPot)
      then EnsureDefault(d, space, DefaultFamilyFor(p.catId).value) else d
  }

  // the accounts are there before the row is written
  function Prepared(db: Db, o: Opinions, space: SpaceId): Db
    requires Unsettled(o)
  {
    if |PartsIn(o)| > 1 then EnsuredFor(db, space, PartsIn(o))
    else
      var family := DefaultFamilyFor(o.catId.value).value;
      if family.TransferPot? then db else EnsureDefault(db, space, family)
  }

  lemma {:induction false} EnsuredForIsTame(db: Db, space: SpaceId, parts: seq<Part>)
    requires DefaultsTyped(db.accounts)
    ensures OnlyDefaults(db, EnsuredFor(db, space, parts))
  {
    if parts != [] {
      var d := EnsuredFor(db, space, parts[..|parts| - 1]);
      EnsuredForIsTame(db, space, parts[..|parts| - 1]);
      var p := parts[|parts| - 1];
      if BarePart(p) && DefaultFamilyFor(p.catId) != Some(TransferPot) {
        EnsureDefaultIsTame(d, space, DefaultFamilyFor(p.catId).value);
      }
    }
  }

  lemma PreparedIsTame(db: Db, o: Opinions, space: SpaceId)
    requires DefaultsTyped(db.accounts) && Unsettled(o)
    ensures OnlyDefaults(db, Prepared(db, o, space))
  {
    if |PartsIn(o)| > 1 {
      EnsuredForIsTame(db, space, PartsIn(o));
    } else {
      var family := DefaultFamilyFor(o.catId.value).value;
      if !family.TransferPot? { EnsureDefaultIsTame(db, space, family); }
    }
  }

  // ---- a bare row ----

  // links an account, or stands down to uncategorized
  predicate Settling(patch: Patch) {
    patch.splits.Keep? && patch.peer.Keep? && patch.loanCounted.Keep? &&
    ((patch.link.Set? && patch.link.value.Some?) || (patch.link.Keep? && patch.catId == Set(Some(Uncategorized))))
  }

  lemma NotItsOwnLeg(x: TxId)
    ensures !LegFor(x, x) && x != Mirror(Mirror(x))
  {
    if x.Mirror? {
      NotItsOwnLeg(x.source);
      if x.source.PartKey? { NotItsOwnLeg(x.source.tx); }
    }
  }

  lemma SettlingRow(db: Db, ref: TxRef, patch: Patch)
    requires ref.id in db.txs && Settling(patch) && |PartsIn(Merged(db, ref))| <= 1
    requires Merged(db, ref).link.None? || LegShaped(ref.id, Merged(db, ref))
    ensures var o := Apply(Written(db, ref, patch), Merged(db, ref));
      !Unsettled(o) && o.splits == Merged(db, ref).splits && (o.link.Some? || o.catId == Some(Uncategorized))
    ensures OnlyMinted(PutOpinions(db, ref, Written(db, ref, patch)), Write(db, ref, patch), ref.id)
  {
    if ref.id.Mirror? { NotItsOwnLeg(ref.id.source); }
    QuietWrite(db, ref, patch);
  }

  // ---- a container with bare parts ----

  predicate Folds(p: Part, q: Part) {
    q.id == p.id && q.amountCents == p.amountCents && q.peer == p.peer &&
    if BarePart(p) then q.link.Some? || (q.link.None? && q.catId.Uncategorized?) else q == p
  }

  predicate FoldsAll(parts: seq<Part>, next: seq<Part>) {
    |next| == |parts| && forall i :: 0 <= i < |parts| ==> Folds(parts[i], next[i])
  }

  lemma FoldedIds(parts: seq<Part>, next: seq<Part>)
    requires FoldsAll(parts, next) && DistinctIds(parts)
    ensures DistinctIds(next) && IdsOf(next) == IdsOf(parts)
  {
  }

  // what the write finds stored: these very parts, or no parts at all
  ghost predicate Stores(db: Db, ref: TxRef, parts: seq<Part>)
    requires ref.id in db.txs
  {
    PrevParts(db, ref) == parts || PrevParts(db, ref) == []
  }

  lemma FoldKnows(db: Db, ref: TxRef, parts: seq<Part>, next: seq<Part>, i: int)
    requires ref.id in db.txs && DistinctIds(parts) && FoldsAll(parts, next) && Stores(db, ref, parts)
    requires 0 <= i < |next| && next[i].id.Some?
    ensures var prev := Known(PartMap(PrevParts(db, ref)), next[i].id.value);
      && (prev == None || prev == Some(parts[i]))
      && (Touched(next[i], prev) ==> LinkOf(prev) == None && next[i].link.Some?)
  {
    PartMapAt(parts);
    assert Folds(parts[i], next[i]);
  }

  lemma FoldAsksQuiet(db: Db, ref: TxRef, parts: seq<Part>, next: seq<Part>)
    requires ref.id in db.txs && DistinctIds(parts) && FoldsAll(parts, next) && Stores(db, ref, parts)
    ensures forall q :: q in SplitsAsks(db, ref, next) ==> Quiet(q, ref.id)
  {
    var raw, known := db.txs[ref.id], PartMap(PrevParts(db, ref));
    FoldedIds(parts, next);
    PartMapAt(parts);
    DiffShape(db, raw, ref.id, next, known);
    DiffAsks(db, raw, ref.id, next, known);
    PartIdsAre(PrevParts(db, ref));
    GoneAsksAre(raw, ref.id, PartIds(PrevParts(db, ref)), known - IdsOf(next));
    forall q | q in DiffParts(db, raw, ref.id, next, known).asks ensures Quiet(q, ref.id) {
      var i :| FromPart(raw, ref.id, next, known, q, i);
      FoldKnows(db, ref, parts, next, i);
    }
    assert known - IdsOf(next) == map[];
  }

  lemma FoldedContainer(db: Db, ref: TxRef, parts: seq<Part>, patch: Patch, next: seq<Part>)
    requires ref.id in db.txs && DistinctIds(parts) && FoldsAll(parts, next) && Stores(db, ref, parts)
    requires patch.splits == Set(Some(next)) && patch.link.Keep? && |parts| > 1
    ensures var o := Apply(Written(db, ref, patch), Merged(db, ref));
      && o.splits.Some? && |o.splits.value| == |parts| && !HasBarePart(o) && DistinctIds(PartsIn(o))
    ensures OnlyMinted(PutOpinions(db, ref, Written(db, ref, patch)), Write(db, ref, patch), ref.id)
  {
    var raw, known := db.txs[ref.id], PartMap(PrevParts(db, ref));
    FoldedIds(parts, next);
    FoldAsksQuiet(db, ref, parts, next);
    QuietWrite(db, ref, patch);
    DiffShape(db, raw, ref.id, next, known);
    var adjusted := SplitsDiff(db, ref, next).adjusted;
    forall i | 0 <= i < |next| ensures adjusted[i].id == next[i].id && !BarePart(adjusted[i]) {
      assert Folds(parts[i], next[i]);
      assert adjusted[i] == AdjustedAt(db, raw, ref.id, next, known, i);
      if next[i].id.Some? { FoldKnows(db, ref, parts, next, i); }
    }
  }

  // ---- what the pass writes ----

  // the tracked account the bank text names, if any
  type Clue = (TxId, SpaceId) -> Option<(AccountId, AccountType)>

  function ResolveBareTransfer(found: Option<(AccountId, AccountType)>, amountCents: int): Patch {
    if found.Some? then
      NO_CHANGE.(link := Set(Some(found.value.0)), catId := Set(Some(MovementCatFor(found.value.1, amountCents))))
    else NO_CHANGE.(catId := Set(Some(Uncategorized)), needsReview := Set(Some(true)))
  }

  // a bare pot part takes its space's default account, a bare transfer part the account its text names
  function FoldedPart(p: Part, space: SpaceId, found: Option<(AccountId, AccountType)>, amountCents: int): Part {
    if !BarePart(p) then p
    else if DefaultFamilyFor(p.catId) != Some(TransferPot) then
      p.(link := Some(DefaultAccountId(space, DefaultFamilyFor(p.catId).value)))
    else if found.Some? then p.(link := Some(found.value.0), catId := MovementCatFor(found.value.1, amountCents))
    else p.(catId := Uncategorized)
  }

  function FoldedParts(parts: seq<Part>, space: SpaceId, found: Option<(AccountId, AccountType)>, amountCents: int)
    : seq<Part>
  {
    seq(|parts|, i requires 0 <= i < |parts| => FoldedPart(parts[i], space, found, amountCents))
  }

  // a transfer part that no account was found for
  predicate SendsBack(parts: seq<Part>, found: Option<(AccountId, AccountType)>) {
    found.None? && exists p :: p in parts && BarePart(p) && DefaultFamilyFor(p.catId) == Some(TransferPot)
  }

  // what the pass writes for an unsettled row
  function HealPatch(o: Opinions, space: SpaceId, found: Option<(AccountId, AccountType)>, amountCents: int): Patch
    requires Unsettled(o)
  {
    if |PartsIn(o)| > 1 then
      NO_CHANGE.(splits := Set(Some(FoldedParts(PartsIn(o), space, found, amountCents))),
                 needsReview := if SendsBack(PartsIn(o), found) then Set(Some(true)) else Keep)
    else
      var family := DefaultFamilyFor(o.catId.value).value;
      if family.TransferPot? then ResolveBareTransfer(found, amountCents)
      else NO_CHANGE.(link := Set(Some(DefaultAccountId(space, family))))
  }

  lemma FoldedPartsFold(parts: seq<Part>, space: SpaceId, found: Option<(AccountId, AccountType)>, amountCents: int)
    ensures FoldsAll(parts, FoldedParts(parts, space, found, amountCents))
  {
  }

  // ---- one heal write ----

  // what the pass decided on (`o`) still fits what is stored
  ghost predicate StillFits(db: Db, ref: TxRef, o: Opinions)
    requires ref.id in db.txs
  {
    var m := Merged(db, ref);
    && DistinctIds(PartsIn(o)) && DistinctIds(PartsIn(m)) && Stores(db, ref, PartsIn(o))
    && (BareRow(o) ==> m.link.None? || LegShaped(ref.id, m))
  }

  // the opinions after the write: the row resolved as a whole, or every part of it resolved
  predicate Resolved(o: Opinions, m: Opinions, after: Opinions) {
    || (|PartsIn(o)| <= 1 && |PartsIn(m)| <= 1 && after.splits == m.splits &&
        (after.link.Some? || after.catId == Some(Uncategorized)))
    || (after.splits.Some? && |after.splits.value| > 1 && !HasBarePart(after))
  }

  function Healed(db: Db, ref: TxRef, o: Opinions, clue: Clue, amountCents: int): Db
    requires ref.id in db.txs && Unsettled(o)
  {
    var d := Prepared(db, o, ref.spaceId);
    if ref.id in d.txs then Write(d, ref, HealPatch(o, ref.spaceId, clue(ref.id, ref.spaceId), amountCents)) else d
  }

  // first the accounts, then the opinions, then mints
  lemma HealWrite(db: Db, ref: TxRef, o: Opinions, clue: Clue, amountCents: int)
    requires ref.id in db.txs && DefaultsTyped(db.accounts) && Unsettled(o) && StillFits(db, ref, o)
    ensures OnlyDefaults(db, Prepared(db, o, ref.spaceId))
    ensures var d := Prepared(db, o, ref.spaceId);
      var patch := HealPatch(o, ref.spaceId, clue(ref.id, ref.spaceId), amountCents);
      && ref.id in d.txs
      && var w := Written(d, ref, patch); var after := Apply(w, Merged(db, ref));
         && OnlyMinted(PutOpinions(d, ref, w), Healed(db, ref, o, clue, amountCents), ref.id)
         && DistinctIds(PartsIn(after)) && Resolved(o, Merged(db, ref), after)
  {
    PreparedIsTame(db, o, ref.spaceId);
    var d, found := Prepared(db, o, ref.spaceId), clue(ref.id, ref.spaceId);
    var patch := HealPatch(o, ref.spaceId, found, amountCents);
    assert Merged(d, ref) == Merged(db, ref);
    if |PartsIn(o)| > 1 {
      FoldedPartsFold(PartsIn(o), ref.spaceId, found, amountCents);
      FoldedContainer(d, ref, PartsIn(o), patch, FoldedParts(PartsIn(o), ref.spaceId, found, amountCents));
    } else {
      SettlingRow(d, ref, patch);
    }
  }

  // ---- the same on the store ----

  method EnsureDefaultAccount(store: Store, space: SpaceId, f: DefaultFamily) returns (id: AccountId)
    modifies store`accounts
    ensures id == DefaultAccountId(space, f)
    ensures store.View() == EnsureDefault(old(store.View()), space, f)
  {
    id := DefaultAccountId(space, f);
    if !(id in store.accounts && !store.accounts[id].deleted) {
      var asOf := if id in store.accounts then store.accounts[id].balanceAsOf else None;
      store.accounts := store.accounts[id := Account(space, FamilyAccountType(f), true, 0, asOf, false)];
    }
  }

  lemma LastSendsBack(parts: seq<Part>, last: Part, found: Option<(AccountId, AccountType)>)
    ensures SendsBack(parts + [last], found) <==>
      SendsBack(parts, found) || (found.None? && BarePart(last) && DefaultFamilyFor(last.catId) == Some(TransferPot))
  {
  }

  method FoldBareParts(store: Store, space: SpaceId, t: TxId, amountCents: int, parts: seq<Part>, clue: Clue)
    returns (next: seq<Part>, sendBack: bool)
    modifies store`accounts
    ensures next == FoldedParts(parts, space, clue(t, space), amountCents)
    ensures sendBack == SendsBack(parts, clue(t, space))
    ensures store.View() == EnsuredFor(old(store.View()), space, parts)
  {
    next, sendBack := [], false;
    for i := 0 to |parts|
      invariant next == FoldedParts(parts[..i], space, clue(t, space), amountCents)
      invariant sendBack == SendsBack(parts[..i], clue(t, space))
      invariant store.View() == EnsuredFor(old(store.View()), space, parts[..i])
    {
      var slice := parts[i];
      assert parts[..i + 1] == parts[..i] + [slice] && parts[..i + 1][..i] == parts[..i];
      LastSendsBack(parts[..i], slice, clue(t, space));
      if !BarePart(slice) {
        next := next + [slice];
      } else {
        var family := DefaultFamilyFor(slice.catId).value;
        if family.TransferPot? {
          var found := clue(t, space);
          if found.Some? {
            next := next + [slice.(link := Some(found.value.0), catId := MovementCatFor(found.value.1, amountCents))];
          } else {
            next := next + [slice.(catId := Uncategorized)];
            sendBack := true;
          }
        } else {
          var id := EnsureDefaultAccount(store, space, family);
          next := next + [slice.(link := Some(id))];
        }
      }
    }
    assert parts[..|parts|] == parts;
  }

  method MigrateRow(store: Store, stamps: map<AccountId, Account>, ref: TxRef, accountId: AccountId,
                    amountCents: int, o: Opinions, clue: Clue)
    returns (touched: bool)
    requires ref.id in store.txs
    modifies store
    ensures touched <==> !Stamped(stamps, accountId) && Unsettled(o)
    ensures store.View() == if touched then Healed(old(store.View()), ref, o, clue, amountCents) else old(store.View())
  {
    touched := false;
    if Stamped(stamps, accountId) {
      return;
    }
    var patch;
    if |PartsIn(o)| > 1 {
      if !HasBarePart(o) {
        return;
      }
      var next, sendBack := FoldBareParts(store, ref.spaceId, ref.id, amountCents, PartsIn(o), clue);
      patch := NO_CHANGE.(splits := Set(Some(next)), needsReview := if sendBack then Set(Some(true)) else Keep);
    } else {
      if !BareRow(o) {
        return;
      }
      var family := DefaultFamilyFor(o.catId.value).value;
      if family.TransferPot? {
        patch := ResolveBareTransfer(clue(ref.id, ref.spaceId), amountCents);
      } else {
        var id := EnsureDefaultAccount(store, ref.spaceId, family);
        patch := NO_CHANGE.(link := Set(Some(id)));
      }
    }
    WriteTxTransform(store, ref, patch);
    touched := true;
  }
}
