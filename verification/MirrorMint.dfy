/**
 The mint engine: linking a transaction (or a split part) to a manual account creates the
 counter leg on that account and moves its balance; relinking, unlinking and resizing undo
 exactly that. A plan reads the store once; its steps run afterwards.
 */
module MirrorMint {
  import opened Records

  datatype Source = Source(id: TxId, accountId: AccountId, amountCents: int, date: Date, loanCounted: bool)

  // what a plan does later; every step carries the account row the plan read
  datatype Step =
    | Retire(id: AccountId, account: Account, source: Source)
    | Resize(id: AccountId, account: Account, source: Source, delta: int)
    | Mint(id: AccountId, account: Account, source: Source, catId: Cat, adopted: bool)

  // `peer` is what the source row's own write must carry
  datatype MirrorPlan = MirrorPlan(peer: Change<TxId>, steps: seq<Step>)

  // ---- the store operations a step uses ----

  predicate Live(db: Db, id: TxId) {
    id in db.txs && !db.txs[id].deleted
  }

  // the account's fresh balance moves; a missing or deleted account is left alone
  function AddBalance(db: Db, id: AccountId, delta: int): Db {
    if id in db.accounts && !db.accounts[id].deleted then
      db.(accounts := db.accounts[id := db.accounts[id].(balanceCents := db.accounts[id].balanceCents + delta)])
    else db
  }

  function RemoveTx(db: Db, space: SpaceId, id: TxId): Db {
    if id in db.txs then db.(txs := db.txs[id := db.txs[id].(spaceId := space, deleted := true)]) else db
  }

  function PutAmount(db: Db, space: SpaceId, id: TxId, amountCents: int): Db {
    if id in db.txs then
      db.(txs := db.txs[id := db.txs[id].(spaceId := space, amountCents := amountCents, deleted := false)])
    else db
  }

  // a partial overwrite: a tombstone under this id keeps its other fields and revives
  function PutMirror(db: Db, account: Account, id: AccountId, source: Source, catId: Cat): Db {
    var mid := Mirror(source.id);
    var base := if mid in db.txs then db.txs[mid]
                else Tx(account.spaceId, id, source.date, 0, false, false, NO_OPINIONS);
    db.(txs := db.txs[mid := base.(
      spaceId := account.spaceId, accountId := id, date := source.date,
      amountCents := -source.amountCents, deleted := false,
      ops := base.ops.(catId := Some(catId), needsReview := Some(false),
                       link := Some(source.accountId), peer := Some(source.id)))])
  }

  // ---- plans ----

  // the space's own manual account, never a funding pot
  predicate Mintable(db: Db, id: Option<AccountId>) {
    id.Some? && id.value in db.accounts &&
    var a := db.accounts[id.value]; !a.deleted && a.manual && !a.kind.Funding?
  }

  // strictly newer than the day the balance was known true, unless counted in by hand
  predicate CountsTowardLoan(account: Account, date: Date, loanCounted: bool) {
    loanCounted || account.balanceAsOf.None? || date > account.balanceAsOf.value
  }

  predicate Moves(account: Account, date: Date, loanCounted: bool) {
    !IsLiability(account.kind) || CountsTowardLoan(account, date, loanCounted)
  }

  predicate BalanceMoves(account: Account, source: Source) {
    Moves(account, source.date, source.loanCounted)
  }

  // a live minted leg: the account it sits on, its money and the source it points back at
  datatype Leg = Leg(account: AccountId, cents: int, back: Option<TxId>)

  function LegOf(db: Db, x: TxId): Option<Leg> {
    if Live(db, Mirror(x)) then
      var m := db.txs[Mirror(x)]; Some(Leg(m.accountId, m.amountCents, m.ops.peer))
    else None
  }

  predicate LegOn(db: Db, x: TxId, id: Option<AccountId>) {
    LegOf(db, x).Some? && id == Some(LegOf(db, x).value.account)
  }

  predicate Retires(db: Db, s: Source, prev: Option<AccountId>, next: Option<AccountId>, peer: Option<TxId>) {
    prev.Some? && prev != next && peer == Some(Mirror(s.id)) && Mintable(db, prev) && LegOn(db, s.id, prev)
  }

  predicate Resizes(db: Db, s: Source, prev: Option<AccountId>, next: Option<AccountId>, peer: Option<TxId>) {
    prev.Some? && prev == next && peer == Some(Mirror(s.id)) && Mintable(db, next) && LegOn(db, s.id, next) &&
    LegOf(db, s.id).value.cents != -s.amountCents
  }

  predicate Mints(db: Db, s: Source, prev: Option<AccountId>, next: Option<AccountId>,
                  peer: Option<TxId>, incoming: Option<TxId>)
  {
    next.Some? && next != prev && incoming.None? && Mintable(db, next) &&
    (peer.None? || peer == Some(Mirror(s.id)) || Retires(db, s, prev, next, peer))
  }

  function MintCat(db: Db, kind: AccountType, s: Source): Cat {
    var stamp := AccountStamp(kind);
    if stamp.Some? && StampMovementSub(stamp.value, -s.amountCents).Some? then
      StampMovementSub(stamp.value, -s.amountCents).value
    else if s.accountId in db.accounts then
      MovementCatFor(db.accounts[s.accountId].kind, -s.amountCents)
    else AutoSubFor(TransferFamily, -s.amountCents)
  }

  function RetireStep(db: Db, s: Source, id: AccountId): Step
    requires id in db.accounts
  {
    Retire(id, db.accounts[id], s)
  }

  function ResizeStep(db: Db, s: Source, id: AccountId): Step
    requires id in db.accounts && LegOf(db, s.id).Some?
  {
    Resize(id, db.accounts[id], s, -s.amountCents - LegOf(db, s.id).value.cents)
  }

  function MintStep(db: Db, s: Source, id: AccountId): Step
    requires id in db.accounts
  {
    Mint(id, db.accounts[id], s, MintCat(db, db.accounts[id].kind, s), LegOn(db, s.id, Some(id)))
  }

  function PlanOf(db: Db, s: Source, prev: Option<AccountId>, next: Option<AccountId>,
                  peer: Option<TxId>, incoming: Option<TxId>): MirrorPlan
  {
    var retire := if Retires(db, s, prev, next, peer) then [RetireStep(db, s, prev.value)] else [];
    var resize := if Resizes(db, s, prev, next, peer) then [ResizeStep(db, s, next.value)] else [];
    var mints := Mints(db, s, prev, next, peer, incoming);
    var mint := if mints then [MintStep(db, s, next.value)] else [];
    MirrorPlan(
      if mints then Set(Some(Mirror(s.id))) else if retire != [] then Set(None) else Keep,
      retire + resize + mint)
  }

  function RunStep(db: Db, step: Step): Db {
    match step
    case Retire(id, account, s) =>
      var gone := RemoveTx(db, account.spaceId, Mirror(s.id));
      if BalanceMoves(account, s) then AddBalance(gone, id, s.amountCents) else gone
    case Resize(id, account, s, delta) =>
      var sized := PutAmount(db, account.spaceId, Mirror(s.id), -s.amountCents);
      if BalanceMoves(account, s) then AddBalance(sized, id, delta) else sized
    case Mint(id, account, s, catId, adopted) =>
      if adopted then db
      else
        var minted := PutMirror(db, account, id, s, catId);
        if BalanceMoves(account, s) then AddBalance(minted, id, -s.amountCents) else minted
  }

  function RunSteps(db: Db, steps: seq<Step>): Db
    decreases |steps|
  {
    if steps == [] then db else RunSteps(RunStep(db, steps[0]), steps[1..])
  }

  // ---- the store as the program holds it, and the engine's two halves over it ----

  class Store {
    var accounts: map<AccountId, Account>
    var txs: map<TxId, Tx>
    var metas: map<(SpaceId, TxId), Meta>

    function View(): Db
      reads this
    {
      Db(accounts, txs, metas)
    }

    constructor (db: Db)
      ensures View() == db
    {
      accounts, txs, metas := db.accounts, db.txs, db.metas;
    }

    method MoveBalance(id: AccountId, delta: int)
      modifies this`accounts
      ensures View() == AddBalance(old(View()), id, delta)
    {
      if id in accounts && !accounts[id].deleted {
        accounts := accounts[id := accounts[id].(balanceCents := accounts[id].balanceCents + delta)];
      }
    }
  }

  method PlanMirrorChange(store: Store, source: Source, prev: Option<AccountId>, next: Option<AccountId>,
                          currentPeer: Option<TxId>, incomingPeer: Option<TxId>)
    returns (plan: MirrorPlan)
    ensures plan == PlanOf(store.View(), source, prev, next, currentPeer, incomingPeer)
  {
    var db := store.View();
    var steps: seq<Step> := [];
    var peer: Change<TxId> := Keep;
    var mid := Mirror(source.id);
    // the old link loses our own mint; a picked or bank-fed peer is left alone
    if prev.Some? && prev != next && currentPeer == Some(mid) {
      if Mintable(db, prev) && LegOn(db, source.id, prev) {
        steps := steps + [RetireStep(db, source, prev.value)];
        peer := Set(None);
      }
    }
    if prev.Some? && prev == next && currentPeer == Some(mid) {
      if Mintable(db, next) && LegOn(db, source.id, next) && LegOf(db, source.id).value.cents != -source.amountCents {
        steps := steps + [ResizeStep(db, source, next.value)];
      }
    }
    if next.Some? && next != prev && incomingPeer.None? {
      if Mintable(db, next) && (currentPeer.None? || currentPeer == Some(mid) || peer == Set(None)) {
        steps := steps + [MintStep(db, source, next.value)];
        peer := Set(Some(mid));
      }
    }
    plan := MirrorPlan(peer, steps);
  }

  method ExecuteStep(store: Store, step: Step)
    modifies store
    ensures store.View() == RunStep(old(store.View()), step)
  {
    match step {
      case Retire(id, account, s) =>
        store.txs := RemoveTx(store.View(), account.spaceId, Mirror(s.id)).txs;
        if BalanceMoves(account, s) {
          store.MoveBalance(id, s.amountCents);
        }
      case Resize(id, account, s, delta) =>
        store.txs := PutAmount(store.View(), account.spaceId, Mirror(s.id), -s.amountCents).txs;
        if BalanceMoves(account, s) {
          store.MoveBalance(id, delta);
        }
      case Mint(id, account, s, catId, adopted) =>
        if !adopted {
          store.txs := PutMirror(store.View(), account, id, s, catId).txs;
          if BalanceMoves(account, s) {
            store.MoveBalance(id, -s.amountCents);
          }
        }
    }
  }

  method Execute(store: Store, plan: MirrorPlan)
    modifies store
    ensures store.View() == RunSteps(old(store.View()), plan.steps)
  {
    var i := 0;
    while i < |plan.steps|
      invariant 0 <= i <= |plan.steps|
      invariant RunSteps(store.View(), plan.steps[i..]) == RunSteps(old(store.View()), plan.steps)
    {
      assert plan.steps[i..][0] == plan.steps[i] && plan.steps[i..][1..] == plan.steps[i + 1..];
      ExecuteStep(store, plan.steps[i]);
      i := i + 1;
    }
  }

  /** The heal door: mints the leg of a link made before the engine existed; the minted leg's id
      comes back when there is one. */
  method MintMirrorForExistingLink(store: Store, source: Source, linked: Option<AccountId>, currentPeer: Option<TxId>)
    returns (mid: Option<TxId>)
    modifies store
    ensures var q := Ask(source, None, linked, currentPeer, None);
      && mid == (if q.Minting(old(store.View())) then Some(Mirror(source.id)) else None)
      && store.View() == RunSteps(old(store.View()), if mid.Some? then q.Plan(old(store.View())).steps else [])
  {
    if linked.None? {
      return None;
    }
    var plan := PlanMirrorChange(store, source, None, linked, currentPeer, None);
    if plan.peer.Keep? || plan.peer.value.None? {
      return None;
    }
    Execute(store, plan);
    mid := plan.peer.value;
  }

  /** Deleting a source takes its leg along, whatever peer the row shows. */
  method RemoveMirrorForDeletedSource(store: Store, source: Source, linked: Option<AccountId>)
    modifies store
    ensures var q := Ask(source, linked, None, Some(Mirror(source.id)), None);
      store.View() == RunSteps(old(store.View()), q.Plan(old(store.View())).steps)
  {
    var plan := PlanMirrorChange(store, source, linked, None, Some(Mirror(source.id)), None);
    Execute(store, plan);
  }

  // ---- how both legs read ----

  /** A leg minted on a stamped account is filed like the row that pays it: money into a savings pot
      is a deposit on either side. A row of no money is the one exception. */
  lemma BothLegsFileAlike(db: Db, kind: AccountType, s: Source)
    requires AccountStamp(kind).Some?
    ensures MintCat(db, kind, s) == MovementCatFor(kind, s.amountCents) <==> s.amountCents != 0
  {
  }

  // ---- what one plan does to the books ----

  function Balance(db: Db, id: AccountId): int {
    if id in db.accounts then db.accounts[id].balanceCents else 0
  }

  // same accounts, only their balances may differ
  ghost predicate SameKinds(d: Db, e: Db) {
    d.accounts.Keys == e.accounts.Keys &&
    forall a :: a in d.accounts ==>
      e.accounts[a] == d.accounts[a].(balanceCents := e.accounts[a].balanceCents)
  }

  // every transaction row except possibly `id` is the same, and so is every overlay
  ghost predicate SameBut(d: Db, e: Db, id: TxId) {
    d.txs.Keys <= e.txs.Keys <= d.txs.Keys + {id} &&
    (forall k :: k in d.txs && k != id ==> e.txs[k] == d.txs[k]) &&
    d.metas == e.metas
  }

  // the change one step makes to the balance of its own account
  function StepChange(step: Step): int {
    if !BalanceMoves(step.account, step.source) then 0
    else match step
      case Retire(_, _, s) => s.amountCents
      case Resize(_, _, _, delta) => delta
      case Mint(_, _, s, _, adopted) => if adopted then 0 else -s.amountCents
  }

  function StepLeg(db: Db, step: Step): Option<Leg> {
    match step
    case Retire(_, _, _) => None
    case Resize(_, _, s, _) =>
      if Mirror(s.id) in db.txs then
        var m := db.txs[Mirror(s.id)]; Some(Leg(m.accountId, -s.amountCents, m.ops.peer))
      else None
    case Mint(id, _, s, _, adopted) => if adopted then LegOf(db, s.id) else Some(Leg(id, -s.amountCents, Some(s.id)))
  }

  lemma AddBalanceEffect(db: Db, id: AccountId, delta: int)
    requires id in db.accounts && !db.accounts[id].deleted
    ensures var f := AddBalance(db, id, delta);
      && SameKinds(db, f) && f.txs == db.txs && f.metas == db.metas
      && forall a :: Balance(f, a) == Balance(db, a) + (if a == id then delta else 0)
  {
  }

  // the transaction half of a step, and the amount it moves afterwards
  function RowHalf(db: Db, step: Step): Db {
    match step
    case Retire(_, account, s) => RemoveTx(db, account.spaceId, Mirror(s.id))
    case Resize(_, account, s, _) => PutAmount(db, account.spaceId, Mirror(s.id), -s.amountCents)
    case Mint(id, account, s, catId, adopted) => if adopted then db else PutMirror(db, account, id, s, catId)
  }

  lemma RowHalfEffect(db: Db, step: Step)
    ensures var f := RowHalf(db, step);
      && f.accounts == db.accounts && SameBut(db, f, Mirror(step.source.id))
      && LegOf(f, step.source.id) == StepLeg(db, step)
  {
  }

  lemma StepEffect(db: Db, step: Step)
    requires step.id in db.accounts && !db.accounts[step.id].deleted
    ensures var f := RunStep(db, step);
      && SameKinds(db, f) && SameBut(db, f, Mirror(step.source.id))
      && LegOf(f, step.source.id) == StepLeg(db, step)
      && forall a :: Balance(f, a) == Balance(db, a) + (if a == step.id then StepChange(step) else 0)
  {
    RowHalfEffect(db, step);
    var half := RowHalf(db, step);
    var delta := StepChange(step);
    if BalanceMoves(step.account, step.source) && !(step.Mint? && step.adopted) {
      AddBalanceEffect(half, step.id, delta);
      assert RunStep(db, step) == AddBalance(half, step.id, delta);
    } else {
      assert RunStep(db, step) == half;
    }
  }

  lemma RunOne(e: Db, step: Step)
    ensures RunSteps(e, [step]) == RunStep(e, step)
  {
    assert [step][1..] == [];
    assert RunSteps(e, [step]) == RunSteps(RunStep(e, step), []);
  }

  lemma RunTwo(e: Db, a: Step, b: Step)
    ensures RunSteps(e, [a, b]) == RunStep(RunStep(e, a), b)
  {
    assert [a, b][1..] == [b];
    assert RunSteps(e, [a, b]) == RunSteps(RunStep(e, a), [b]);
    RunOne(RunStep(e, a), b);
  }

  lemma RetireMintEffect(e: Db, a: Step, b: Step)
    requires a.Retire? && b.Mint? && !b.adopted && a.source == b.source
    requires a.id in e.accounts && !e.accounts[a.id].deleted
    requires b.id in e.accounts && !e.accounts[b.id].deleted
    ensures var f := RunStep(RunStep(e, a), b);
      && SameKinds(e, f) && SameBut(e, f, Mirror(a.source.id))
      && LegOf(f, a.source.id) == Some(Leg(b.id, -b.source.amountCents, Some(b.source.id)))
      && forall c :: Balance(f, c) == Balance(e, c) + (if c == a.id then StepChange(a) else 0)
                                                    + (if c == b.id then StepChange(b) else 0)
  {
    StepEffect(e, a);
    StepEffect(RunStep(e, a), b);
  }

  // the plan's arguments, as one value
  datatype Ask = Ask(source: Source, prev: Option<AccountId>, next: Option<AccountId>,
                     peer: Option<TxId>, incoming: Option<TxId>)
  {
    predicate Retiring(db: Db) { Retires(db, source, prev, next, peer) }
    predicate Resizing(db: Db) { Resizes(db, source, prev, next, peer) }
    predicate Minting(db: Db) { Mints(db, source, prev, next, peer, incoming) }
    function Plan(db: Db): MirrorPlan { PlanOf(db, source, prev, next, peer, incoming) }
    function NextLeg(db: Db): Option<Leg> {
      if Minting(db) then
        if LegOn(db, source.id, next) then LegOf(db, source.id)
        else Some(Leg(next.value, -source.amountCents, Some(source.id)))
      else if Retiring(db) then None
      else if Resizing(db) then Some(LegOf(db, source.id).value.(cents := -source.amountCents))
      else LegOf(db, source.id)
    }
    // how far the plan moves the balance of account `a`
    function Moved(db: Db, a: AccountId): int {
      if a in db.accounts && BalanceMoves(db.accounts[a], source) then
        (if Retiring(db) && prev == Some(a) then source.amountCents else 0) +
        (if Resizing(db) && next == Some(a) then -source.amountCents - LegOf(db, source.id).value.cents else 0) +
        (if Minting(db) && next == Some(a) && !LegOn(db, source.id, next) then -source.amountCents else 0)
      else 0
    }
  }

  // `e` is a later store in which the accounts and the plan's own leg are still those of `d`
  ghost predicate Unmoved(d: Db, e: Db, x: TxId) {
    && SameKinds(d, e)
    && (Mirror(x) in d.txs) == (Mirror(x) in e.txs)
    && (Mirror(x) in d.txs ==> d.txs[Mirror(x)] == e.txs[Mirror(x)])
  }

  // one leg and the named balances change, nothing else
  ghost predicate Effect(d: Db, e: Db, f: Db, q: Ask) {
    && SameKinds(e, f) && SameBut(e, f, Mirror(q.source.id))
    && LegOf(f, q.source.id) == q.NextLeg(d)
    && forall a :: Balance(f, a) == Balance(e, a) + q.Moved(d, a)
  }

  lemma RetireMintPlan(d: Db, e: Db, q: Ask)
    requires Unmoved(d, e, q.source.id) && q.Retiring(d) && q.Minting(d)
    ensures Effect(d, e, RunSteps(e, q.Plan(d).steps), q)
  {
    var r, m := RetireStep(d, q.source, q.prev.value), MintStep(d, q.source, q.next.value);
    assert q.Plan(d).steps == [r, m];
    assert r.id in e.accounts && m.id in e.accounts && !m.adopted;
    assert forall a ::
        q.Moved(d, a) == (if a == r.id then StepChange(r) else 0) + (if a == m.id then StepChange(m) else 0);
    assert q.NextLeg(d) == Some(Leg(m.id, -m.source.amountCents, Some(m.source.id)));
    RetireMintEffect(e, r, m);
    RunTwo(e, r, m);
  }

  lemma RetirePlan(d: Db, e: Db, q: Ask)
    requires Unmoved(d, e, q.source.id) && q.Retiring(d) && !q.Minting(d)
    ensures Effect(d, e, RunSteps(e, q.Plan(d).steps), q)
  {
    var r := RetireStep(d, q.source, q.prev.value);
    assert q.Plan(d).steps == [r];
    RunOne(e, r);
    StepEffect(e, r);
  }

  lemma ResizePlan(d: Db, e: Db, q: Ask)
    requires Unmoved(d, e, q.source.id) && q.Resizing(d)
    ensures Effect(d, e, RunSteps(e, q.Plan(d).steps), q)
  {
    var z := ResizeStep(d, q.source, q.next.value);
    assert q.Plan(d).steps == [z];
    RunOne(e, z);
    StepEffect(e, z);
    assert LegOf(e, q.source.id) == LegOf(d, q.source.id);
  }

  lemma MintPlan(d: Db, e: Db, q: Ask)
    requires Unmoved(d, e, q.source.id) && !q.Retiring(d) && q.Minting(d)
    ensures Effect(d, e, RunSteps(e, q.Plan(d).steps), q)
  {
    var m := MintStep(d, q.source, q.next.value);
    assert q.Plan(d).steps == [m];
    RunOne(e, m);
    StepEffect(e, m);
    assert LegOf(e, q.source.id) == LegOf(d, q.source.id);
  }

  /** A plan made on `d` and run on a later store `e` whose accounts and whose own leg are
      still the ones the plan read changes that one leg and the balances it names, nothing else. */
  lemma PlanEffect(d: Db, e: Db, q: Ask)
    requires Unmoved(d, e, q.source.id)
    ensures Effect(d, e, RunSteps(e, q.Plan(d).steps), q)
  {
    if q.Retiring(d) && q.Minting(d) {
      RetireMintPlan(d, e, q);
    } else if q.Retiring(d) {
      RetirePlan(d, e, q);
    } else if q.Resizing(d) {
      ResizePlan(d, e, q);
    } else if q.Minting(d) {
      MintPlan(d, e, q);
    } else {
      assert q.Plan(d).steps == [];
      assert LegOf(e, q.source.id) == LegOf(d, q.source.id);
    }
  }
}
