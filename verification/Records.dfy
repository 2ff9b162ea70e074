/**
 The rows the application stores, as one value. Identifiers that the program derives
 (a minted counter leg, the source key of a split part) are constructors, so they are
 injective and never meet each other or a stored row's own name.
 */
module Records {

  datatype Option<+T> = None | Some(value: T)

  type AccountId = string
  type SpaceId = string
  // an ISO day; the text order of ISO days is the order of their ordinals
  type Date = int

  datatype TxId =
    | Row(name: string)
    | PartKey(tx: TxId, part: string)
    | Mirror(source: TxId)

  // no id twice
  ghost predicate Once(s: seq<TxId>) {
    forall i, j :: 0 <= i < j < |s| ==> s[i] != s[j]
  }

  datatype AccountType = Checking | Savings | Cash | Brokerage | Credit | Mortgage | Loan | Funding

  predicate IsLiability(kind: AccountType) {
    kind.Credit? || kind.Mortgage? || kind.Loan?
  }

  datatype Account = Account(
    spaceId: SpaceId, kind: AccountType, manual: bool,
    balanceCents: int, balanceAsOf: Option<Date>, deleted: bool)

  // the built-in movement categories by name, every other category by id
  datatype Cat =
    | Uncategorized
    | SavingDeposit | SavingWithdraw
    | LoanRepayment | DebtBorrowed
    | InvestContribution | InvestWithdraw
    | TransferOut | TransferIn
    | CashWithdraw | CashDeposit
    | FundingOut | FundingIn
    | Plain(id: string)

  // a part of a split container; `amountCents` is a magnitude
  datatype Part = Part(
    id: Option<string>, catId: Cat, amountCents: int,
    link: Option<AccountId>, peer: Option<TxId>)

  datatype Reimbursement = Reimbursement(txId: TxId, amountCents: int)

  // what a space thinks about a transaction: on the row itself, or on the space's overlay
  datatype Opinions = Opinions(
    catId: Option<Cat>, needsReview: Option<bool>,
    notes: Option<string>, titleOverride: Option<string>, cats: Option<seq<(Cat, int)>>,
    splits: Option<seq<Part>>, reimbursements: Option<seq<Reimbursement>>,
    link: Option<AccountId>, peer: Option<TxId>,
    recurringId: Option<string>, eventId: Option<string>, loanCounted: Option<bool>)

  const NO_OPINIONS := Opinions(None, None, None, None, None, None, None, None, None, None, None, None)

  // `deleted` is the tombstone: the row keeps its fields and a later write revives it
  datatype Tx = Tx(
    spaceId: SpaceId, accountId: AccountId, date: Date, amountCents: int,
    pending: bool, deleted: bool, ops: Opinions)

  datatype Meta = Meta(ops: Opinions, deleted: bool)

  datatype Db = Db(
    accounts: map<AccountId, Account>,
    txs: map<TxId, Tx>,
    metas: map<(SpaceId, TxId), Meta>)

  // one field of a write: absent, or present with a value (None is the explicit null)
  datatype Change<+T> = Keep | Set(value: Option<T>)

  function Changed<T>(c: Change<T>, was: Option<T>): Option<T> {
    match c
    case Keep => was
    case Set(v) => v
  }

  datatype Patch = Patch(
    catId: Change<Cat>, needsReview: Change<bool>,
    notes: Change<string>, titleOverride: Change<string>, cats: Change<seq<(Cat, int)>>,
    splits: Change<seq<Part>>, reimbursements: Change<seq<Reimbursement>>,
    link: Change<AccountId>, peer: Change<TxId>,
    recurringId: Change<string>, eventId: Change<string>, loanCounted: Change<bool>)

  const NO_CHANGE := Patch(Keep, Keep, Keep, Keep, Keep, Keep, Keep, Keep, Keep, Keep, Keep, Keep)

  function Apply(p: Patch, o: Opinions): Opinions {
    Opinions(
      Changed(p.catId, o.catId), Changed(p.needsReview, o.needsReview),
      Changed(p.notes, o.notes), Changed(p.titleOverride, o.titleOverride), Changed(p.cats, o.cats),
      Changed(p.splits, o.splits), Changed(p.reimbursements, o.reimbursements),
      Changed(p.link, o.link), Changed(p.peer, o.peer),
      Changed(p.recurringId, o.recurringId), Changed(p.eventId, o.eventId),
      Changed(p.loanCounted, o.loanCounted))
  }

  // ---- the kinds of money movement an account's type and a category stand for ----

  datatype Family = SavingFamily | DebtFamily | InvestFamily | TransferFamily | FundingFamily

  function AccountStamp(kind: AccountType): Option<Family> {
    match kind
    case Savings => Some(SavingFamily)
    case Mortgage => Some(DebtFamily)
    case Loan => Some(DebtFamily)
    case Brokerage => Some(InvestFamily)
    case _ => None
  }

  function FamilyForCounter(kind: AccountType): Family {
    match AccountStamp(kind)
    case Some(f) => f
    case None => if kind.Funding? then FundingFamily else TransferFamily
  }

  function AutoSubFor(family: Family, amountCents: int): Cat {
    var debit := amountCents < 0;
    match family
    case SavingFamily => if debit then SavingDeposit else SavingWithdraw
    case DebtFamily => if debit then LoanRepayment else DebtBorrowed
    case InvestFamily => if debit then InvestContribution else InvestWithdraw
    case TransferFamily => if debit then TransferOut else TransferIn
    case FundingFamily => if debit then FundingOut else FundingIn
  }

  function MovementCatFor(kind: AccountType, amountCents: int): Cat {
    if kind.Cash? then
      if amountCents < 0 then CashWithdraw else CashDeposit
    else AutoSubFor(FamilyForCounter(kind), amountCents)
  }

  // the movement a stamped account's own row files: + is money into the pot
  function StampMovementSub(family: Family, amountCents: int): Option<Cat> {
    var into := amountCents >= 0;
    match family
    case SavingFamily => Some(if into then SavingDeposit else SavingWithdraw)
    case DebtFamily => Some(if into then LoanRepayment else DebtBorrowed)
    case InvestFamily => Some(if into then InvestContribution else InvestWithdraw)
    case _ => None
  }

  predicate IsMovementCat(c: Option<Cat>) {
    c.Some? && !c.value.Uncategorized? && !c.value.Plain?
  }

  // ---- what the categories mean ----

  // the pair of movements to and from an account of this kind
  predicate MovesWith(c: Cat, kind: AccountType) {
    match kind
    case Savings => c.SavingDeposit? || c.SavingWithdraw?
    case Brokerage => c.InvestContribution? || c.InvestWithdraw?
    case Cash => c.CashWithdraw? || c.CashDeposit?
    case Funding => c.FundingOut? || c.FundingIn?
    case Checking => c.TransferOut? || c.TransferIn?
    case Credit => c.TransferOut? || c.TransferIn?
    case Mortgage => c.LoanRepayment? || c.DebtBorrowed?
    case Loan => c.LoanRepayment? || c.DebtBorrowed?
  }

  // the one of each pair that takes money to the account, out of the row's own
  predicate PaysInto(c: Cat) {
    c.SavingDeposit? || c.LoanRepayment? || c.InvestContribution? || c.TransferOut? || c.CashWithdraw? || c.FundingOut?
  }

  // an account whose own rows are filed by what the account is for
  predicate IsPot(kind: AccountType) { kind.Savings? || kind.Brokerage? || kind.Mortgage? || kind.Loan? }

}
