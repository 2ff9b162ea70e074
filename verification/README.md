# Verified model of the finance app's stateful core

A Dafny 4.11 model of the parts of the web app whose guarantees only show over whole runs, with
the proofs that they hold, or the exact condition under which they do.

* **Mirror ledger** (`Records`, `MirrorMint`, `Joined`, `Ledger*`, `Sums`, `Numbers`): linking a
  row or a split part to a manual account mints a counter leg there and moves its balance. The
  store is three maps; a write is a partial overwrite that revives a tombstone, a removal a
  tombstone. The ids of legs and part sources are constructors, hence injective. A feed row can be
  seen by several spaces, so the books name the space that keeps each row (`Ledger.Home`): the one
  whose links on it mint. `LedgerWrite` gives the exact effect of any write on any store,
  `LedgerRuns` the exact conditions under which the keeper's write keeps the books, `LedgerHands`
  those for any other space and for edits of a leg, `LedgerBypass` those for writes that go around
  the choke point, `LedgerSteps` the conservation law over runs, `LedgerLimits` a concrete store
  for each way a write can break it. `LedgerFacts` and `LedgerParts` tell from the stored fields
  alone which accounts can be touched and where the money of a link or a part goes.
* **Around the ledger**: `TransferPairs` (pairing the legs of a transfer), `BootHeal*` (the heal
  that runs on every boot: one write, a pass over the store, the loops, what a pass leaves),
  `JoinedViews` (what a space sees).
* **Schedulers as step systems**: `MatchScheduler`, `SqlBackend`, `DexieBackend`,
  `SharedQueries`. Timers, idle slots, commits and completions are events; the classes are the
  program's objects, and the lemmas quantify over every schedule.
* **Budgets**: `Calendar`, `BudgetCycles`, `BudgetCarry`. **Loans**: `Debts`.
* **Links between rows**: `ReceiptLinks`, `Reconcile`, `RecurringLinks`.

Code that changes things step by step is a method (on a class where the program has an object),
proved equal to a function of the state; the lemmas are about that function. The modules named
`...Facts` (and `LedgerParts`) say what those functions decide in terms of the stored fields,
without naming the helper that decides it: `LedgerFacts`, `BootHealFacts`, `TransferFacts`,
`BudgetFacts`, `DexieFacts`, `ReconcileFacts`, `ReceiptFacts`, `RecurringFacts`.

## What the code does not keep

Where a promise fails on some inputs, the failing family is pinned down and a concrete store shows
it:

* A part that changes its counterparty and its amount in one write is refunded the new amount
  (`LedgerLimits.MovedPartRefundsItsNewAmount`; exact: `LedgerRuns.PartKeepsBases`).
* Clearing the splits of a row, or deleting a split row, leaves its parts' legs behind
  (`LedgerLimits.ClearedSplitsOrphanLegs`, `LedgerLimits.DeletedSplitRowOrphansLegs`; exact:
  `LedgerRuns.OrderKept`, `LedgerSteps.DeleteKeeps`).
* A part that leaves a foreign row for a mintable account and claims its own leg in the same write
  gets none (`LedgerLimits.PartClaimsALegItNeverGets`; exact: `LedgerRuns.PartLegFits`).
* A count flag that rides a relink refunds a leg that never counted
  (`LedgerLimits.CountedRelinkRefundsTooMuch`; exact: `LedgerRuns.BasesKept`).
* Counting in a row that has no leg moves the loan with nothing to show for it
  (`LedgerLimits.CountedWithoutALeg`; exact: `LedgerSteps.CountInKeeps`), and a caller that has not
  seen the marker counts it in again (`LedgerLimits.StaleTapCountsTwice`; exact:
  `LedgerSteps.TapMoves`, `LedgerSteps.CountedOnce`).
* A leg's id names the row, not the space: two spaces that link one feed row share it
  (`LedgerLimits.SecondSpaceTakesTheLegOver`; exact: `LedgerHands.OtherSpacesWrite`).
* A leg that is kept when its pair is undone stays on its account although nothing asks for it
  (`LedgerLimits.KeptLegLeavesTheBooks`; exact: `LedgerHands.LegEdited`).
* A reconciliation removes and overwrites rows without the mint engine: a linked import's leg stays
  behind, and so does that of a row whose link is overwritten (`LedgerLimits.PlainWritesOrphanLegs`;
  exact, for one write and for a whole run: `LedgerBypass.PlainRemoval`,
  `LedgerBypass.PlainOverwrite`, `LedgerBypass.ReconciliationKeeps`).
* A truth row's own reimbursement links are overwritten by those of the import handed over to it
  (`Reconcile.OwnLinksLost`; exact: `Reconcile.OwnLinksSurvive`).
* The boot heal comment promises idempotence; a retired leg that was split into bare parts comes
  back when its source is healed, and the next boot has work again
  (`BootHealLeft.RevivedContainerIsLeft`; exact: `BootHealLast.PassEndsSettled`, and from the
  starting store `BootHealLeft.SettledExactlyWhen`).
* A deleted overlay's old fields return with the next write (`JoinedViews.DeletedOverlayReturns`;
  exact: `JoinedViews.OpinionsShow`).
* A refused transaction can be proposed again once the link was removed, though the comment says
  never (`ReceiptLinks.RemovalForgetsTheRefusal`; exact: `ReceiptLinks.AsksRefusedExactlyWhen`).
* A receipt attached to an ignored or unmatched import still names it after the import is removed
  (`Reconcile.IgnoredImportStaysNamed`; in general: `Reconcile.UnhandedImportStaysNamed`).
* A live query is said never to observe a half-applied batch; one that ran beside a transaction
  that was rolled back did, and nothing corrects it (`SqlBackend.RollbackLeavesTheAnswer`; exact:
  `SqlBackend.ExposedExactlyWhen`, `SqlBackend.HalfAppliedIsSuperseded`).

## Model

| member | source | states |
|---|---|---|
| MirrorMint.PlanMirrorChange | apps/web/src/application/mirrorMint.ts:95-190 | the plan for a link change: our own leg on the old account retires, one on an unchanged account resizes, a fresh link to the space's own manual account mints (or adopts a live leg), and the peer the row must carry; a picked or bank-fed peer is never touched |
| MirrorMint.ExecuteStep | apps/web/src/application/mirrorMint.ts:71-82 | running one step of a plan changes the leg it names and the fresh balance of its own account, a deleted account being left alone |
| MirrorMint.Execute | apps/web/src/application/mirrorMint.ts:184-189 | the steps run in order, each on what the one before left |
| MirrorMint.MintMirrorForExistingLink | apps/web/src/application/mirrorMint.ts:197-210 | the heal door mints the missing leg of an existing link and names it, or does nothing |
| MirrorMint.RemoveMirrorForDeletedSource | apps/web/src/application/mirrorMint.ts:217-225 | deleting a source takes its leg along, whatever peer the row shows |
| MirrorMint.BothLegsFileAlike | apps/web/src/application/mirrorMint.ts:155-164 | a leg minted on a stamped account carries the very category of the row that pays it, exactly when the row moves money |
| MirrorMint.PlanEffect | apps/web/src/application/mirrorMint.ts:95-190 | a plan run on any later store whose accounts and whose own leg are still those it read changes that one leg and the balances it names, each by the stated amount, and nothing else |
| LedgerFacts.WriteSpares | apps/web/src/application/mirrorMint.ts:42-50 | a write by anyone, of anything, leaves an account that is deleted, not manual or a funding pot with its very record, and brings no row and no live leg onto it |
| LedgerFacts.RunSpares | apps/web/src/application/mirrorMint.ts:42-50 | the same over any run of ledger steps: edits, heals, deletions, count-ins, a row passing to another keeper |
| LedgerFacts.FreshLinkMints | apps/web/src/application/mirrorMint.ts:139-185 | a changed link to a live manual account that is no funding pot, on a live row without leg or peer: the leg is minus the row's money on that account and points back, the row's peer names it, and that one balance moves, a loan only for a day after the one its balance was known true or when counted in by hand |
| LedgerFacts.FreshLinkRow | apps/web/src/application/mirrorMint.ts:150-170 | the minted row field by field, its category the one movement that tells what the leg does: by the pot it stands on, or else by the account that pays it |
| LedgerFacts.LeavingLinkRefunds | apps/web/src/application/mirrorMint.ts:109-128 | a link that leaves the account its own leg stands on: the leg goes, that balance has the row's money back, and the new account gets leg and money exactly when it is a live manual one and no funding pot |
| LedgerFacts.SameLinkResizes | apps/web/src/application/mirrorMint.ts:55-80 | a link written again: its leg takes the row's money and the balance moves by the difference |
| Joined.PlanOnePartDiff | apps/web/src/db/joined.ts:360-382 | one surviving part: a moved link or an edited amount plans its leg, the plan's peer rides back unless the part names a foreign row |
| Joined.DiffSurvivingParts | apps/web/src/db/joined.ts:387-402 | the surviving and new parts of a splits write, in order, and the stored parts none of them claimed |
| Joined.DiffVanishedParts | apps/web/src/db/joined.ts:403-409 | every vanished part that had a counterparty plans the retirement of its leg |
| Joined.PlanPartLinkChanges | apps/web/src/db/joined.ts:302-346 | the whole part diff of a splits write, against the merged stored parts |
| LedgerParts.StoredPart | apps/web/src/db/joined.ts:360-382 | a splits write stores every part as written but for the peer: one that names a foreign row or whose link stays keeps its own, one that moves to an account legs may stand on names its leg unless it was paired with a foreign row before, one that only leaves its leg names nothing |
| LedgerParts.PartLegIs | apps/web/src/db/joined.ts:317-332 | on books in order the leg of a part holds the part's magnitude, out of its account under an income row and into it under an expense row |
| LedgerParts.BalanceFollowsParts | apps/web/src/db/joined.ts:302-346 | an allowed splits write moves the balance of a live manual account that is no funding pot by minus the change of the money the row's parts book onto it, signed as the row is |
| Joined.WriteTxTransform | apps/web/src/db/joined.ts:422-443 | one write through the choke point: plans on the state before it, the opinions with the peers decided (a peer in the caller's fields outranks the plan), then the row's plan and the parts' plans |
| Ledger.BaseAfterPlan | apps/web/src/application/mirrorMint.ts:95-190 | on any store a plan moves an account's base (balance minus counted live legs) by exactly the stated drift: a refund at another amount than the leg holds, or a leg taken over from another account |
| Ledger.RunAsksEffect | apps/web/src/db/joined.ts:440-443 | several plans on different sources, run one after the other: every asked leg is the planned one, no other row changes, the drifts add up |
| LedgerWrite.WriteDrift | apps/web/src/db/joined.ts:422-443 | the exact change that a write by the space keeping a row (a bank row, a manual row or a minted leg) makes to any base, with no assumption on the books: the drift of a changed count flag, of the row's plan and of each part's plan |
| LedgerWrite.WriteRows | apps/web/src/db/joined.ts:422-443 | rows and overlays after any space's write on any live row, legs included: the written opinions on the one row or overlay, everything else but legs as it was |
| LedgerWrite.WriteLegs | apps/web/src/db/joined.ts:422-443 | legs after such a write: the row's and its parts' as planned, a leg that was itself edited keeps its account and money and points where the edit says, every other leg as it was |
| LedgerRuns.OrderKept | apps/web/src/db/joined.ts:263-410 | with the live legs exactly those asked for (one per linked source, of minus its money, pointing back), the keeping space's write on a bank or manual row keeps them so if and only if the peers it carries fit: row by row and part by part |
| LedgerRuns.BasesKept | apps/web/src/db/joined.ts:263-443 | on such books a write keeps every base if and only if, account by account, what a changed count flag moves and what the parts leaving that account take beyond the money they came with add up to nothing |
| LedgerRuns.PartKeepsBases | apps/web/src/db/joined.ts:360-382 | one part: its plan moves no base if and only if the part, if it leaves its account, leaves with the money its leg brought |
| LedgerRuns.PartLegFits | apps/web/src/db/joined.ts:360-382 | one part: the leg the diff leaves is the one the stored part asks for, if and only if its peer fits |
| LedgerHands.IdleExactlyWhen | apps/web/src/application/mirrorMint.ts:95-190 | a plan leaves its leg as it is exactly when it neither retires nor resizes it and mints at most what already stands there |
| LedgerHands.OtherSpacesWrite | apps/web/src/db/joined.ts:422-443 | a write by a space that does not keep the row's books leaves them in order if and only if every plan it makes is idle, and then moves no base |
| LedgerHands.LegEdited | apps/web/src/db/joined.ts:422-443 | an edit of a minted leg, by any space, leaves the books in order if and only if nothing is planned for the leg itself and it keeps pointing at its source; then no base moves |
| LedgerSteps.HealKeeps | apps/web/src/application/mirrorMint.ts:197-210 | healing any row of books in order keeps them in order and every base where it was |
| LedgerSteps.DeleteKeeps | apps/web/src/application/mirrorMint.ts:212-225 | deleting a row keeps every base, and keeps the books in order if and only if none of its parts holds a leg |
| LedgerSteps.CountPreAnchorTx | apps/web/src/application/loanBalance.ts:86-99 | counting a pre-anchor row in as the caller saw it: the loan the caller saw moves by the amount the caller saw and the marker is written on the stored row, unless the caller saw the marker or that account is no manual liability |
| LedgerSteps.CountedOnce | apps/web/src/application/loanBalance.ts:78-85 | the marker makes counting in one-shot: for a caller that sees the stored row a second call does nothing |
| LedgerSteps.TapMoves | apps/web/src/application/loanBalance.ts:86-99 | for any caller a call moves the balance by just what that caller saw, and whether it moves does not depend on the marker stored by then |
| LedgerSteps.CountInKeeps | apps/web/src/application/loanBalance.ts:86-99 | counting in keeps the books in order; it keeps every base if and only if the row's leg stands on the loan without counting yet, or the row moves no money |
| LedgerSteps.EditKeeps | apps/web/src/db/joined.ts:422-443 | an edit by any space of any live row or leg keeps the books in order and every base if and only if it is allowed: the guards above for the keeper, for another space and for a leg |
| LedgerSteps.BooksBalance | apps/web/src/db/joined.ts:422-443 | over any run of allowed steps by any spaces (edits of rows and of legs, heals, deletions, count-ins, a row's books passing to another space) every balance moves by exactly the change in the live legs that count for it, and the legs stay exactly those asked for |
| LedgerSteps.LegsMirrorTheirSources | apps/web/src/application/mirrorMint.ts:140-170 | on such books every live leg is minus its source's money, on the account the source links, and source and leg name each other |
| LedgerSteps.UnlinkUndoesLink | apps/web/src/application/mirrorMint.ts:107-128 | linking a row that holds no leg and unlinking it again gives every balance back and leaves no leg |
| LedgerLimits.ClearedSplitsOrphanLegs | apps/web/src/db/joined.ts:307-308 | a concrete store on which clearing the splits leaves the parts' legs behind |
| LedgerLimits.DeletedSplitRowOrphansLegs | apps/web/src/application/mirrorMint.ts:217-225 | a concrete store on which deleting a split row leaves the parts' legs behind |
| LedgerLimits.MovedPartRefundsItsNewAmount | apps/web/src/db/joined.ts:373-373 | a concrete store on which a part that changes link and amount in one write is refunded its new amount |
| LedgerLimits.CountedRelinkRefundsTooMuch | apps/web/src/db/joined.ts:272-291 | a concrete store on which a count flag that rides a relink refunds money that never moved |
| LedgerLimits.CountedWithoutALeg | apps/web/src/application/loanBalance.ts:93-99 | a concrete row without a leg: counting it in moves the loan with nothing to show for it |
| LedgerLimits.StaleTapCountsTwice | apps/web/src/features/transactions/TxDetailScreen.tsx:1902-1910 | a concrete row counted in twice by a caller that had not seen the first marker, the double tap the screen latches out |
| LedgerLimits.SecondSpaceTakesTheLegOver | apps/web/src/application/mirrorMint.ts:105-139 | a concrete feed row on which a second space's link takes the first space's leg over without giving its balance back |
| LedgerLimits.PartClaimsALegItNeverGets | apps/web/src/db/joined.ts:368-380 | a concrete store on which a part that leaves a foreign row and claims its own leg in the same write gets none |
| LedgerLimits.KeptLegLeavesTheBooks | apps/web/src/features/transactions/TxDetailScreen.tsx:2206-2212 | the unpair question's "keep", on any books in order: every base stays, the leg stays live on its account, and nothing asks for it any more |
| LedgerLimits.PlainWritesOrphanLegs | apps/web/src/application/reconcile.ts:66-69 | a concrete store on which a plain removal, and a plain overwrite of the link, leave the row's leg behind |
| LedgerBypass.PlainRemoval | apps/web/src/application/reconcile.ts:191-196 | a row removed without the mint engine, as a reconciliation removes imports: no base moves, and the books stay in order if and only if neither the row nor a part of it holds a leg |
| LedgerBypass.PlainOverwrite | apps/web/src/application/reconcile.ts:66-76 | opinions handed on by a plain overwrite: no base moves, and the books stay in order if and only if the link the row ends up with is the one its leg stands on, or asks for no leg, and each part it ends up with asks for just the leg that stands there |
| LedgerBypass.ReconciliationKeeps | apps/web/src/application/reconcile.ts:160-197 | a whole reconciliation, whatever it hands on and removes: every base moves by just the legs it removes, and the books stay in order if and only if nothing removed leaves a leg, no leg is removed under a source that asks for it, and every row handed to asks, with its parts, for just the legs that are left |
| TransferPairs.WritePair | apps/web/src/application/transferMatch.ts:89-119 | both legs written through the choke point, each with its peer, an empty counterparty filled from the other leg |
| TransferPairs.LinkSpacePairs | apps/web/src/application/transferMatch.ts:32-87 | the matcher's pairs, then every open out-leg with exactly one raw income twin left; the number of pairs written |
| TransferFacts.PairsMirror | apps/web/src/application/transferMatch.ts:54-69 | every pair of the second pass is a deliberate out-leg and the only unclaimed income, when its turn came, that brings the same cents to the linked account within two days |
| TransferFacts.OutIsPaired | apps/web/src/application/transferMatch.ts:58-69 | an open out-leg is reached in the list's order and is paired if and only if exactly one such income is left then, and with it |
| TransferFacts.PairAdopts | apps/web/src/application/transferMatch.ts:70-118 | the two legs after a pairing, whole: an empty counterparty filled (a twin's set), the category by pot, by counter account or kept, the peer, nothing else |
| TransferPairs.PeerWriteIsQuiet | apps/web/src/application/mirrorMint.ts:135-139 | a peer written onto a peerless row together with a link mints nothing and moves no balance |
| TransferPairs.PairFilesAlike | apps/web/src/application/transferMatch.ts:76-116 | when exactly one of the two accounts is stamped both legs end up in one movement category |
| TransferPairs.JobsAreFree | apps/web/src/application/transferMatch.ts:45-70 | the two passes together use each row at most once, and only rows without a peer |
| TransferPairs.JobsPair | apps/web/src/application/transferMatch.ts:89-119 | a whole pass makes exactly the chosen pairs point at each other, creates no row, moves no balance and changes no other view |
| TransferPairs.PairingKeepsPeersMutual | apps/web/src/application/transferMatch.ts:32-119 | peers between live rows, legs included, stay a partial involution without fixed points |
| TransferPairs.PairingIsQuiet | apps/web/src/application/transferMatch.ts:32-119 | all of this for the two passes over any picture of the space |
| BootHeal.EnsureDefaultAccount | apps/web/src/application/defaultAccounts.ts:41-69 | a family's default account is minted once under its own id, a deleted one revives, an existing one is left alone |
| BootHeal.FoldBareParts | apps/web/src/application/categoryModel.ts:63-91 | every bare part takes its family's default account, or the account the bank text names, or stands down; the container goes back to review exactly when a transfer part found none |
| BootHeal.MigrateRow | apps/web/src/application/categoryModel.ts:133-179 | one row or overlay, a minted leg included: untouched on a stamped account or when settled, otherwise one write of exactly the resolving patch |
| BootHeal.HealWrite | apps/web/src/application/categoryModel.ts:155-178 | one heal write first brings the accounts to life, then resolves the row as a whole or every part of it, then only mints legs of that row |
| BootHealRun.HealRows | apps/web/src/application/categoryModel.ts:190-193 | the loop over the local rows visits each row of its first read once, in some order, and is that order's pass |
| BootHealRun.HealOverlays | apps/web/src/application/categoryModel.ts:194-199 | the loop over the overlays, each judged over its row as that row is by then |
| BootHealRun.MigrateBareSpecialRows | apps/web/src/application/categoryModel.ts:117-202 | one boot's heal is the pass of the two orders in which the store lists its rows and overlays, and counts what it wrote |
| BootHealFacts.HealedFollows | apps/web/src/application/categoryModel.ts:155-178 | one heal write on any row or overlay: each bare movement keeps its category and is linked to its space's default account, live and of the kind the category is about; a plain transfer takes the account its text names, and that account's category, or stands down and goes back to review; nothing else changes |
| BootHealFacts.HealedRowMints | apps/web/src/application/categoryModel.ts:174-178 | the leg of a healed row lands on that default account with minus the row's money, and a default that was not there ends up with just that money |
| BootHealFacts.PassFollows | apps/web/src/application/categoryModel.ts:181-199 | a whole pass, for every bank or manual row: it ends as one heal write leaves it if it is live, local, on no pot and has a bare movement, and as it was in every other case |
| BootHealFacts.PassFollowsOverlays | apps/web/src/application/categoryModel.ts:194-199 | the same for every space's overlay of such a row, judged over the row as the pass leaves it: healed once if it is live and both it and the row so decided have a bare movement, otherwise as it was |
| BootHealPass.PassSettles | apps/web/src/application/categoryModel.ts:181-199 | whatever the orders, after a pass no row, part or overlay is a movement without counterparty and peer, except a bare container under a leg's id that the pass passed over and whose source it healed |
| BootHealPass.PassedOverStaysBare | apps/web/src/application/categoryModel.ts:190-193 | what was passed over keeps its parts, so it ends settled if and only if it is not live in the open: deleted, in a feed, or on an account the heal never touches |
| BootHealPass.IdleExactlyWhenSettled | apps/web/src/application/categoryModel.ts:102-106 | a pass writes nothing if and only if everything is settled |
| BootHealRun.BootTwice | apps/web/src/application/categoryModel.ts:102-106 | the second boot writes nothing if and only if the first left everything settled, which it did unless it healed the source of a leg it had passed over; whatever accounts the bank text names by then |
| BootHealLeft.LeftExactlyWhen | apps/web/src/application/categoryModel.ts:155-179 | a passed-over leg is left behind if and only if the one visit of its source, judged on the store the pass starts from, links an account where the heal itself would have visited that leg |
| BootHealLeft.SettledExactlyWhen | apps/web/src/application/categoryModel.ts:102-106 | so the pass ends with nothing left to heal if and only if no leg it passed over comes back that way |
| BootHealLeft.RevivedContainerIsLeft | apps/web/src/application/categoryModel.ts:165-178 | a concrete store whose pass links a withdrawal to the default cash account and so revives a retired leg split into bare parts: the next boot always finds something to write |
| BootHealLast.HealLands | apps/web/src/application/categoryModel.ts:155-178 | one heal write: a leg of the row or of one of its parts lands on the account an ask of the write puts it on, and stays as it was if none does |
| BootHealLast.LeftByTheLastMint | apps/web/src/application/categoryModel.ts:181-199 | on any store and in any orders a passed-over leg, of a row or of a part, is left behind if and only if the last visit that mints it puts it where the heal itself would visit it |
| BootHealLast.PassEndsSettled | apps/web/src/application/categoryModel.ts:102-106 | so on any store a pass ends with every row settled if and only if no passed-over leg was last minted into the open, and with everything settled if the overlays on such legs are settled too |
| JoinedViews.OpinionsShow | apps/web/src/db/joined.ts:34-55 | an opinion touching neither a link nor the splits shows exactly as written, explicit nulls included (review excepted on pending rows), if and only if no deleted overlay holds a field underneath that the write leaves alone |
| JoinedViews.OpinionsStayHome | apps/web/src/db/joined.ts:34-55 | such an opinion changes no balance and no other row in any space's view, and no other space sees this row differently |
| JoinedViews.DeletedOverlayReturns | apps/web/src/db/joined.ts:433-438 | a concrete store on which the next write brings a deleted overlay's old fields back |
| JoinedViews.VisibleIsGatedHistory | apps/web/src/db/joined.ts:147-214 | the screens' list is the ungated history filtered by the own-row gate and the per-attachment gates |
| JoinedViews.ListsShow | apps/web/src/db/joined.ts:147-214 | membership of both lists, told from the rows: live own rows off the funding pots, live rows of each attached account dressed with the space's own opinions, from the start date or the attachment's own gate on |
| JoinedViews.HistoryTransactions | apps/web/src/db/joined.ts:194-214 | the reader of the ungated list |
| JoinedViews.VisibleTransactions | apps/web/src/db/joined.ts:147-182 | the reader of the gated list returns the gated history |
| MatchScheduler.Scheduler.Ask | apps/web/src/application/receiptMatching.ts:247-253 | an ask folds into what is pending and makes sure a timer runs; after dispose it is dropped |
| MatchScheduler.Scheduler.Idle | apps/web/src/application/receiptMatching.ts:235-245 | an idle slot starts the run unless one is going on or the scheduler was disposed |
| MatchScheduler.Scheduler.PassSettles | apps/web/src/application/receiptMatching.ts:227-243 | a finished pass is followed by the next pending one, or the run ends and the waiters are settled |
| MatchScheduler.Scheduler.SettleWaiters | apps/web/src/application/receiptMatching.ts:223-226 | the waiters resolve, all of them, only when no timer, no run and no ask is left |
| MatchScheduler.SchedulerIsSafe | apps/web/src/application/receiptMatching.ts:212-268 | over every interleaving at most one pass runs, and until dispose every accepted ask is pending or covered by a pass that started after it |
| MatchScheduler.ResolvesOnlyWhenQuiet | apps/web/src/application/receiptMatching.ts:223-226 | `settled` resolves only with no timer, pass or ask outstanding, and then for every waiter |
| MatchScheduler.SettledAlwaysResolves | apps/web/src/application/receiptMatching.ts:254-259 | once asks stop, a ranking bounds the callbacks left; when none is left every `settled` has resolved and every ask was covered |
| SqlBackend.SqlStorageBackend.EmitAll | apps/web/src/db/sqlBackend.ts:97-103 | an announcement reaches every listener once, and none while a transaction is open |
| SqlBackend.SqlStorageBackend.TransactionEnds | apps/web/src/db/sqlBackend.ts:236-254 | commit or rollback, the head of the queue leaves; only a commit announces |
| SqlBackend.SqlStorageBackend.QueryFinally | apps/web/src/db/sqlBackend.ts:275-281 | a finished query starts exactly one more when a write landed meanwhile |
| SqlBackend.LiveQueriesAreFresh | apps/web/src/db/sqlBackend.ts:229-289 | over every interleaving: one query at a time per subscriber, transactions settle in submission order, and at rest the last answer given comes from a query started after the last announcement |
| SqlBackend.AnnouncedOutsideTransactions | apps/web/src/db/sqlBackend.ts:236-246 | no announcement while a transaction is open, none by a rejected one |
| SqlBackend.ExposedExactlyWhen | apps/web/src/db/sqlBackend.ts:256-284 | a live query can read inside an open transaction exactly when it starts inside one (a new subscription, or the re-run of a dirty one) or is still reading when one begins |
| SqlBackend.HalfAppliedIsSuperseded | apps/web/src/db/sqlBackend.ts:94-100 | at rest, with no transaction open and none rolled back since the last announcement, no subscriber's last answer saw a half-applied batch: the commit's announcement superseded it |
| SqlBackend.RollbackLeavesTheAnswer | apps/web/src/db/sqlBackend.ts:236-246 | a concrete run in which a rolled-back transaction leaves a subscriber with an answer that saw its rows |
| SqlBackend.QueueMovesOn | apps/web/src/db/sqlBackend.ts:247-253 | whatever the outcome of one transaction, the next in line can begin |
| SqlBackend.QueueDrains | apps/web/src/db/sqlBackend.ts:236-254 | every submitted transaction settles: each begin and each outcome lowers a rank that only a new submission raises, one of them is due until the queue is empty, and then all have settled in order |
| SqlBackend.SubscriptionComesToRest | apps/web/src/db/sqlBackend.ts:256-283 | between announcements every callback of a subscription lowers a rank, and until it rests one is due |
| DexieBackend.LiveQuery.Coalesced | apps/web/src/db/backend.ts:239-258 | an invocation reads at once when idle and waits when a burst, a running read or one just ended says so |
| DexieBackend.LiveQuery.TimerWakes | apps/web/src/db/backend.ts:243-249 | a woken run gives up when superseded or closed, reads in quiet, sleeps on otherwise |
| DexieFacts.InvocationReads | apps/web/src/db/backend.ts:239-258 | told from the history of events alone: a commit's run reads at once if and only if it is the first, or no burst is open, nothing reads and no read ended within 40 ms; otherwise it sleeps 40 ms |
| DexieFacts.TimerReads | apps/web/src/db/backend.ts:243-250 | when its timer fires a run is over if the query was closed or a later commit came, reads if no burst and no transaction is open and the last commit is 40 ms ago, and sleeps again if not |
| DexieBackend.ReadsArePolite | apps/web/src/db/backend.ts:233-269 | no re-run starts reading inside a declared burst; a delayed one only with no burst and no write open, the quiet window passed and as the newest; no run reads twice |
| DexieBackend.SupersededNeverReads | apps/web/src/db/backend.ts:247-262 | a run superseded while waiting never reads and delivers nothing, whatever follows |
| DexieBackend.OneTrailingRead | apps/web/src/db/backend.ts:96-103 | until the next commit the waiting runs together cost at most one more read, and it is the newest run's |
| DexieBackend.NewestReadsInQuiet | apps/web/src/db/backend.ts:243-250 | once the store is quiet for the window the newest waiting run reads at its next timer |
| SharedQueries.Registry.JoinShared | apps/web/src/db/useQuery.ts:45-75 | the first join opens the live query, a later one joins it and gets the last answer at once |
| SharedQueries.Registry.LeaveShared | apps/web/src/db/useQuery.ts:76-81 | the last listener leaving closes it and frees the key |
| SharedQueries.OneSubscriptionPerKey | apps/web/src/db/useQuery.ts:45-82 | over any joins, leaves and emissions a key has exactly one open subscription while it has a listener and none otherwise, and every listener was told the shared last value |
| SharedQueries.JoinAndLeaveAlwaysPossible | apps/web/src/db/useQuery.ts:45-82 | every join and every leave, repeated ones included, is possible in every reachable state |
| SharedQueries.LeavingTwice | apps/web/src/db/useQuery.ts:76-81 | leaving twice is leaving once |
| Calendar.NextMonthStart | apps/web/src/domain/budgets.ts:17-23 | months follow each other without a gap, leap years included |
| Calendar.OrdinalKeepsOrder | apps/web/src/domain/budgets.ts:17-23 | comparing year, month and day is comparing day numbers |
| Calendar.ShiftDays | apps/web/src/domain/budgets.ts:23-23 | shifting a date by days moves its day number by as many |
| BudgetCycles.CycleStart | apps/web/src/domain/budgets.ts:64-84 | the loop reaches the start of the asked cycle |
| BudgetCycles.WeekStartOnOrAfter | apps/web/src/domain/budgets.ts:43-46 | the first week start on or after a day, less than a week away |
| BudgetCycles.StartsIncrease | apps/web/src/domain/budgets.ts:64-84 | cycle starts strictly increase, whatever the month lengths |
| BudgetCycles.CyclesTileTime | apps/web/src/domain/budgets.ts:64-90 | from the start date on every day lies in exactly one cycle, none is empty, each ends the day before the next starts |
| BudgetCycles.MonthlyResetsAreClamped | apps/web/src/domain/budgets.ts:72-80 | iterated monthly steps equal the closed form: the reset day clamped into month k, so a short month never drifts later resets |
| BudgetCycles.WeeklyResetsAreAligned | apps/web/src/domain/budgets.ts:74-81 | later weekly cycles start on the week's first day and last their full length |
| BudgetFacts.FirstMonthly | apps/web/src/domain/budgets.ts:47-72 | a monthly budget first resets on the first day after its start date that is its reset day, clamped into short months |
| BudgetFacts.NextMonthly | apps/web/src/domain/budgets.ts:78-80 | from a reset the next one is the next such day, a month on |
| BudgetFacts.WeeklyResets | apps/web/src/domain/budgets.ts:69-82 | a weekly or two-weekly budget resets on Sundays or Mondays: first on the next one after its start date, a full cycle later if it started on one, then every 7 or 14 days |
| BudgetCycles.BudgetPeriodAt | apps/web/src/domain/budgets.ts:86-90 | the period of a cycle, first to last day |
| BudgetCycles.CycleIndex | apps/web/src/domain/budgets.ts:92-100 | the index inverts the periods: 0 before the start, the day's own cycle below the bound, the bound beyond |
| BudgetCarry.BudgetSpentCents | apps/web/src/domain/budgets.ts:125-142 | what a family spent in a period, slice by slice |
| BudgetFacts.OneSliceSpends | apps/web/src/domain/budgets.ts:131-139 | what one slice adds: in a live transaction of the period an expense of the family counts, a whole row by minus its signed cents so that a refund lowers the total, a part by its magnitude; anything else adds nothing |
| BudgetFacts.SlicesAddUp | apps/web/src/domain/budgets.ts:134-139 | the slices of one transaction add up |
| BudgetFacts.TxsAddUp | apps/web/src/domain/budgets.ts:130-141 | and so do the transactions |
| BudgetCarry.CyclesAddUp | apps/web/src/domain/budgets.ts:125-142 | the first n cycles together spend what the span from the start date to the last one's end spends |
| BudgetCarry.SpentIsOrderFree | apps/web/src/domain/budgets.ts:125-142 | any order of the transactions gives the same number |
| BudgetCarry.CarriedCents | apps/web/src/domain/budgets.ts:149-173 | the carry is the replay of the window before the current cycle |
| BudgetFacts.CarryWindow | apps/web/src/domain/budgets.ts:156-171 | nothing is carried without the option or in the first cycle; otherwise the last so many cycles are replayed, one if none is named, or the last 260 up to the cap |
| BudgetCarry.ReplayBounds | apps/web/src/domain/budgets.ts:166-171 | a replay stays within 0, the cap and, when no cycle's spending is negative, its length times the amount |
| BudgetCarry.LaterStartCarriesLess | apps/web/src/domain/budgets.ts:160-171 | a replay that starts later never carries more |
| BudgetCarry.ReplaysAgree | apps/web/src/domain/budgets.ts:160-171 | two replays agree if and only if since the later start the longer one ended a cycle at 0 or the shorter one at the cap |
| BudgetCarry.CarryIsBestStreak | apps/web/src/domain/budgets.ts:166-171 | uncapped, the carry is the largest unspent sum over the last cycles, or nothing |
| BudgetCarry.CarryIsSound | apps/web/src/domain/budgets.ts:144-173 | the bounded carry stays within its bounds and never over-reports the unbounded one |
| Debts.ProjectPayoff | apps/web/src/domain/debts.ts:66-95 | there is an answer exactly when some number of payments within the limit pays the debt off with every payment beating its interest, and the answer reports that number's months and interest |
| Debts.AnswerTells | apps/web/src/domain/debts.ts:74-87 | an answer told from the loan: at most 2600 payments, none begun after 50 years, at the year's rate spread over its periods |
| Debts.ProjectionTells | apps/web/src/domain/debts.ts:88-95 | the months reported are the payments' share of years in months, rounded and never none, and the final month is that many on |
| Debts.PaymentsAddUp | apps/web/src/domain/debts.ts:79-85 | every cent paid goes to the debt or to interest |
| Debts.LastPaymentIsNeeded | apps/web/src/domain/debts.ts:79-94 | debt plus interest is covered by the payments; one payment fewer would not do, for every debt, exactly at period rates from -50% up |
| Debts.DebtFalls | apps/web/src/domain/debts.ts:80-84 | a payment that beats the first interest lowers the debt by at least a cent a period, whatever the rate, so "never pays off" is decided by the first period |
| Debts.AnsweredExactlyWhen | apps/web/src/domain/debts.ts:66-87 | an answer exists if and only if the payment beats the first interest and the debt is gone within the limit |
| Debts.OneAnswer | apps/web/src/domain/debts.ts:79-87 | there is at most one such number of payments |
| Debts.LargerPaymentOwesLess | apps/web/src/domain/debts.ts:79-85 | at a period rate of at least -100% a larger payment never leaves more owed, payment by payment |
| Debts.LargerPaymentIsNeverWorse | apps/web/src/domain/debts.ts:57-95 | for a rate that is not negative a larger payment still pays off, in no more payments and months and for no more interest |
| Reconcile.RewriteLinks | apps/web/src/application/reconcile.ts:110-126 | links to replaced rows re-point, links to dropped rows go, and nothing is written when nothing named one |
| Reconcile.Ledger.MigrateMatch | apps/web/src/application/reconcile.ts:64-97 | one match handed over: the import's own opinions, every space's overlay, its review verdict and its receipts |
| ReconcileFacts.HandsOver | apps/web/src/application/reconcile.ts:64-91 | a space's overlay on the truth row field by field: what the import's live overlay holds, but for pairing and balance flag, over what was there, and a verdict the space had not given on the import taken back |
| Reconcile.Ledger.RepointReimbursements | apps/web/src/application/reconcile.ts:128-153 | every live row and overlay of every live space has its reimbursement links rewritten once |
| Reconcile.Ledger.ApplyReconcile | apps/web/src/application/reconcile.ts:160-200 | matches handed over unless ignored, links re-pointed, every judged import removed, and the two counts |
| Reconcile.Ledger.ApplyMerge | apps/web/src/application/reconcile.ts:213-241 | a reconciliation, then the kept rows move, the links re-point and the account retires |
| ReconcileFacts.HandedOverCounts | apps/web/src/application/reconcile.ts:177-185 | the first count is that of the matches whose import is not ignored |
| ReconcileFacts.MergeKeeps | apps/web/src/application/reconcile.ts:213-241 | a merge re-points exactly the live space links of member spaces that named the retired account, and leaves removed receipts and those of other spaces alone |
| Reconcile.RewriteIsClean | apps/web/src/application/reconcile.ts:108-126 | one rewriting pass leaves no link to a replaced row, whatever the links, if and only if no replacement is itself replaced |
| Reconcile.AmountsFollow | apps/web/src/application/reconcile.ts:108-126 | the amount linked to a surviving row is its old amount plus that of the rows it replaced |
| Reconcile.NoLinkNamesAnImport | apps/web/src/application/reconcile.ts:160-197 | with truth rows that are not judged themselves, afterwards no live row or overlay of a member space links a removed import, and the imports are gone |
| Reconcile.AmountsAfterReconcile | apps/web/src/application/reconcile.ts:160-197 | from the store the run starts on: every live row and overlay that no match hands anything to links to a truth row what it linked before plus what it linked to the imports that row replaced |
| Reconcile.AmountsOnTruthRows | apps/web/src/application/reconcile.ts:64-83 | on a truth row and on its overlays the list that counts is the one handed over: the import's own, whole, if it holds one, otherwise the truth row's |
| Reconcile.OwnLinksSurvive | apps/web/src/application/reconcile.ts:64-76 | a truth row's own links survive all the hand-overs if and only if its import holds no list of its own or the very same one: in every member space's overlay, and on the row itself |
| Reconcile.OwnLinksLost | apps/web/src/application/reconcile.ts:71-76 | a concrete reconciliation in which the truth row's own amount is overwritten and lost |
| Reconcile.EachMatchHandsOver | apps/web/src/application/reconcile.ts:64-83 | what a truth row's overlay becomes depends on its own and its import's overlay alone, however many matches run |
| Reconcile.EachMatchHandsItsRow | apps/web/src/application/reconcile.ts:66-70 | what the truth row itself becomes is its own opinions overwritten by its import's, however many matches run |
| Reconcile.VerdictTravels | apps/web/src/application/reconcile.ts:77-91 | a truth row never comes out reviewed in a space that had not reviewed its import |
| Reconcile.ReceiptsFollow | apps/web/src/application/reconcile.ts:92-104 | a member space's receipt proves what it proved, every handed-over import replaced by its truth row |
| Reconcile.UnhandedImportStaysNamed | apps/web/src/application/reconcile.ts:177-196 | an import that is removed without being handed over is still named by every receipt that named it |
| Reconcile.IgnoredImportStaysNamed | apps/web/src/application/reconcile.ts:177-196 | a concrete reconciliation after which a receipt names an ignored import that is gone |
| Reconcile.NothingNamesTheRetired | apps/web/src/application/reconcile.ts:206-241 | after a merge whose plan covers the account no live transaction and no live space link names it, and it is retired |
| Reconcile.HistorySurvives | apps/web/src/application/reconcile.ts:206-227 | what was live and not judged is still live, on the bank's account if it was kept |
| ReceiptLinks.LinkStore.WriteReceiptLink | apps/web/src/application/receiptLinks.ts:58-76 | a fresh link proves one transaction or none, and settles any question |
| ReceiptLinks.LinkStore.AttachReceiptTo | apps/web/src/application/receiptLinks.ts:78-96 | attach: a fresh link, one more transaction, or nothing to do |
| ReceiptLinks.LinkStore.DetachReceiptFrom | apps/web/src/application/receiptLinks.ts:98-113 | detach: the next one becomes first, the last one leaving removes the link |
| ReceiptLinks.LinkStore.WriteProposedLink | apps/web/src/application/receiptLinks.ts:115-130 | a question attaches nothing and keeps the refusals |
| ReceiptLinks.LinkStore.AcceptProposal | apps/web/src/application/receiptLinks.ts:132-136 | agreeing turns the question into the attachment |
| ReceiptLinks.LinkStore.RejectProposal | apps/web/src/application/receiptLinks.ts:138-143 | disagreeing closes the question and remembers the refusal |
| ReceiptLinks.LinkStore.MatchReceiptsIntoSpace | apps/web/src/application/receiptMatching.ts:88-116 | one pass over the receipts, decided against the links as they were, with the number of questions asked |
| ReceiptFacts.PassDecides | apps/web/src/application/receiptMatching.ts:94-115 | a pass asks about a receipt if and only if it is live, nothing is attached or asked, and the matcher names a transaction that was not turned down, knowing every one a live link uses or that was asked about before |
| ReceiptFacts.AutoIsTheMachines | apps/web/src/application/receiptLinks.ts:58-136 | a link is marked automatic only by a write that says so; attaching to one more transaction and agreeing to a question take the mark away |
| ReceiptLinks.LinkedShape | apps/web/src/application/receiptLinks.ts:46-54 | the attachments of any link: the primary first, nothing twice, nothing empty, none without a primary |
| ReceiptLinks.AttachAppends | apps/web/src/application/receiptLinks.ts:78-96 | attaching appends the transaction unless it is there, and touches no other link |
| ReceiptLinks.DetachDrops | apps/web/src/application/receiptLinks.ts:98-113 | detaching drops that transaction alone, in order, and the link goes exactly when none is left |
| ReceiptLinks.DetachUndoesAttach | apps/web/src/application/receiptLinks.ts:78-113 | attach then detach restores the very sequence |
| ReceiptLinks.AnswersSettle | apps/web/src/application/receiptLinks.ts:132-143 | agreeing makes the one transaction asked about the one attachment; disagreeing attaches nothing and is remembered |
| ReceiptLinks.LinksStayTidy | apps/web/src/application/receiptLinks.ts:51-143 | over every run the primary is never among the others and no link holds an attachment and a question at once |
| ReceiptLinks.RefusalsOnlyGrow | apps/web/src/application/receiptLinks.ts:138-143 | no operation takes a refusal back, not even one that removes or revives the link |
| ReceiptLinks.AsksRefusedExactlyWhen | apps/web/src/application/receiptMatching.ts:106-110 | a refused transaction is asked about again if and only if the matcher revives a removed link that had refused it |
| ReceiptLinks.RemovalForgetsTheRefusal | apps/web/src/application/receiptMatching.ts:96-110 | a run that does so: refuse, attach elsewhere, detach, match |
| ReceiptLinks.PassAsksSafely | apps/web/src/application/receiptMatching.ts:88-116 | one pass asks about pairwise different transactions that no live link holds or asks about, none refused by its receipt's live link, only for receipts with nothing attached |
| ReceiptLinks.PassWritesTheAsks | apps/web/src/application/receiptMatching.ts:104-115 | afterwards every receipt asked for holds its question and every other link is as it was |
| ReceiptLinks.PassKeepsOneAsk | apps/web/src/application/receiptMatching.ts:94-115 | a pass keeps every open question about a transaction no other live link has to do with |
| RecurringLinks.SortByDate | apps/web/src/application/recurring.ts:228-228 | the space's rows, each once, oldest first, rows of one day in the order they had |
| RecurringLinks.LinkedCyclesOf | apps/web/src/application/recurring.ts:180-191 | the cycles that already have a linked payment |
| RecurringLinks.Space.ReconcileRecurringLinks | apps/web/src/application/recurring.ts:209-243 | one run of the linker over the date-sorted rows |
| RecurringLinks.EarliestIsLinked | apps/web/src/application/recurring.ts:226-242 | a row is linked if and only if it is the earliest that wants a slot nobody had; every other row stays as it is |
| RecurringFacts.RunLinks | apps/web/src/application/recurring.ts:166-242 | told from the rows: a row is linked if and only if it is an unlinked outgoing cost or funding row that is not split into several own costs, a live recurring of its merchant is within a quarter or one unit of it, and it is the first such row of a billing cycle in which the first such recurring has no payment; it adopts category and counterparty as said, every other row stays |
| RecurringLinks.WantedSlotsAreTaken | apps/web/src/application/recurring.ts:235-239 | after a run the taken slots are the old ones and every wanted one |
| RecurringLinks.RunKeepsOnePerCycle | apps/web/src/application/recurring.ts:203-207 | if every cycle of every recurring starts with at most one linked payment it ends with at most one |
| RecurringLinks.LinkedRowsStay | apps/web/src/application/recurring.ts:175-176 | a linked row is never touched |
| RecurringLinks.SecondRunLinksNothing | apps/web/src/application/recurring.ts:203-207 | a second run links nothing, in whatever order it reads the rows and whatever incoming rows the links minted |

## Left out

- Clocks and merging: field versions, the outbox and the convergence of devices are not modelled; `upsert` and `remove` are sequential store operations.
- Interleaving of two writes: a call through the choke point runs to its end before the next; a refused write that the code swallows is not modelled.
- Display fields: currency, merchant, time of day, names, icons, notifications and progress callbacks carry no property. A category is an id plus the predicates used.
- Derived transaction types: `deriveTxType`, the pair matcher, the clue matcher, the receipt matcher, the merchant key and the billing-cycle key are parameters or contracts; the proofs hold for every choice of them.
- Legs of legs: a counter leg minted for a minted leg stands outside the books; a ledger run does not mint one.
- The screens that delete a row or hand a balance back on an own account: `LedgerSteps.DeleteRow` is the removal of the leg followed by the tombstone.
- The name and currency of a default account, and the renaming of old cash wallets: display facts.
- The budget cadence that follows the space's own period: it rests on `nextPeriod`, and its options are not part of this model.
- Years before 1 on the calendar: a budget's start date is in our era, and a year below 100 (which the platform's date constructor shifts) is taken literally.
- Binary rounding of rates: `Debts` computes with exact reals and keeps the cent rounding of every period.
- Estimating a payment plan from past payments, payment cadences, debt lists and budget status lists: only easy members.
- How a plan of matches is drawn up (`reconcilePlan`): plans are arbitrary, with the conditions of each lemma.
- Dexie's own delivery and its discarding of aborted runs: `DexieBackend` models when a run reads, given one invocation per commit.
- A transaction started inside another one on the SQL store: a submitted transaction never submits.
- Pruning, inbox caps, title memory, configuration, network, sync and encryption: foreign calls or only easy members.
- LedgerSteps.BooksBalance: heals, deletions and count-ins are the keeping space's; another space's edits are in, and a row passes to another keeper while neither holds or asks for a leg.
- BootHealPass.PassSettles: asks that containers name their parts once and that default accounts carry their family's type, as the code that writes them does.
- BootHealLeft.LeftExactlyWhen: judges from the starting store, so its leg's source is visited at most once, as a row of its own, and the bank text names live accounts; `BootHealLast.LeftByTheLastMint` decides every leg on every store, from the visits as they happen.
- BootHealLeft.SettledExactlyWhen: as the line above; `BootHealLast.PassEndsSettled` is about every store.
- LedgerRuns.OrderKept: about the keeper's writes on bank and manual rows; `LedgerHands.LegEdited` and `LedgerHands.OtherSpacesWrite` are about the others, `LedgerSteps.EditKeeps` about all three.
- RecurringLinks.Space.ReconcileRecurringLinks: the write of an adopted row is its fields; the leg that an adopted counterparty mints is `Joined.WriteTxTransform`'s, and shows here only as the incoming rows of `RecurringLinks.SecondRunLinksNothing`.
- ReceiptLinks.LinksStayTidy: starts from tidy links; a link another device wrote in another shape is not considered, and a screen's link is the stored one.
- RecurringLinks.SecondRunLinksNothing: a row's derived type depends on the row alone.
- BootHealFacts.PassFollows: about bank and manual rows; a minted leg, which another row's visit can revive, is `BootHealFacts.HealedFollows`'s for one write and `BootHealLast.LeftByTheLastMint`'s for a pass.
- BootHealFacts.PassFollowsOverlays: as the line above, for overlays on such rows.
- LedgerParts.BalanceFollowsParts: about the splits writes that keep the books; what the others move is `LedgerRuns.BasesKept`'s.
- RecurringFacts.RunLinks: like the linker's other laws it asks that recurrings are told apart by a non-empty id.
