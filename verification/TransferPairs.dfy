/**
 Pairing the two legs of a transfer inside one space: the matcher's pairs first, then every
 deliberate out-leg claims its one raw income twin. Both legs of a pair are written; the peer
 travels in the same write, so nothing is minted.
 */
module TransferPairs {
  import opened Numbers
  import opened Records
  import opened MirrorMint
  import opened Joined
  import opened Ledger
  import opened LedgerWrite

  // a row as the space sees it when the pass starts
  datatype SpaceTx = SpaceTx(
    ref: TxRef, accountId: AccountId, amountCents: int, date: Date,
    link: Option<AccountId>, peer: Option<TxId>, transfer: bool, income: bool)

  // two legs to pair and what the incoming one adopts besides
  datatype Job = Job(out: SpaceTx, inc: SpaceTx, extra: Patch)

  function Kind(db: Db, id: AccountId): Option<AccountType> {
    if id in db.accounts then Some(db.accounts[id].kind) else None
  }

  function StampOf(db: Db, id: AccountId): Option<Family> {
    if Kind(db, id).Some? then AccountStamp(Kind(db, id).value) else None
  }

  // an empty counterparty fills from the other leg; the category follows the stamp or the counter's kind
  function Enrich(db: Db, leg: SpaceTx, other: SpaceTx): Patch {
    var linked := if leg.link.Some? then NO_CHANGE else NO_CHANGE.(link := Set(Some(other.accountId)));
    var counter := Kind(db, other.accountId);
    if StampOf(db, leg.accountId).Some? then
      linked.(catId := Set(StampMovementSub(StampOf(db, leg.accountId).value, leg.amountCents)))
    else if counter.Some? && !FamilyForCounter(counter.value).TransferFamily? then
      linked.(catId := Set(Some(MovementCatFor(counter.value, leg.amountCents))))
    else linked
  }

  // later fields win
  function Over(p: Patch, extra: Patch): Patch {
    p.(link := if extra.link.Set? then extra.link else p.link,
       catId := if extra.catId.Set? then extra.catId else p.catId)
  }

  function TwinExtra(db: Db, out: SpaceTx, twin: SpaceTx): Patch {
    var stamp, outKind := StampOf(db, twin.accountId), Kind(db, out.accountId);
    var forced := if stamp.Some? then StampMovementSub(stamp.value, twin.amountCents) else None;
    NO_CHANGE.(
      link := Set(Some(out.accountId)),
      catId := Set(Some(
        if forced.Some? then forced.value
        else if outKind.Some? then MovementCatFor(outKind.value, twin.amountCents)
        else AutoSubFor(TransferFamily, twin.amountCents))))
  }

  function OutPatch(db: Db, j: Job): Patch { Enrich(db, j.out, j.inc).(peer := Set(Some(j.inc.ref.id))) }

  function IncPatch(db: Db, j: Job): Patch { Over(Enrich(db, j.inc, j.out), j.extra).(peer := Set(Some(j.out.ref.id))) }

  function WritePairOf(db: Db, j: Job): Db {
    var d := if j.out.ref.id in db.txs then Write(db, j.out.ref, OutPatch(db, j)) else db;
    if j.inc.ref.id in d.txs then Write(d, j.inc.ref, IncPatch(d, j)) else d
  }

  function RunJobs(db: Db, jobs: seq<Job>): Db
    decreases |jobs|
  {
    if jobs == [] then db else RunJobs(WritePairOf(db, jobs[0]), jobs[1..])
  }

  // ---- the second pass ----

  function Ids(jobs: seq<Job>): set<TxId> {
    (set j | j in jobs :: j.out.ref.id) + (set j | j in jobs :: j.inc.ref.id)
  }

  predicate RawIncome(tx: SpaceTx, paired: set<TxId>) {
    tx.amountCents > 0 && tx.income && tx.link.None? && tx.peer.None? && tx.ref.id !in paired
  }

  predicate OpenOut(tx: SpaceTx, paired: set<TxId>) {
    tx.transfer && tx.amountCents < 0 && tx.link.Some? && tx.peer.None? && tx.ref.id !in paired
  }

  predicate Twin(out: SpaceTx, inc: SpaceTx) {
    out.link == Some(inc.accountId) && inc.amountCents == Abs(out.amountCents) && Abs(inc.date - out.date) <= 2
  }

  function Twins(out: SpaceTx, incomes: seq<SpaceTx>, paired: set<TxId>): seq<SpaceTx> {
    if incomes == [] then []
    else
      (if incomes[0].ref.id !in paired && Twin(out, incomes[0]) then [incomes[0]] else []) +
      Twins(out, incomes[1..], paired)
  }

  // each open out-leg takes its twin when it has exactly one left
  function SecondPass(db: Db, outs: seq<SpaceTx>, incomes: seq<SpaceTx>, paired: set<TxId>): seq<Job> {
    if outs == [] then []
    else
      var twins := Twins(outs[0], incomes, paired);
      if |twins| != 1 then SecondPass(db, outs[1..], incomes, paired)
      else
        [Job(outs[0], twins[0], TwinExtra(db, outs[0], twins[0]))] +
        SecondPass(db, outs[1..], incomes, paired + {outs[0].ref.id, twins[0].ref.id})
  }

  function Filter(all: seq<SpaceTx>, keep: SpaceTx -> bool): seq<SpaceTx> {
    if all == [] then [] else (if keep(all[0]) then [all[0]] else []) + Filter(all[1..], keep)
  }

  // the matcher's map, outgoing id to incoming id, resolved to rows
  function FirstPass(pairs: seq<(SpaceTx, SpaceTx)>): seq<Job> {
    seq(|pairs|, i requires 0 <= i < |pairs| => Job(pairs[i].0, pairs[i].1, NO_CHANGE))
  }

  function AllJobs(db: Db, all: seq<SpaceTx>, pairs: seq<(SpaceTx, SpaceTx)>): seq<Job> {
    var first := FirstPass(pairs);
    var paired := Ids(first);
    first + SecondPass(db, Filter(all, tx => OpenOut(tx, paired)), Filter(all, tx => RawIncome(tx, paired)), paired)
  }

  method WritePair(store: Store, j: Job)
    modifies store
    ensures store.View() == WritePairOf(old(store.View()), j)
  {
    if j.out.ref.id in store.txs {
      WriteTxTransform(store, j.out.ref, OutPatch(store.View(), j));
    }
    if j.inc.ref.id in store.txs {
      WriteTxTransform(store, j.inc.ref, IncPatch(store.View(), j));
    }
  }

  // ---- what a job may rely on ----

  // a live row of the space's list, own or joined, a minted leg included
  ghost predicate InList(db: Db, sp: SpaceId, ref: TxRef) {
    Live(db, ref.id) && ref.spaceId == sp && ref.feed == (db.txs[ref.id].spaceId != sp)
  }

  // the row is in the list and has no peer
  ghost predicate Free(db: Db, sp: SpaceId, tx: SpaceTx) {
    InList(db, sp, tx.ref) && View(db, sp, tx.ref.id).peer.None?
  }

  ghost predicate Disjoint(jobs: seq<Job>) {
    (forall j :: j in jobs ==> j.out.ref.id != j.inc.ref.id) &&
    forall i, k :: 0 <= i < k < |jobs| ==>
      jobs[i].out.ref.id != jobs[k].out.ref.id && jobs[i].inc.ref.id != jobs[k].inc.ref.id &&
      jobs[i].out.ref.id != jobs[k].inc.ref.id && jobs[i].inc.ref.id != jobs[k].out.ref.id
  }

  ghost predicate JobsFree(db: Db, sp: SpaceId, jobs: seq<Job>) {
    Disjoint(jobs) && forall j :: j in jobs ==> Free(db, sp, j.out) && Free(db, sp, j.inc)
  }

  /** A peer written onto a peerless row in the same breath as a link mints and moves nothing. */
  lemma PeerWriteIsQuiet(db: Db, sp: SpaceId, tx: SpaceTx, patch: Patch, q: TxId)
    requires Free(db, sp, tx) && patch.peer == Set(Some(q)) && patch.splits.Keep?
    ensures var e := Write(db, tx.ref, patch);
      && e.accounts == db.accounts && e.txs.Keys == db.txs.Keys
      && SameRows(db, e, tx.ref) && View(e, sp, tx.ref.id).peer == Some(q)
      && forall k: TxId :: k != tx.ref.id && k in db.txs ==> e.txs[k] == db.txs[k]
  {
    assert RowSteps(db, tx.ref, patch) == [];
    assert Write(db, tx.ref, patch) == PutOpinions(db, tx.ref, patch);
  }

  // the space's view of a row after a write elsewhere
  lemma ViewElsewhere(db: Db, e: Db, sp: SpaceId, ref: TxRef, u: TxId)
    requires SameRows(db, e, ref) && e.txs.Keys == db.txs.Keys && u in db.txs && u != ref.id
    requires forall k: TxId :: k != ref.id && k in db.txs ==> e.txs[k] == db.txs[k]
    ensures View(e, sp, u) == View(db, sp, u)
  {
  }

  // both legs point at each other, and no other row's view, no balance and no row set changed
  ghost predicate Paired(db: Db, e: Db, sp: SpaceId, a: TxId, b: TxId) {
    && e.accounts == db.accounts && e.txs.Keys == db.txs.Keys
    && a in e.txs && b in e.txs
    && View(e, sp, a).peer == Some(b) && View(e, sp, b).peer == Some(a)
    && forall k :: k in db.txs ==>
         e.txs[k] == db.txs[k].(ops := e.txs[k].ops) && (k != a && k != b ==> View(e, sp, k) == View(db, sp, k))
  }

  lemma PairWritten(db: Db, sp: SpaceId, j: Job)
    requires j.out.ref.id != j.inc.ref.id && Free(db, sp, j.out) && Free(db, sp, j.inc)
    ensures Paired(db, WritePairOf(db, j), sp, j.out.ref.id, j.inc.ref.id)
  {
    var a, b := j.out.ref.id, j.inc.ref.id;
    var d := Write(db, j.out.ref, OutPatch(db, j));
    PeerWriteIsQuiet(db, sp, j.out, OutPatch(db, j), b);
    ViewElsewhere(db, d, sp, j.out.ref, b);
    var e := Write(d, j.inc.ref, IncPatch(d, j));
    PeerWriteIsQuiet(d, sp, j.inc, IncPatch(d, j), a);
    forall k | k in db.txs ensures
      e.txs[k] == db.txs[k].(ops := e.txs[k].ops) && (k != a && k != b ==> View(e, sp, k) == View(db, sp, k))
    {
      if k != a { ViewElsewhere(db, d, sp, j.out.ref, k); }
      if k != b { ViewElsewhere(d, e, sp, j.inc.ref, k); }
    }
    ViewElsewhere(d, e, sp, j.inc.ref, a);
  }

  /** When exactly one of the two accounts is stamped, the pair ends up in one category. */
  lemma PairFilesAlike(db: Db, sp: SpaceId, j: Job)
    requires j.out.ref.id != j.inc.ref.id && Free(db, sp, j.out) && Free(db, sp, j.inc)
    requires j.extra == NO_CHANGE || j.extra == TwinExtra(db, j.out, j.inc)
    requires j.out.amountCents < 0 && j.inc.amountCents == -j.out.amountCents
    requires StampOf(db, j.out.accountId).Some? != StampOf(db, j.inc.accountId).Some?
    requires Kind(db, j.out.accountId).Some? && Kind(db, j.inc.accountId).Some?
    ensures var e, a, b := WritePairOf(db, j), j.out.ref.id, j.inc.ref.id;
      && a in e.txs && b in e.txs
      && IsMovementCat(View(e, sp, a).catId) && View(e, sp, a).catId == View(e, sp, b).catId
  {
    var d := Write(db, j.out.ref, OutPatch(db, j));
    PeerWriteIsQuiet(db, sp, j.out, OutPatch(db, j), j.inc.ref.id);
    PatchesFileAlike(db, d, j);
    OutCategory(db, sp, j);
    IncCategory(db, sp, j);
  }

  lemma OutCategory(db: Db, sp: SpaceId, j: Job)
    requires j.out.ref.id != j.inc.ref.id && Free(db, sp, j.out) && Free(db, sp, j.inc)
    requires OutPatch(db, j).catId.Set? && OutPatch(db, j).splits.Keep? && j.extra.splits.Keep?
    ensures j.out.ref.id in WritePairOf(db, j).txs
    ensures View(WritePairOf(db, j), sp, j.out.ref.id).catId == OutPatch(db, j).catId.value
  {
    var a, b := j.out.ref.id, j.inc.ref.id;
    var d := Write(db, j.out.ref, OutPatch(db, j));
    PeerWriteIsQuiet(db, sp, j.out, OutPatch(db, j), b);
    ViewElsewhere(db, d, sp, j.out.ref, b);
    PeerWriteIsQuiet(d, sp, j.inc, IncPatch(d, j), a);
    ViewElsewhere(d, WritePairOf(db, j), sp, j.inc.ref, a);
    CategoryShows(db, sp, j.out, OutPatch(db, j), b);
  }

  lemma IncCategory(db: Db, sp: SpaceId, j: Job)
    requires j.out.ref.id != j.inc.ref.id && Free(db, sp, j.out) && Free(db, sp, j.inc)
    requires OutPatch(db, j).splits.Keep?
    requires j.out.ref.id in db.txs && var d := Write(db, j.out.ref, OutPatch(db, j));
      IncPatch(d, j).catId.Set? && IncPatch(d, j).splits.Keep?
    ensures j.inc.ref.id in WritePairOf(db, j).txs
    ensures View(WritePairOf(db, j), sp, j.inc.ref.id).catId ==
            IncPatch(Write(db, j.out.ref, OutPatch(db, j)), j).catId.value
  {
    var a, b := j.out.ref.id, j.inc.ref.id;
    var d := Write(db, j.out.ref, OutPatch(db, j));
    PeerWriteIsQuiet(db, sp, j.out, OutPatch(db, j), b);
    ViewElsewhere(db, d, sp, j.out.ref, b);
    CategoryShows(d, sp, j.inc, IncPatch(d, j), a);
  }

  lemma PatchesFileAlike(db: Db, d: Db, j: Job)
    requires d.accounts == db.accounts
    requires j.extra == NO_CHANGE || j.extra == TwinExtra(db, j.out, j.inc)
    requires j.out.amountCents < 0 && j.inc.amountCents == -j.out.amountCents
    requires StampOf(db, j.out.accountId).Some? != StampOf(db, j.inc.accountId).Some?
    requires Kind(db, j.out.accountId).Some? && Kind(db, j.inc.accountId).Some?
    ensures OutPatch(db, j).catId.Set? && OutPatch(db, j).catId == IncPatch(d, j).catId
    ensures IsMovementCat(OutPatch(db, j).catId.value)
    ensures OutPatch(db, j).splits.Keep? && IncPatch(d, j).splits.Keep?
  {
  }

  lemma CategoryShows(db: Db, sp: SpaceId, tx: SpaceTx, patch: Patch, q: TxId)
    requires Free(db, sp, tx) && patch.peer == Set(Some(q)) && patch.splits.Keep? && patch.catId.Set?
    ensures tx.ref.id in Write(db, tx.ref, patch).txs
    ensures View(Write(db, tx.ref, patch), sp, tx.ref.id).catId == patch.catId.value
  {
    assert Write(db, tx.ref, patch) == PutOpinions(db, tx.ref, patch);
  }

  lemma StaysFree(db: Db, d: Db, sp: SpaceId, a: TxId, b: TxId, tx: SpaceTx)
    requires Paired(db, d, sp, a, b) && Free(db, sp, tx) && tx.ref.id !in {a, b}
    ensures Free(d, sp, tx)
  {
  }

  lemma TailIds(jobs: seq<Job>)
    requires jobs != [] && Disjoint(jobs)
    ensures Disjoint(jobs[1..])
    ensures forall r :: r in jobs[1..] ==>
      r in jobs && {r.out.ref.id, r.inc.ref.id} !! {jobs[0].out.ref.id, jobs[0].inc.ref.id}
    ensures Ids(jobs) == Ids(jobs[1..]) + {jobs[0].out.ref.id, jobs[0].inc.ref.id}
    ensures jobs[0].out.ref.id !in Ids(jobs[1..]) && jobs[0].inc.ref.id !in Ids(jobs[1..])
  {
    assert jobs == [jobs[0]] + jobs[1..];
    forall r | r in jobs[1..]
      ensures {r.out.ref.id, r.inc.ref.id} !! {jobs[0].out.ref.id, jobs[0].inc.ref.id}
    {
      var i :| 0 <= i < |jobs[1..]| && jobs[1..][i] == r;
      assert jobs[i + 1] == r;
    }
  }

  lemma RestStaysFree(db: Db, sp: SpaceId, jobs: seq<Job>)
    requires jobs != [] && JobsFree(db, sp, jobs)
    ensures JobsFree(WritePairOf(db, jobs[0]), sp, jobs[1..])
  {
    var j, rest := jobs[0], jobs[1..];
    var a, b, d := j.out.ref.id, j.inc.ref.id, WritePairOf(db, j);
    PairWritten(db, sp, j);
    TailIds(jobs);
    forall r | r in rest ensures Free(d, sp, r.out) && Free(d, sp, r.inc) {
      StaysFree(db, d, sp, a, b, r.out);
      StaysFree(db, d, sp, a, b, r.inc);
    }
  }

  ghost predicate Mutual(e: Db, sp: SpaceId, j: Job) {
    && j.out.ref.id in e.txs && View(e, sp, j.out.ref.id).peer == Some(j.inc.ref.id)
    && j.inc.ref.id in e.txs && View(e, sp, j.inc.ref.id).peer == Some(j.out.ref.id)
  }

  // a run that keeps balances, rows and every view but those of some rows
  ghost predicate OnlyViews(db: Db, e: Db, sp: SpaceId, touched: set<TxId>) {
    && e.accounts == db.accounts && e.txs.Keys == db.txs.Keys
    && (forall k :: k in db.txs ==> e.txs[k] == db.txs[k].(ops := e.txs[k].ops))
    && (forall k :: k in db.txs && k !in touched ==> View(e, sp, k) == View(db, sp, k))
  }

  lemma PairTouchesItsOwn(db: Db, sp: SpaceId, j: Job)
    requires j.out.ref.id != j.inc.ref.id && Free(db, sp, j.out) && Free(db, sp, j.inc)
    ensures OnlyViews(db, WritePairOf(db, j), sp, {j.out.ref.id, j.inc.ref.id})
  {
    PairWritten(db, sp, j);
  }

  lemma OnlyViewsTwice(db: Db, d: Db, e: Db, sp: SpaceId, first: set<TxId>, second: set<TxId>)
    requires OnlyViews(db, d, sp, first) && OnlyViews(d, e, sp, second)
    ensures OnlyViews(db, e, sp, second + first)
  {
  }

  lemma {:induction false} JobsTouchTheirOwn(db: Db, sp: SpaceId, jobs: seq<Job>)
    requires JobsFree(db, sp, jobs)
    ensures OnlyViews(db, RunJobs(db, jobs), sp, Ids(jobs))
    decreases |jobs|
  {
    if jobs != [] {
      var d := WritePairOf(db, jobs[0]);
      PairTouchesItsOwn(db, sp, jobs[0]);
      RestStaysFree(db, sp, jobs);
      TailIds(jobs);
      JobsTouchTheirOwn(d, sp, jobs[1..]);
      OnlyViewsTwice(db, d, RunJobs(db, jobs), sp, {jobs[0].out.ref.id, jobs[0].inc.ref.id}, Ids(jobs[1..]));
    }
  }

  lemma {:induction false} JobIsMutual(db: Db, sp: SpaceId, jobs: seq<Job>, i: nat)
    requires JobsFree(db, sp, jobs) && i < |jobs|
    ensures Mutual(RunJobs(db, jobs), sp, jobs[i])
    decreases |jobs|
  {
    var d, rest := WritePairOf(db, jobs[0]), jobs[1..];
    PairWritten(db, sp, jobs[0]);
    RestStaysFree(db, sp, jobs);
    if i == 0 {
      TailIds(jobs);
      JobsTouchTheirOwn(d, sp, rest);
    } else {
      JobIsMutual(d, sp, rest, i - 1);
    }
  }

  /** A whole pass pairs exactly the jobs' legs, creates no row and moves no balance. */
  lemma JobsPair(db: Db, sp: SpaceId, jobs: seq<Job>)
    requires JobsFree(db, sp, jobs)
    ensures OnlyViews(db, RunJobs(db, jobs), sp, Ids(jobs))
    ensures forall j :: j in jobs ==> Mutual(RunJobs(db, jobs), sp, j)
  {
    JobsTouchTheirOwn(db, sp, jobs);
    forall j | j in jobs ensures Mutual(RunJobs(db, jobs), sp, j) {
      var i: nat :| i < |jobs| && jobs[i] == j;
      JobIsMutual(db, sp, jobs, i);
    }
  }

  // live peers, as one space sees them, pair up: no row is its own peer and peers are mutual
  ghost predicate PeersAreMutual(db: Db, sp: SpaceId) {
    forall t, u :: Live(db, t) && Live(db, u) && View(db, sp, t).peer == Some(u) ==>
      t != u && View(db, sp, u).peer == Some(t)
  }

  // a peer that a row outside the jobs had stays what it was, and was no leg of a job
  lemma PeerOutside(db: Db, sp: SpaceId, jobs: seq<Job>, t: TxId, u: TxId)
    requires JobsFree(db, sp, jobs) && PeersAreMutual(db, sp) && Live(db, t) && Live(db, u)
    requires t !in Ids(jobs) && View(db, sp, t).peer == Some(u)
    ensures t != u && View(db, sp, u).peer == Some(t) && u !in Ids(jobs)
  {
    forall j | j in jobs ensures u != j.out.ref.id && u != j.inc.ref.id {
      assert Free(db, sp, j.out) && Free(db, sp, j.inc);
    }
  }

  /** Pairing keeps peers mutual. */
  lemma PairingKeepsPeersMutual(db: Db, sp: SpaceId, jobs: seq<Job>)
    requires JobsFree(db, sp, jobs) && PeersAreMutual(db, sp)
    ensures PeersAreMutual(RunJobs(db, jobs), sp)
  {
    var e := RunJobs(db, jobs);
    JobsPair(db, sp, jobs);
    forall t, u | Live(e, t) && Live(e, u) && View(e, sp, t).peer == Some(u)
      ensures t != u && View(e, sp, u).peer == Some(t)
    {
      if t in Ids(jobs) {
        var j :| j in jobs && (t == j.out.ref.id || t == j.inc.ref.id);
        assert Mutual(e, sp, j);
      } else {
        PeerOutside(db, sp, jobs, t, u);
      }
    }
  }

  // ---- the pass pairs each leg at most once ----

  ghost predicate DistinctRows(all: seq<SpaceTx>) {
    forall i, k :: 0 <= i < k < |all| ==> all[i].ref.id != all[k].ref.id
  }

  // the space's own picture, and the matcher's promise: peerless rows of it, each used at most once
  ghost predicate Picture(db: Db, sp: SpaceId, all: seq<SpaceTx>, pairs: seq<(SpaceTx, SpaceTx)>) {
    && DistinctRows(all)
    && (forall tx :: tx in all ==> InList(db, sp, tx.ref) && View(db, sp, tx.ref.id).peer == tx.peer)
    && (forall p :: p in pairs ==> p.0 in all && p.1 in all && p.0.peer.None? && p.1.peer.None? &&
                                   p.0.amountCents < 0 < p.1.amountCents)
    && forall i, k :: 0 <= i < k < |pairs| ==> pairs[i].0 != pairs[k].0 && pairs[i].1 != pairs[k].1
  }

  lemma {:induction false} FilterIs(all: seq<SpaceTx>, keep: SpaceTx -> bool)
    ensures forall tx :: tx in Filter(all, keep) <==> tx in all && keep(tx)
    ensures DistinctRows(all) ==> DistinctRows(Filter(all, keep))
  {
    if all != [] {
      FilterIs(all[1..], keep);
      assert all == [all[0]] + all[1..];
      if DistinctRows(all) {
        assert forall tx :: tx in all[1..] ==> tx.ref.id != all[0].ref.id;
        assert forall i :: 0 <= i < |Filter(all[1..], keep)| ==> Filter(all[1..], keep)[i] in all[1..];
      }
    }
  }

  lemma {:induction false} TwinsAre(out: SpaceTx, incomes: seq<SpaceTx>, paired: set<TxId>)
    ensures forall tx :: tx in Twins(out, incomes, paired) <==>
      tx in incomes && tx.ref.id !in paired && Twin(out, tx)
  {
    if incomes != [] {
      TwinsAre(out, incomes[1..], paired);
      assert incomes == [incomes[0]] + incomes[1..];
    }
  }

  lemma {:induction false} SecondPassMembers(db: Db, outs: seq<SpaceTx>, incomes: seq<SpaceTx>, paired: set<TxId>)
    ensures forall j :: j in SecondPass(db, outs, incomes, paired) ==>
      j.out in outs && j.inc in incomes && j.inc.ref.id !in paired && Twin(j.out, j.inc)
  {
    if outs != [] {
      var twins := Twins(outs[0], incomes, paired);
      assert outs == [outs[0]] + outs[1..];
      if |twins| != 1 {
        SecondPassMembers(db, outs[1..], incomes, paired);
      } else {
        TwinsAre(outs[0], incomes, paired);
        assert twins[0] in twins;
        SecondPassMembers(db, outs[1..], incomes, paired + {outs[0].ref.id, twins[0].ref.id});
      }
    }
  }

  lemma {:induction false} SecondPassIsDisjoint(db: Db, outs: seq<SpaceTx>, incomes: seq<SpaceTx>, paired: set<TxId>)
    requires DistinctRows(outs)
    requires forall o, c :: o in outs && c in incomes ==> o.ref.id != c.ref.id
    ensures Disjoint(SecondPass(db, outs, incomes, paired))
  {
    if outs != [] {
      var twins, later := Twins(outs[0], incomes, paired), outs[1..];
      if |twins| != 1 {
        SecondPassIsDisjoint(db, later, incomes, paired);
      } else {
        var inner := paired + {outs[0].ref.id, twins[0].ref.id};
        SecondPassIsDisjoint(db, later, incomes, inner);
        FirstTwinApart(db, outs, incomes, paired);
        var job := Job(outs[0], twins[0], TwinExtra(db, outs[0], twins[0]));
        DisjointConcat([job], SecondPass(db, later, incomes, inner));
      }
    }
  }

  // the first open out-leg's pair shares no row with what the rest of the pass makes
  lemma FirstTwinApart(db: Db, outs: seq<SpaceTx>, incomes: seq<SpaceTx>, paired: set<TxId>)
    requires DistinctRows(outs) && outs != [] && |Twins(outs[0], incomes, paired)| == 1
    requires forall o, c :: o in outs && c in incomes ==> o.ref.id != c.ref.id
    ensures var twin := Twins(outs[0], incomes, paired)[0];
      var job := Job(outs[0], twin, TwinExtra(db, outs[0], twin));
      var inner := paired + {outs[0].ref.id, twin.ref.id};
      Disjoint([job]) && Ids([job]) !! Ids(SecondPass(db, outs[1..], incomes, inner))
  {
    var twins := Twins(outs[0], incomes, paired);
    var inner := paired + {outs[0].ref.id, twins[0].ref.id};
    TwinsAre(outs[0], incomes, paired);
    assert twins[0] in twins;
    assert forall o :: o in outs[1..] ==> o in outs && o.ref.id != outs[0].ref.id;
    LaterApart(db, outs[0], twins[0], outs[1..], incomes, inner);
    JobApart(Job(outs[0], twins[0], TwinExtra(db, outs[0], twins[0])), SecondPass(db, outs[1..], incomes, inner));
  }

  // later jobs take neither row of a pair that is spent
  lemma LaterApart(db: Db, out: SpaceTx, twin: SpaceTx, later: seq<SpaceTx>, incomes: seq<SpaceTx>, spent: set<TxId>)
    requires twin.ref.id in spent && forall o :: o in later ==> o.ref.id != out.ref.id && o.ref.id != twin.ref.id
    requires forall c :: c in incomes ==> c.ref.id != out.ref.id
    ensures forall j :: j in SecondPass(db, later, incomes, spent) ==>
      {j.out.ref.id, j.inc.ref.id} !! {out.ref.id, twin.ref.id}
  {
    SecondPassMembers(db, later, incomes, spent);
  }

  lemma JobApart(job: Job, rest: seq<Job>)
    requires job.out.ref.id != job.inc.ref.id
    requires forall j :: j in rest ==> {j.out.ref.id, j.inc.ref.id} !! {job.out.ref.id, job.inc.ref.id}
    ensures Disjoint([job]) && Ids([job]) !! Ids(rest)
  {
  }

  lemma DisjointConcat(a: seq<Job>, b: seq<Job>)
    requires Disjoint(a) && Disjoint(b) && Ids(a) !! Ids(b)
    ensures Disjoint(a + b)
  {
    forall i, k | 0 <= i < k < |a + b| ensures
      (a + b)[i].out.ref.id != (a + b)[k].out.ref.id && (a + b)[i].inc.ref.id != (a + b)[k].inc.ref.id &&
      (a + b)[i].out.ref.id != (a + b)[k].inc.ref.id && (a + b)[i].inc.ref.id != (a + b)[k].out.ref.id
    {
      if i < |a| <= k {
        assert a[i] in a && b[k - |a|] in b;
        assert a[i].out.ref.id in Ids(a) && a[i].inc.ref.id in Ids(a);
        assert b[k - |a|].out.ref.id in Ids(b) && b[k - |a|].inc.ref.id in Ids(b);
      }
    }
  }

  lemma FirstPassJobs(db: Db, sp: SpaceId, all: seq<SpaceTx>, pairs: seq<(SpaceTx, SpaceTx)>)
    requires Picture(db, sp, all, pairs)
    ensures Disjoint(FirstPass(pairs))
    ensures forall j :: j in FirstPass(pairs) ==> j.out in all && j.inc in all && j.out.peer.None? && j.inc.peer.None?
  {
    var jobs := FirstPass(pairs);
    assert forall i :: 0 <= i < |pairs| ==> pairs[i] in pairs;
    forall x, y | x in all && y in all && x != y ensures x.ref.id != y.ref.id {
      var i :| 0 <= i < |all| && all[i] == x;
      var k :| 0 <= k < |all| && all[k] == y;
    }
  }

  /** Both passes together use each row of the picture at most once, and only peerless ones. */
  lemma JobsAreFree(db: Db, sp: SpaceId, all: seq<SpaceTx>, pairs: seq<(SpaceTx, SpaceTx)>)
    requires Picture(db, sp, all, pairs)
    ensures JobsFree(db, sp, AllJobs(db, all, pairs))
  {
    var first := FirstPass(pairs);
    var paired := Ids(first);
    var outs, incomes := Filter(all, tx => OpenOut(tx, paired)), Filter(all, tx => RawIncome(tx, paired));
    FirstPassJobs(db, sp, all, pairs);
    FilterIs(all, tx => OpenOut(tx, paired));
    FilterIs(all, tx => RawIncome(tx, paired));
    forall o, c | o in outs && c in incomes ensures o.ref.id != c.ref.id {
      var i :| 0 <= i < |all| && all[i] == o;
      var k :| 0 <= k < |all| && all[k] == c;
    }
    SecondPassMembers(db, outs, incomes, paired);
    SecondPassIsDisjoint(db, outs, incomes, paired);
    var second := SecondPass(db, outs, incomes, paired);
    DisjointConcat(first, second);
  }

  /** Pairing a space leaves every pair mutual and every other row's opinions, the set of rows and
      every balance as they were. */
  lemma PairingIsQuiet(db: Db, sp: SpaceId, all: seq<SpaceTx>, pairs: seq<(SpaceTx, SpaceTx)>)
    requires Picture(db, sp, all, pairs)
    ensures var jobs := AllJobs(db, all, pairs); var e := RunJobs(db, jobs);
      && OnlyViews(db, e, sp, Ids(jobs))
      && Disjoint(jobs) && (forall j :: j in jobs ==> Mutual(e, sp, j))
      && (PeersAreMutual(db, sp) ==> PeersAreMutual(e, sp))
  {
    JobsAreFree(db, sp, all, pairs);
    JobsPair(db, sp, AllJobs(db, all, pairs));
    if PeersAreMutual(db, sp) {
      PairingKeepsPeersMutual(db, sp, AllJobs(db, all, pairs));
    }
  }

  // ---- the pass on the store ----

  lemma {:induction false} RunJobsConcat(db: Db, a: seq<Job>, b: seq<Job>)
    ensures RunJobs(db, a + b) == RunJobs(RunJobs(db, a), b)
    decreases |a|
  {
    if a == [] {
      assert a + b == b;
    } else {
      assert (a + b)[1..] == a[1..] + b;
      RunJobsConcat(WritePairOf(db, a[0]), a[1..], b);
    }
  }

  method WriteJobs(store: Store, jobs: seq<Job>)
    modifies store
    ensures store.View() == RunJobs(old(store.View()), jobs)
  {
    var i := 0;
    while i < |jobs|
      invariant 0 <= i <= |jobs|
      invariant RunJobs(store.View(), jobs[i..]) == RunJobs(old(store.View()), jobs)
    {
      assert jobs[i..][0] == jobs[i] && jobs[i..][1..] == jobs[i + 1..];
      WritePair(store, jobs[i]);
      i := i + 1;
    }
  }

  // one open out-leg with its one twin: the run so far and the run to come
  lemma TwinStep(db: Db, now: Db, sp: SpaceId, outs: seq<SpaceTx>, incomes: seq<SpaceTx>, paired: set<TxId>)
    requires outs != [] && |Twins(outs[0], incomes, paired)| == 1 && now.accounts == db.accounts
    requires JobsFree(now, sp, SecondPass(db, outs, incomes, paired))
    ensures var twin := Twins(outs[0], incomes, paired)[0];
      var job := Job(outs[0], twin, TwinExtra(now, outs[0], twin));
      var rest := SecondPass(db, outs[1..], incomes, paired + {outs[0].ref.id, twin.ref.id});
      && WritePairOf(now, job).accounts == db.accounts && JobsFree(WritePairOf(now, job), sp, rest)
      && RunJobs(now, SecondPass(db, outs, incomes, paired)) == RunJobs(WritePairOf(now, job), rest)
      && |SecondPass(db, outs, incomes, paired)| == 1 + |rest|
  {
    var all := SecondPass(db, outs, incomes, paired);
    PairWritten(now, sp, all[0]);
    RestStaysFree(now, sp, all);
  }

  method LinkSpacePairs(store: Store, ghost sp: SpaceId, all: seq<SpaceTx>, pairs: seq<(SpaceTx, SpaceTx)>)
    returns (linked: nat)
    requires Picture(store.View(), sp, all, pairs)
    modifies store
    ensures var jobs := AllJobs(old(store.View()), all, pairs);
      store.View() == RunJobs(old(store.View()), jobs) && linked == |jobs|
  {
    ghost var db := store.View();
    var first := FirstPass(pairs);
    WriteJobs(store, first);
    linked := |first|;
    var paired := Ids(first);
    var outs, incomes := Filter(all, tx => OpenOut(tx, paired)), Filter(all, tx => RawIncome(tx, paired));
    ghost var second := SecondPass(db, outs, incomes, paired);
    JobsAreFree(db, sp, all, pairs);
    RunJobsConcat(db, first, second);
    FreePrefix(db, sp, first, second);
    var more := LinkTwins(store, db, sp, outs, incomes, paired);
    linked := linked + more;
  }

  // the second pass: the open out-legs one by one, on the twins not spent yet
  method LinkTwins(store: Store, ghost db: Db, ghost sp: SpaceId, outs: seq<SpaceTx>, incomes: seq<SpaceTx>,
                   start: set<TxId>)
    returns (linked: nat)
    requires store.accounts == db.accounts && JobsFree(store.View(), sp, SecondPass(db, outs, incomes, start))
    modifies store
    ensures var jobs := SecondPass(db, outs, incomes, start);
      store.View() == RunJobs(old(store.View()), jobs) && linked == |jobs|
  {
    ghost var all := SecondPass(db, outs, incomes, start);
    var todo, paired := outs, start;
    linked := 0;
    while todo != []
      invariant store.accounts == db.accounts
      invariant var rest := SecondPass(db, todo, incomes, paired);
        && JobsFree(store.View(), sp, rest)
        && RunJobs(store.View(), rest) == RunJobs(old(store.View()), all) && linked + |rest| == |all|
      decreases |todo|
    {
      var one;
      one, paired := LinkTwin(store, db, sp, todo, incomes, paired);
      linked, todo := if one then linked + 1 else linked, todo[1..];
    }
  }

  // one open out-leg: linked when it has exactly one twin left
  method LinkTwin(store: Store, ghost db: Db, ghost sp: SpaceId, outs: seq<SpaceTx>, incomes: seq<SpaceTx>,
                  paired: set<TxId>)
    returns (one: bool, spent: set<TxId>)
    requires outs != [] && store.accounts == db.accounts
    requires JobsFree(store.View(), sp, SecondPass(db, outs, incomes, paired))
    modifies store
    ensures var all, rest := SecondPass(db, outs, incomes, paired), SecondPass(db, outs[1..], incomes, spent);
      && store.accounts == db.accounts && JobsFree(store.View(), sp, rest)
      && RunJobs(store.View(), rest) == RunJobs(old(store.View()), all) && |all| == |rest| + if one then 1 else 0
  {
    var twins := Twins(outs[0], incomes, paired);
    one, spent := |twins| == 1, paired;
    if one {
      var job := Job(outs[0], twins[0], TwinExtra(store.View(), outs[0], twins[0]));
      TwinStep(db, store.View(), sp, outs, incomes, paired);
      spent := paired + {outs[0].ref.id, twins[0].ref.id};
      WritePair(store, job);
    }
  }

  // the second pass's jobs are still free when the first pass is done
  lemma {:induction false} FreePrefix(db: Db, sp: SpaceId, a: seq<Job>, b: seq<Job>)
    requires JobsFree(db, sp, a + b)
    ensures JobsFree(RunJobs(db, a), sp, b) && RunJobs(db, a).accounts == db.accounts
    decreases |a|
  {
    if a == [] {
      assert a + b == b;
    } else {
      assert (a + b)[1..] == a[1..] + b;
      PairWritten(db, sp, a[0]);
      RestStaysFree(db, sp, a + b);
      FreePrefix(WritePairOf(db, a[0]), sp, a[1..], b);
    }
  }
}
