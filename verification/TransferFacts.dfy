/**
 What pairing does, told from the rows: which incomes an open out-leg may take and when it takes one,
 and what the two legs of a pair adopt from each other.
 */
module TransferFacts {
  import opened Records
  import opened MirrorMint
  import opened Joined
  import opened Ledger
  import opened LedgerWrite
  import opened TransferPairs

  // the two legs of one move of money: onto the linked account, the same cents back, within two days
  predicate Mirrors(out: SpaceTx, inc: SpaceTx) {
    out.link == Some(inc.accountId) && inc.amountCents == -out.amountCents && -2 <= inc.date - out.date <= 2
  }

  predicate UnclaimedIncome(inc: SpaceTx) {
    inc.income && inc.amountCents > 0 && inc.link.None? && inc.peer.None?
  }

  predicate DeliberateOut(out: SpaceTx) {
    out.transfer && out.amountCents < 0 && out.link.Some? && out.peer.None?
  }

  // an income of the list that nobody used and that mirrors `out`
  predicate Claimable(all: seq<SpaceTx>, out: SpaceTx, used: set<TxId>, inc: SpaceTx) {
    inc in all && UnclaimedIncome(inc) && inc.ref.id !in used && Mirrors(out, inc)
  }

  // `inc` is the one
  ghost predicate OnlyClaim(all: seq<SpaceTx>, out: SpaceTx, used: set<TxId>, inc: SpaceTx) {
    Claimable(all, out, used, inc) && forall tx :: Claimable(all, out, used, tx) ==> tx == inc
  }

  lemma {:induction false} TwinsApart(out: SpaceTx, incomes: seq<SpaceTx>, used: set<TxId>)
    requires DistinctRows(incomes)
    ensures DistinctRows(Twins(out, incomes, used))
  {
    if incomes != [] {
      var tail := Twins(out, incomes[1..], used);
      TwinsApart(out, incomes[1..], used);
      TwinsAre(out, incomes[1..], used);
      assert forall tx :: tx in incomes[1..] ==> tx.ref.id != incomes[0].ref.id;
      assert forall i :: 0 <= i < |tail| ==> tail[i] in tail;
    }
  }

  // the raw incomes the second pass picks from
  ghost predicate Incomes(all: seq<SpaceTx>, paired: set<TxId>, incomes: seq<SpaceTx>) {
    DistinctRows(incomes) &&
    forall tx :: tx in incomes <==> tx in all && UnclaimedIncome(tx) && tx.ref.id !in paired
  }

  // one twin found is one income that mirrors the out-leg
  lemma OneTwinFound(all: seq<SpaceTx>, paired: set<TxId>, incomes: seq<SpaceTx>, out: SpaceTx, used: set<TxId>)
    requires Incomes(all, paired, incomes) && out.amountCents < 0 && paired <= used
    ensures var twins := Twins(out, incomes, used);
      && (|twins| == 1 <==> exists inc :: OnlyClaim(all, out, used, inc))
      && (|twins| == 1 ==> OnlyClaim(all, out, used, twins[0]))
  {
    var twins := Twins(out, incomes, used);
    TwinsAre(out, incomes, used);
    TwinsApart(out, incomes, used);
    assert forall tx :: tx in twins <==> Claimable(all, out, used, tx);
    OneOf(all, out, used, twins);
  }

  lemma OneOf(all: seq<SpaceTx>, out: SpaceTx, used: set<TxId>, twins: seq<SpaceTx>)
    requires DistinctRows(twins) && forall tx :: tx in twins <==> Claimable(all, out, used, tx)
    ensures |twins| == 1 <==> exists inc :: OnlyClaim(all, out, used, inc)
    ensures |twins| == 1 ==> OnlyClaim(all, out, used, twins[0])
  {
    if |twins| == 1 {
      assert twins[0] in twins;
      forall tx | Claimable(all, out, used, tx) ensures tx == twins[0] {
        assert tx in twins;
      }
      assert OnlyClaim(all, out, used, twins[0]);
    } else if inc :| OnlyClaim(all, out, used, inc) {
      assert inc in twins && twins[0] in twins && twins[1] in twins;
      assert twins[0] == inc && twins[1] == inc;
    }
  }

  // where the pass stands when it reaches the q-th open out-leg: `m` pairs were made by the ones before
  ghost predicate Reached(jobs: seq<Job>, outs: seq<SpaceTx>, q: nat, m: nat)
    requires q < |outs|
  {
    && m <= |jobs|
    && (forall k :: 0 <= k < m ==> jobs[k].out in outs[..q])
    && (forall k :: m <= k < |jobs| ==> jobs[k].out in outs[q..])
  }

  // that out-leg is paired if it has exactly one twin left, and with it
  ghost predicate Decided(db: Db, jobs: seq<Job>, out: SpaceTx, m: nat, twins: seq<SpaceTx>) {
    && (m < |jobs| && jobs[m].out == out <==> |twins| == 1)
    && (|twins| == 1 ==> m < |jobs| && jobs[m].inc == twins[0] && jobs[m].extra == TwinExtra(db, out, twins[0]))
  }

  lemma FirstDecided(db: Db, outs: seq<SpaceTx>, incomes: seq<SpaceTx>, paired: set<TxId>)
    requires DistinctRows(outs) && outs != []
    ensures var jobs := SecondPass(db, outs, incomes, paired);
      Reached(jobs, outs, 0, 0) && Decided(db, jobs, outs[0], 0, Twins(outs[0], incomes, paired))
  {
    var jobs := SecondPass(db, outs, incomes, paired);
    SecondPassMembers(db, outs, incomes, paired);
    assert outs[0..] == outs;
    assert forall k :: 0 <= k < |jobs| ==> jobs[k] in jobs;
    if |Twins(outs[0], incomes, paired)| != 1 {
      SecondPassMembers(db, outs[1..], incomes, paired);
      assert forall o :: o in outs[1..] ==> o.ref.id != outs[0].ref.id;
    }
  }

  lemma NextReached(job: Job, rest: seq<Job>, outs: seq<SpaceTx>, q: nat, n: nat)
    requires 0 < q < |outs| && job.out == outs[0] && Reached(rest, outs[1..], q - 1, n)
    ensures Reached([job] + rest, outs, q, n + 1)
  {
    assert outs[1..][..q - 1] == outs[1..q] && outs[1..][q - 1..] == outs[q..];
    assert outs[..q] == [outs[0]] + outs[1..q];
  }

  lemma SameReached(rest: seq<Job>, outs: seq<SpaceTx>, q: nat, n: nat)
    requires 0 < q < |outs| && Reached(rest, outs[1..], q - 1, n)
    ensures Reached(rest, outs, q, n)
  {
    assert outs[1..][..q - 1] == outs[1..q] && outs[1..][q - 1..] == outs[q..];
    assert outs[..q] == [outs[0]] + outs[1..q];
  }

  lemma NextIds(job: Job, rest: seq<Job>, n: nat)
    requires n <= |rest|
    ensures Ids(([job] + rest)[..n + 1]) == {job.out.ref.id, job.inc.ref.id} + Ids(rest[..n])
  {
    assert ([job] + rest)[..n + 1] == [job] + rest[..n];
  }

  lemma NextDecided(db: Db, job: Job, rest: seq<Job>, out: SpaceTx, n: nat, twins: seq<SpaceTx>)
    requires n <= |rest| && Decided(db, rest, out, n, twins)
    ensures Decided(db, [job] + rest, out, n + 1, twins)
  {
    assert n < |rest| ==> ([job] + rest)[n + 1] == rest[n];
  }

  lemma NextPass(db: Db, job: Job, rest: seq<Job>, jobs: seq<Job>, outs: seq<SpaceTx>, paired: set<TxId>,
                 q: nat, n: nat, used: set<TxId>, twins: seq<SpaceTx>)
    requires jobs == [job] + rest && 0 < q < |outs| && job.out == outs[0] && Reached(rest, outs[1..], q - 1, n)
    requires used == paired + {job.out.ref.id, job.inc.ref.id} + Ids(rest[..n])
    requires Decided(db, rest, outs[q], n, twins)
    ensures Reached(jobs, outs, q, n + 1) && used == paired + Ids(jobs[..n + 1])
    ensures Decided(db, jobs, outs[q], n + 1, twins)
  {
    NextReached(job, rest, outs, q, n);
    NextIds(job, rest, n);
    NextDecided(db, job, rest, outs[q], n, twins);
  }

  lemma {:induction false} PassAt(db: Db, outs: seq<SpaceTx>, incomes: seq<SpaceTx>, paired: set<TxId>, q: nat)
    returns (jobs: seq<Job>, m: nat, used: set<TxId>)
    requires DistinctRows(outs) && q < |outs|
    ensures jobs == SecondPass(db, outs, incomes, paired)
    ensures Reached(jobs, outs, q, m) && used == paired + Ids(jobs[..m])
    ensures Decided(db, jobs, outs[q], m, Twins(outs[q], incomes, used))
  {
    jobs := SecondPass(db, outs, incomes, paired);
    if q == 0 {
      m, used := 0, paired;
      FirstDecided(db, outs, incomes, paired);
      assert paired + Ids([]) == paired;
    } else {
      var twins := Twins(outs[0], incomes, paired);
      var rest;
      if |twins| == 1 {
        var job := Job(outs[0], twins[0], TwinExtra(db, outs[0], twins[0]));
        rest, m, used := PassAt(db, outs[1..], incomes, paired + {outs[0].ref.id, twins[0].ref.id}, q - 1);
        NextPass(db, job, rest, jobs, outs, paired, q, m, used, Twins(outs[q], incomes, used));
        m := m + 1;
      } else {
        rest, m, used := PassAt(db, outs[1..], incomes, paired, q - 1);
        SameReached(jobs, outs, q, m);
      }
    }
  }

  // job `k` took the one twin left for it
  ghost predicate TookTwin(jobs: seq<Job>, incomes: seq<SpaceTx>, paired: set<TxId>, k: nat)
    requires k < |jobs|
  {
    var twins := Twins(jobs[k].out, incomes, paired + Ids(jobs[..k])); |twins| == 1 && jobs[k].inc == twins[0]
  }

  lemma NextTook(job: Job, rest: seq<Job>, incomes: seq<SpaceTx>, paired: set<TxId>, k: nat)
    requires k < |rest| && TookTwin(rest, incomes, paired + {job.out.ref.id, job.inc.ref.id}, k)
    ensures TookTwin([job] + rest, incomes, paired, k + 1)
  {
    NextIds(job, rest, k);
    assert paired + Ids(([job] + rest)[..k + 1]) == paired + {job.out.ref.id, job.inc.ref.id} + Ids(rest[..k]);
  }

  lemma {:induction false} JobAt(db: Db, outs: seq<SpaceTx>, incomes: seq<SpaceTx>, paired: set<TxId>, k: nat)
    requires k < |SecondPass(db, outs, incomes, paired)|
    ensures TookTwin(SecondPass(db, outs, incomes, paired), incomes, paired, k)
    decreases |outs|
  {
    var twins := Twins(outs[0], incomes, paired);
    if |twins| != 1 {
      JobAt(db, outs[1..], incomes, paired, k);
    } else if k == 0 {
      assert paired + Ids([]) == paired;
    } else {
      var job := Job(outs[0], twins[0], TwinExtra(db, outs[0], twins[0]));
      var inner := paired + {outs[0].ref.id, twins[0].ref.id};
      JobAt(db, outs[1..], incomes, inner, k - 1);
      NextTook(job, SecondPass(db, outs[1..], incomes, inner), incomes, paired, k - 1);
    }
  }

  lemma IdsConcat(a: seq<Job>, b: seq<Job>, m: nat)
    requires m <= |b|
    ensures Ids((a + b)[..|a| + m]) == Ids(a) + Ids(b[..m])
  {
    assert (a + b)[..|a| + m] == a + b[..m];
  }

  ghost predicate Outs(all: seq<SpaceTx>, paired: set<TxId>, outs: seq<SpaceTx>) {
    forall tx :: tx in outs <==> tx in all && DeliberateOut(tx) && tx.ref.id !in paired
  }

  // the two lists the second pass works on
  lemma Lists(db: Db, all: seq<SpaceTx>, pairs: seq<(SpaceTx, SpaceTx)>)
    returns (first: seq<Job>, second: seq<Job>, outs: seq<SpaceTx>, incomes: seq<SpaceTx>)
    requires DistinctRows(all)
    ensures first == FirstPass(pairs) && |first| == |pairs| && second == SecondPass(db, outs, incomes, Ids(first))
    ensures AllJobs(db, all, pairs) == first + second
    ensures Incomes(all, Ids(first), incomes) && DistinctRows(outs)
    ensures Outs(all, Ids(first), outs)
  {
    first := FirstPass(pairs);
    var paired := Ids(first);
    outs, incomes := Filter(all, tx => OpenOut(tx, paired)), Filter(all, tx => RawIncome(tx, paired));
    second := SecondPass(db, outs, incomes, paired);
    FilterIs(all, tx => OpenOut(tx, paired));
    FilterIs(all, tx => RawIncome(tx, paired));
  }

  // job `k` is a deliberate out-leg and the one income it could claim then
  ghost predicate Claims(all: seq<SpaceTx>, jobs: seq<Job>, first: nat, k: nat)
    requires first <= k < |jobs|
  {
    var j := jobs[k];
    j.out in all && DeliberateOut(j.out) && j.out.ref.id !in Ids(jobs[..first]) &&
    OnlyClaim(all, j.out, Ids(jobs[..k]), j.inc)
  }

  lemma SecondClaims(db: Db, all: seq<SpaceTx>, first: seq<Job>, second: seq<Job>, outs: seq<SpaceTx>,
                     incomes: seq<SpaceTx>, i: nat)
    requires second == SecondPass(db, outs, incomes, Ids(first)) && i < |second| && Incomes(all, Ids(first), incomes)
    requires Outs(all, Ids(first), outs)
    ensures Claims(all, first + second, |first|, |first| + i)
  {
    SecondPassMembers(db, outs, incomes, Ids(first));
    assert second[i] in second;
    JobAt(db, outs, incomes, Ids(first), i);
    IdsConcat(first, second, i);
    IdsConcat(first, second, 0);
    OneTwinFound(all, Ids(first), incomes, second[i].out, Ids(first) + Ids(second[..i]));
  }

  lemma AllClaim(db: Db, all: seq<SpaceTx>, first: seq<Job>, second: seq<Job>, outs: seq<SpaceTx>,
                 incomes: seq<SpaceTx>, jobs: seq<Job>)
    requires second == SecondPass(db, outs, incomes, Ids(first)) && jobs == first + second
    requires Incomes(all, Ids(first), incomes) && Outs(all, Ids(first), outs)
    ensures forall k: nat :: |first| <= k < |jobs| ==> Claims(all, jobs, |first|, k)
  {
    forall k: nat | |first| <= k < |jobs| ensures Claims(all, jobs, |first|, k) {
      SecondClaims(db, all, first, second, outs, incomes, k - |first|);
    }
  }

  /** Every pair of the second pass is a deliberate out-leg and the only income left, when its turn came,
      that brings the same money to the linked account within two days. */
  lemma PairsMirror(db: Db, all: seq<SpaceTx>, pairs: seq<(SpaceTx, SpaceTx)>)
    requires DistinctRows(all)
    ensures var jobs := AllJobs(db, all, pairs);
      forall k: nat :: |pairs| <= k < |jobs| ==> Claims(all, jobs, |pairs|, k)
  {
    var first, second, outs, incomes := Lists(db, all, pairs);
    AllClaim(db, all, first, second, outs, incomes, AllJobs(db, all, pairs));
  }

  lemma {:induction false} FilterConcat(a: seq<SpaceTx>, b: seq<SpaceTx>, keep: SpaceTx -> bool)
    ensures Filter(a + b, keep) == Filter(a, keep) + Filter(b, keep)
  {
    if a == [] {
      assert a + b == b;
    } else {
      var head := if keep(a[0]) then [a[0]] else [];
      FilterConcat(a[1..], b, keep);
      assert (a + b)[1..] == a[1..] + b && (a + b)[0] == a[0];
      assert Filter(a + b, keep) == head + Filter(a[1..] + b, keep);
      assert head + (Filter(a[1..], keep) + Filter(b, keep)) == head + Filter(a[1..], keep) + Filter(b, keep);
    }
  }

  // outs[q] is all[i], and the order of the two lists is the same
  ghost predicate Around(all: seq<SpaceTx>, outs: seq<SpaceTx>, q: nat, i: nat) {
    && q < |outs| && i < |all| && outs[q] == all[i]
    && (forall tx :: tx in outs[..q] ==> tx in all[..i]) && forall tx :: tx in outs[q..] ==> tx in all[i..]
  }

  lemma FilterAt(all: seq<SpaceTx>, keep: SpaceTx -> bool, i: nat) returns (q: nat)
    requires i < |all| && keep(all[i])
    ensures Around(all, Filter(all, keep), q, i)
  {
    var before, from := Filter(all[..i], keep), Filter(all[i..], keep);
    assert all == all[..i] + all[i..];
    FilterConcat(all[..i], all[i..], keep);
    FilterIs(all[..i], keep);
    FilterIs(all[i..], keep);
    q := |before|;
    assert (before + from)[..q] == before && (before + from)[q..] == from;
    assert from[0] == all[i];
  }

  // when the pass reaches all[i], `m` jobs are made, by out-legs before it in the list
  ghost predicate InTurn(jobs: seq<Job>, all: seq<SpaceTx>, from: nat, i: nat, m: nat)
    requires i < |all|
  {
    && from <= m <= |jobs|
    && (forall k :: from <= k < m ==> jobs[k].out in all[..i])
    && (forall k :: m <= k < |jobs| ==> jobs[k].out in all[i..])
  }

  lemma TurnOf(first: seq<Job>, second: seq<Job>, outs: seq<SpaceTx>, all: seq<SpaceTx>, q: nat, i: nat, n: nat)
    requires Around(all, outs, q, i) && Reached(second, outs, q, n)
    ensures InTurn(first + second, all, |first|, i, |first| + n)
  {
    var jobs := first + second;
    forall k | |first| <= k < |jobs| ensures k < |first| + n ==> jobs[k].out in all[..i]
      ensures k >= |first| + n ==> jobs[k].out in all[i..]
    {
      assert jobs[k] == second[k - |first|];
    }
  }

  // ... and `out` is paired then exactly when one income mirrors it
  ghost predicate PairedInTurn(all: seq<SpaceTx>, jobs: seq<Job>, out: SpaceTx, m: nat) {
    && m <= |jobs|
    && (m < |jobs| && jobs[m].out == out <==> exists inc :: OnlyClaim(all, out, Ids(jobs[..m]), inc))
    && (m < |jobs| && jobs[m].out == out ==> OnlyClaim(all, out, Ids(jobs[..m]), jobs[m].inc))
  }

  lemma FoundInTurn(db: Db, all: seq<SpaceTx>, first: seq<Job>, second: seq<Job>, incomes: seq<SpaceTx>,
                    out: SpaceTx, n: nat, used: set<TxId>)
    requires n <= |second| && used == Ids(first) + Ids(second[..n]) && out.amountCents < 0
    requires Decided(db, second, out, n, Twins(out, incomes, used)) && Incomes(all, Ids(first), incomes)
    ensures PairedInTurn(all, first + second, out, |first| + n)
  {
    var jobs := first + second;
    IdsConcat(first, second, n);
    OneTwinFound(all, Ids(first), incomes, out, used);
    assert n < |second| ==> jobs[|first| + n] == second[n];
  }

  lemma BothInTurn(db: Db, all: seq<SpaceTx>, first: seq<Job>, second: seq<Job>, outs: seq<SpaceTx>,
                   incomes: seq<SpaceTx>, q: nat, i: nat, n: nat, used: set<TxId>, jobs: seq<Job>, m: nat)
    requires jobs == first + second && m == |first| + n
    requires Around(all, outs, q, i) && Incomes(all, Ids(first), incomes) && outs[q].amountCents < 0
    requires Reached(second, outs, q, n) && used == Ids(first) + Ids(second[..n])
    requires Decided(db, second, outs[q], n, Twins(outs[q], incomes, used))
    ensures InTurn(jobs, all, |first|, i, m)
    ensures PairedInTurn(all, jobs, all[i], m)
  {
    TurnOf(first, second, outs, all, q, i, n);
    FoundInTurn(db, all, first, second, incomes, outs[q], n, used);
  }

  lemma ListsAt(db: Db, all: seq<SpaceTx>, pairs: seq<(SpaceTx, SpaceTx)>, i: nat)
    returns (first: seq<Job>, second: seq<Job>, outs: seq<SpaceTx>, incomes: seq<SpaceTx>, q: nat)
    requires DistinctRows(all) && i < |all| && DeliberateOut(all[i]) && all[i].ref.id !in Ids(FirstPass(pairs))
    ensures first == FirstPass(pairs) && |first| == |pairs| && second == SecondPass(db, outs, incomes, Ids(first))
    ensures AllJobs(db, all, pairs) == first + second
    ensures Incomes(all, Ids(first), incomes) && DistinctRows(outs)
    ensures Around(all, outs, q, i)
  {
    first := FirstPass(pairs);
    var paired := Ids(first);
    outs, incomes := Filter(all, tx => OpenOut(tx, paired)), Filter(all, tx => RawIncome(tx, paired));
    FilterIs(all, tx => OpenOut(tx, paired));
    FilterIs(all, tx => RawIncome(tx, paired));
    q := FilterAt(all, tx => OpenOut(tx, paired), i);
    second := SecondPass(db, outs, incomes, paired);
  }

  // the jobs when the pass reaches all[i], and what it decides there
  lemma TurnAt(db: Db, all: seq<SpaceTx>, pairs: seq<(SpaceTx, SpaceTx)>, i: nat)
    returns (first: seq<Job>, second: seq<Job>, outs: seq<SpaceTx>, incomes: seq<SpaceTx>,
             q: nat, n: nat, used: set<TxId>)
    requires DistinctRows(all) && i < |all| && DeliberateOut(all[i]) && all[i].ref.id !in Ids(FirstPass(pairs))
    ensures |first| == |pairs| && AllJobs(db, all, pairs) == first + second
    ensures Incomes(all, Ids(first), incomes) && Around(all, outs, q, i)
    ensures Reached(second, outs, q, n) && used == Ids(first) + Ids(second[..n])
    ensures Decided(db, second, outs[q], n, Twins(outs[q], incomes, used))
  {
    first, second, outs, incomes, q := ListsAt(db, all, pairs, i);
    second, n, used := PassAt(db, outs, incomes, Ids(first), q);
  }

  /** A deliberate out-leg that the first pass left is reached in the list's order, and is paired then if
      and only if exactly one income left mirrors it, with that income. */
  lemma OutIsPaired(db: Db, all: seq<SpaceTx>, pairs: seq<(SpaceTx, SpaceTx)>, i: nat) returns (jobs: seq<Job>, m: nat)
    requires DistinctRows(all) && i < |all| && DeliberateOut(all[i]) && all[i].ref.id !in Ids(FirstPass(pairs))
    ensures jobs == AllJobs(db, all, pairs) && InTurn(jobs, all, |pairs|, i, m)
    ensures PairedInTurn(all, jobs, all[i], m)
  {
    var first, second, outs, incomes, q, n, used := TurnAt(db, all, pairs, i);
    jobs, m := first + second, |first| + n;
    BothInTurn(db, all, first, second, outs, incomes, q, i, n, used, jobs, m);
  }

  // ---- what the legs adopt ----

  // filed as money into the pot or out of it
  predicate FiledByPot(c: Cat, kind: AccountType, amountCents: int) {
    MovesWith(c, kind) && (PaysInto(c) <==> amountCents >= 0)
  }

  // filed as money to the other account or from it
  predicate FiledByOther(c: Cat, kind: AccountType, amountCents: int) {
    MovesWith(c, kind) && (PaysInto(c) <==> amountCents < 0)
  }

  /** The category of a leg: a pot's own leg is filed by the pot, a leg beside a pot or a funding pot by
      that one, a claimed twin by whatever account the other leg is on; any other leg keeps its own. */
  ghost predicate Adopts(db: Db, leg: SpaceTx, other: SpaceTx, twin: bool, was: Option<Cat>, now: Option<Cat>) {
    var a, b := leg.accountId, other.accountId;
    if a in db.accounts && IsPot(db.accounts[a].kind) then
      now.Some? && FiledByPot(now.value, db.accounts[a].kind, leg.amountCents)
    else if b in db.accounts && (twin || IsPot(db.accounts[b].kind) || db.accounts[b].kind.Funding?) then
      now.Some? && FiledByOther(now.value, db.accounts[b].kind, leg.amountCents)
    else if twin then now.Some? && FiledByOther(now.value, Checking, leg.amountCents)
    else now == was
  }

  // one leg after the pairing: its peer, an empty counterparty filled (a twin's set), its category, no more
  ghost predicate LegAfter(db: Db, leg: SpaceTx, other: SpaceTx, twin: bool, was: Opinions, now: Opinions) {
    && now == was.(link := now.link, catId := now.catId, peer := Some(other.ref.id), needsReview := now.needsReview)
    && now.link == (if leg.link.Some? && !twin then was.link else Some(other.accountId))
    && now.needsReview == (if leg.ref.feed then Some(leg.ref.needsReview) else was.needsReview)
    && Adopts(db, leg, other, twin, was.catId, now.catId)
  }

  // the patch of one leg, told from the accounts
  ghost predicate Fills(db: Db, leg: SpaceTx, other: SpaceTx, twin: bool, p: Patch) {
    && p == NO_CHANGE.(link := p.link, catId := p.catId, peer := Set(Some(other.ref.id)))
    && p.link == (if leg.link.Some? && !twin then Keep else Set(Some(other.accountId)))
    && forall was :: Adopts(db, leg, other, twin, was, Changed(p.catId, was))
  }

  lemma OutFills(db: Db, j: Job)
    ensures Fills(db, j.out, j.inc, false, OutPatch(db, j))
  {
  }

  lemma IncFills(db: Db, d: Db, j: Job)
    requires d.accounts == db.accounts && (j.extra == NO_CHANGE || j.extra == TwinExtra(db, j.out, j.inc))
    ensures Fills(db, j.inc, j.out, j.extra != NO_CHANGE, IncPatch(d, j))
  {
  }

  lemma LegWritten(db: Db, d: Db, sp: SpaceId, leg: SpaceTx, other: SpaceTx, twin: bool, p: Patch)
    requires Free(d, sp, leg) && Fills(db, leg, other, twin, p)
    ensures leg.ref.id in Write(d, leg.ref, p).txs
    ensures LegAfter(db, leg, other, twin, View(d, sp, leg.ref.id), View(Write(d, leg.ref, p), sp, leg.ref.id))
  {
    PeerWriteIsQuiet(d, sp, leg, p, other.ref.id);
    assert RowSteps(d, leg.ref, p) == [];
    assert Write(d, leg.ref, p) == PutOpinions(d, leg.ref, p);
    assert View(Write(d, leg.ref, p), sp, leg.ref.id) == Apply(Stored(leg.ref, p), View(d, sp, leg.ref.id));
  }

  /** Both legs of a pair after the pairing. */
  lemma PairAdopts(db: Db, sp: SpaceId, j: Job)
    requires j.out.ref.id != j.inc.ref.id && Free(db, sp, j.out) && Free(db, sp, j.inc)
    requires j.extra == NO_CHANGE || j.extra == TwinExtra(db, j.out, j.inc)
    ensures var e, a, b := WritePairOf(db, j), j.out.ref.id, j.inc.ref.id;
      && a in e.txs && b in e.txs
      && LegAfter(db, j.out, j.inc, false, View(db, sp, a), View(e, sp, a))
      && LegAfter(db, j.inc, j.out, j.extra != NO_CHANGE, View(db, sp, b), View(e, sp, b))
  {
    var a, b, d := j.out.ref.id, j.inc.ref.id, Write(db, j.out.ref, OutPatch(db, j));
    PeerWriteIsQuiet(db, sp, j.out, OutPatch(db, j), b);
    OutFills(db, j);
    IncFills(db, d, j);
    LegWritten(db, db, sp, j.out, j.inc, false, OutPatch(db, j));
    ViewElsewhere(db, d, sp, j.out.ref, b);
    LegWritten(db, d, sp, j.inc, j.out, j.extra != NO_CHANGE, IncPatch(d, j));
    PeerWriteIsQuiet(d, sp, j.inc, IncPatch(d, j), a);
    ViewElsewhere(d, WritePairOf(db, j), sp, j.inc.ref, a);
  }
}
