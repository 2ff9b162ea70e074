/**
 Double entry over the store: an account's base is its balance minus the live counter legs
 that moved it. What any write does to a base is given exactly, on every store.
 */
module Ledger {
  import opened Records
  import opened MirrorMint
  import opened Joined
  import opened Sums

  // the opinions of viewing space `sp` on a row, own or joined
  function View(db: Db, sp: SpaceId, t: TxId): Opinions
    requires t in db.txs
  {
    Merged(db, TxRef(t, sp, db.txs[t].spaceId != sp, false))
  }

  // the space that keeps the books of each row: whose links on it mint
  type Home = TxId -> SpaceId

  function Seen(db: Db, home: Home, t: TxId): Opinions
    requires t in db.txs
  {
    View(db, home(t), t)
  }

  // a live row as some space sees it; no row is named like a part
  ghost predicate Sees(db: Db, ref: TxRef) {
    !ref.id.PartKey? && Live(db, ref.id) && ref.feed == (db.txs[ref.id].spaceId != ref.spaceId)
  }

  // ... as its own keeper sees it
  ghost predicate Holds(db: Db, home: Home, ref: TxRef) {
    Sees(db, ref) && ref.spaceId == home(ref.id)
  }

  function Root(x: TxId): TxId { if x.PartKey? then x.tx else x }

  predicate CountedIn(db: Db, home: Home, x: TxId) {
    x.Row? && x in db.txs && Seen(db, home, x).loanCounted == Some(true)
  }

  // does a leg of source `x` on account `a` move that balance?
  predicate Counts(db: Db, home: Home, x: TxId, a: AccountId) {
    a in db.accounts && Root(x).Row? && Root(x) in db.txs &&
    Moves(db.accounts[a], db.txs[Root(x)].date, CountedIn(db, home, x))
  }

  function LegCents(db: Db, home: Home, m: TxId, a: AccountId): int {
    if m.Mirror? && LegOn(db, m.source, Some(a)) && Counts(db, home, m.source, a) then db.txs[m].amountCents else 0
  }

  function Legs(db: Db, home: Home, a: AccountId): map<TxId, int> {
    map m | m in db.txs :: LegCents(db, home, m, a)
  }

  ghost function Base(db: Db, home: Home, a: AccountId): int {
    Balance(db, a) - Sum(Legs(db, home, a))
  }

  // ---- one plan ----

  /** How far a plan moves a base: it refunds a leg at another amount than it holds, or it
      takes over a leg that still stands on another account. Nothing else moves a base. A leg's
      own counter leg stands outside the books, so all it moves is drift. */
  function PlanDrift(db: Db, q: Ask, a: AccountId): int {
    if !Root(q.source.id).Row? then q.Moved(db, a)
    else if a in db.accounts && BalanceMoves(db.accounts[a], q.source) && LegOn(db, q.source.id, Some(a)) then
      var cents := LegOf(db, q.source.id).value.cents;
      if q.Retiring(db) then q.source.amountCents + cents
      else if q.Minting(db) && q.next != Some(a) then cents
      else 0
    else 0
  }

  lemma AtLegs(db: Db, home: Home, x: TxId, a: AccountId)
    ensures At(Legs(db, home, a), Mirror(x)) == LegCents(db, home, Mirror(x), a)
  {
  }

  lemma LegsElsewhere(e: Db, f: Db, home: Home, x: TxId, a: AccountId)
    requires SameKinds(e, f) && SameBut(e, f, Mirror(x))
    ensures Legs(e, home, a) - {Mirror(x)} == Legs(f, home, a) - {Mirror(x)}
    ensures forall y :: Counts(e, home, y, a) == Counts(f, home, y, a)
  {
    forall y ensures Counts(e, home, y, a) == Counts(f, home, y, a) {
      CountsElsewhere(e, f, home, x, y, a);
    }
  }

  lemma CountsElsewhere(e: Db, f: Db, home: Home, x: TxId, y: TxId, a: AccountId)
    requires SameKinds(e, f) && SameBut(e, f, Mirror(x))
    ensures Counts(e, home, y, a) == Counts(f, home, y, a)
  {
  }

  lemma BaseAfterPlan(d: Db, e: Db, home: Home, q: Ask, a: AccountId)
    requires Unmoved(d, e, q.source.id)
    requires Root(q.source.id).Row? ==>
      && Root(q.source.id) in e.txs && e.txs[Root(q.source.id)].date == q.source.date
      && CountedIn(e, home, q.source.id) == q.source.loanCounted
    ensures Base(RunSteps(e, q.Plan(d).steps), home, a) == Base(e, home, a) + PlanDrift(d, q, a)
  {
    var f := RunSteps(e, q.Plan(d).steps);
    var m := Mirror(q.source.id);
    PlanEffect(d, e, q);
    LegsElsewhere(e, f, home, q.source.id, a);
    SumChange(Legs(e, home, a), Legs(f, home, a), m);
    assert LegOf(e, q.source.id) == LegOf(d, q.source.id);
    AtLegs(e, home, q.source.id, a);
    AtLegs(f, home, q.source.id, a);
    assert Balance(f, a) == Balance(e, a) + q.Moved(d, a);
    LegCentsAfterPlan(d, e, f, home, q, a);
  }

  lemma LegCentsAfterPlan(d: Db, e: Db, f: Db, home: Home, q: Ask, a: AccountId)
    requires LegOf(e, q.source.id) == LegOf(d, q.source.id) && LegOf(f, q.source.id) == q.NextLeg(d)
    requires Counts(e, home, q.source.id, a) == Counts(f, home, q.source.id, a)
    requires Counts(e, home, q.source.id, a) ==
      (Root(q.source.id).Row? && a in d.accounts && BalanceMoves(d.accounts[a], q.source))
    ensures LegCents(f, home, Mirror(q.source.id), a) - LegCents(e, home, Mirror(q.source.id), a)
         == q.Moved(d, a) - PlanDrift(d, q, a)
  {
  }

  // ---- several plans, each on its own source ----

  function PlansDrift(db: Db, asks: seq<Ask>, a: AccountId): int {
    if asks == [] then 0 else PlanDrift(db, asks[0], a) + PlansDrift(db, asks[1..], a)
  }

  ghost predicate Distinct(asks: seq<Ask>) {
    forall i, j :: 0 <= i < j < |asks| ==> asks[i].source.id != asks[j].source.id
  }

  lemma DistinctConcat(a: seq<Ask>, b: seq<Ask>)
    requires Distinct(a) && Distinct(b)
    requires forall q, r :: q in a && r in b ==> q.source.id != r.source.id
    ensures Distinct(a + b)
  {
  }

  // every ask is about a part of row `t`, with that row's date
  ghost predicate PartsOf(e: Db, asks: seq<Ask>, t: TxId) {
    !t.PartKey? && t in e.txs &&
    forall q :: q in asks ==> q.source.id.PartKey? && q.source.id.tx == t &&
                              q.source.date == e.txs[t].date && !q.source.loanCounted
  }

  ghost predicate AllUnmoved(d: Db, e: Db, asks: seq<Ask>) {
    SameKinds(d, e) && forall q :: q in asks ==> Unmoved(d, e, q.source.id)
  }

  // after the plans: the asked legs are the planned ones, every other row is untouched
  ghost predicate AsksDone(d: Db, e: Db, f: Db, asks: seq<Ask>) {
    && SameKinds(e, f) && f.metas == e.metas
    && (forall q :: q in asks ==> LegOf(f, q.source.id) == q.NextLeg(d))
    && (forall k :: (forall q :: q in asks ==> k != Mirror(q.source.id)) ==>
         (k in f.txs) == (k in e.txs) && (k in e.txs ==> f.txs[k] == e.txs[k]))
  }

  // what the first plan leaves for the others to rely on
  lemma AfterFirstPlan(d: Db, e: Db, t: TxId, asks: seq<Ask>)
    requires asks != [] && Distinct(asks) && PartsOf(e, asks, t) && AllUnmoved(d, e, asks)
    ensures var f := RunSteps(e, asks[0].Plan(d).steps);
      Effect(d, e, f, asks[0]) && Distinct(asks[1..]) && PartsOf(f, asks[1..], t) && AllUnmoved(d, f, asks[1..])
  {
    PlanEffect(d, e, asks[0]);
    assert forall r :: r in asks[1..] ==> r in asks && r.source.id != asks[0].source.id;
  }

  lemma {:induction false} RunAsksDone(d: Db, e: Db, t: TxId, asks: seq<Ask>)
    requires Distinct(asks) && PartsOf(e, asks, t) && AllUnmoved(d, e, asks)
    ensures AsksDone(d, e, RunAsks(d, e, asks), asks)
    decreases |asks|
  {
    if asks != [] {
      var f := RunSteps(e, asks[0].Plan(d).steps);
      AfterFirstPlan(d, e, t, asks);
      RunAsksDone(d, f, t, asks[1..]);
      OneThenRest(d, e, f, RunAsks(d, f, asks[1..]), asks);
    }
  }

  lemma {:induction false} RunAsksBase(d: Db, e: Db, home: Home, t: TxId, asks: seq<Ask>, a: AccountId)
    requires Distinct(asks) && PartsOf(e, asks, t) && AllUnmoved(d, e, asks)
    ensures Base(RunAsks(d, e, asks), home, a) == Base(e, home, a) + PlansDrift(d, asks, a)
    decreases |asks|
  {
    if asks != [] {
      BaseAfterPlan(d, e, home, asks[0], a);
      AfterFirstPlan(d, e, t, asks);
      RunAsksBase(d, RunSteps(e, asks[0].Plan(d).steps), home, t, asks[1..], a);
    }
  }

  lemma RunAsksEffect(d: Db, e: Db, home: Home, t: TxId, asks: seq<Ask>, a: AccountId)
    requires Distinct(asks) && PartsOf(e, asks, t) && AllUnmoved(d, e, asks)
    ensures AsksDone(d, e, RunAsks(d, e, asks), asks)
    ensures Base(RunAsks(d, e, asks), home, a) == Base(e, home, a) + PlansDrift(d, asks, a)
  {
    RunAsksDone(d, e, t, asks);
    RunAsksBase(d, e, home, t, asks, a);
  }

  lemma OneThenRest(d: Db, e: Db, f: Db, g: Db, asks: seq<Ask>)
    requires asks != [] && Distinct(asks)
    requires Effect(d, e, f, asks[0]) && AsksDone(d, f, g, asks[1..])
    ensures AsksDone(d, e, g, asks)
  {
    var q, rest := asks[0], asks[1..];
    assert forall r :: r in asks ==> r == q || r in rest;
    assert forall r :: r in rest ==> Mirror(q.source.id) != Mirror(r.source.id);
    assert LegOf(g, q.source.id) == LegOf(f, q.source.id);
  }

  // ---- the parts a splits write asks about ----

  function IdsOf(parts: seq<Part>): set<string> {
    set p | p in parts && p.id.Some? :: p.id.value
  }

  predicate DistinctIds(parts: seq<Part>) {
    forall i, j :: 0 <= i < j < |parts| && parts[i].id.Some? ==> parts[i].id != parts[j].id
  }

  lemma {:induction false} PartMapAt(parts: seq<Part>)
    requires DistinctIds(parts)
    ensures PartMap(parts).Keys == IdsOf(parts)
    ensures forall i :: 0 <= i < |parts| && parts[i].id.Some? ==> PartMap(parts)[parts[i].id.value] == parts[i]
  {
    if parts != [] {
      var n := |parts| - 1;
      PartMapAt(parts[..n]);
      assert parts == parts[..n] + [parts[n]];
      assert forall i :: 0 <= i < n ==> parts[..n][i] == parts[i];
      assert IdsOf(parts) == IdsOf(parts[..n]) + (if parts[n].id.Some? then {parts[n].id.value} else {});
    }
  }

  predicate TouchedAt(next: seq<Part>, known: map<string, Part>, i: int)
    requires 0 <= i < |next|
  {
    next[i].id.Some? && Touched(next[i], Known(known, next[i].id.value))
  }

  function AskAt(raw: Tx, t: TxId, next: seq<Part>, known: map<string, Part>, i: int): Ask
    requires 0 <= i < |next| && next[i].id.Some?
  {
    PartAsk(raw, t, next[i], Known(known, next[i].id.value))
  }

  predicate FromPart(raw: Tx, t: TxId, next: seq<Part>, known: map<string, Part>, q: Ask, i: int) {
    0 <= i < |next| && TouchedAt(next, known, i) && q == AskAt(raw, t, next, known, i)
  }

  function AdjustedAt(db: Db, raw: Tx, t: TxId, next: seq<Part>, known: map<string, Part>, i: int): Part
    requires 0 <= i < |next|
  {
    if next[i].id.None? then next[i] else Adjusted(db, raw, t, next[i], Known(known, next[i].id.value))
  }

  // what the walk over the tail knows about a later part is what the whole walk knows
  lemma TailKnows(next: seq<Part>, known: map<string, Part>)
    requires next != [] && DistinctIds(next)
    ensures var inner := if next[0].id.None? then known else known - {next[0].id.value};
      forall i {:trigger next[1..][i]} :: 0 <= i < |next| - 1 && next[i + 1].id.Some? ==>
        Known(inner, next[1..][i].id.value) == Known(known, next[i + 1].id.value)
  {
  }

  function Inner(next: seq<Part>, known: map<string, Part>): map<string, Part>
    requires next != []
  {
    if next[0].id.None? then known else known - {next[0].id.value}
  }

  lemma {:induction false} DiffShape(db: Db, raw: Tx, t: TxId, next: seq<Part>, known: map<string, Part>)
    requires DistinctIds(next)
    ensures var d := DiffParts(db, raw, t, next, known);
      && d.rest == known - IdsOf(next)
      && |d.adjusted| == |next|
      && forall i :: 0 <= i < |next| ==> d.adjusted[i] == AdjustedAt(db, raw, t, next, known, i)
  {
    if next != [] {
      var inner, d := Inner(next, known), DiffParts(db, raw, t, next, known);
      DiffShape(db, raw, t, next[1..], inner);
      TailKnows(next, known);
      assert next == [next[0]] + next[1..];
      assert IdsOf(next) == IdsOf(next[1..]) + (if next[0].id.Some? then {next[0].id.value} else {});
      forall i | 0 <= i < |next| ensures d.adjusted[i] == AdjustedAt(db, raw, t, next, known, i) {
        if i > 0 { assert next[1..][i - 1] == next[i]; }
      }
    }
  }

  lemma {:induction false} DiffAsks(db: Db, raw: Tx, t: TxId, next: seq<Part>, known: map<string, Part>)
    requires DistinctIds(next)
    ensures forall q :: q in DiffParts(db, raw, t, next, known).asks ==> exists i :: FromPart(raw, t, next, known, q, i)
    ensures forall q, i :: FromPart(raw, t, next, known, q, i) ==> q in DiffParts(db, raw, t, next, known).asks
  {
    if next != [] {
      var inner := Inner(next, known);
      var asks, rest := DiffParts(db, raw, t, next, known).asks, DiffParts(db, raw, t, next[1..], inner).asks;
      DiffAsks(db, raw, t, next[1..], inner);
      TailKnows(next, known);
      var own := if TouchedAt(next, known, 0) then [AskAt(raw, t, next, known, 0)] else [];
      assert asks == own + rest;
      forall q | q in asks
        ensures exists i :: FromPart(raw, t, next, known, q, i)
      {
        if q in own {
          assert FromPart(raw, t, next, known, q, 0);
        } else {
          var j :| FromPart(raw, t, next[1..], inner, q, j);
          assert next[1..][j] == next[j + 1];
          assert FromPart(raw, t, next, known, q, j + 1);
        }
      }
      forall q, i | FromPart(raw, t, next, known, q, i) ensures q in asks {
        if i > 0 {
          assert next[1..][i - 1] == next[i];
          assert FromPart(raw, t, next[1..], inner, q, i - 1);
        }
      }
    }
  }

  lemma {:induction false} DiffDistinct(db: Db, raw: Tx, t: TxId, next: seq<Part>, known: map<string, Part>)
    requires DistinctIds(next)
    ensures Distinct(DiffParts(db, raw, t, next, known).asks)
  {
    if next != [] {
      var inner := Inner(next, known);
      DiffDistinct(db, raw, t, next[1..], inner);
      DiffAsks(db, raw, t, next[1..], inner);
      assert forall i {:trigger next[1..][i]} :: 0 <= i < |next| - 1 ==> next[1..][i] == next[i + 1];
      var own := if TouchedAt(next, known, 0) then [AskAt(raw, t, next, known, 0)] else [];
      var rest := DiffParts(db, raw, t, next[1..], inner).asks;
      assert DiffParts(db, raw, t, next, known).asks == own + rest;
      forall q, r | q in own && r in rest ensures q.source.id != r.source.id {
        var i :| FromPart(raw, t, next[1..], inner, r, i);
        assert next[1..][i] == next[i + 1];
      }
      DistinctConcat(own, rest);
    }
  }

  lemma {:induction false} PartIdsAre(parts: seq<Part>)
    ensures forall p :: p in PartIds(parts) <==> p in PartMap(parts)
    ensures forall i, j :: 0 <= i < j < |PartIds(parts)| ==> PartIds(parts)[i] != PartIds(parts)[j]
  {
    if parts != [] { PartIdsAre(parts[..|parts| - 1]); }
  }

  lemma {:induction false} GoneAsksAre(raw: Tx, t: TxId, order: seq<string>, rest: map<string, Part>)
    requires forall i, j :: 0 <= i < j < |order| ==> order[i] != order[j]
    ensures forall q :: q in GoneAsks(raw, t, order, rest) <==>
      exists p :: p in order && p in rest && rest[p].link.Some? && q == GoneAsk(raw, t, p, rest[p])
    ensures Distinct(GoneAsks(raw, t, order, rest))
  {
    if order != [] {
      var p, tail := order[0], order[1..];
      GoneAsksAre(raw, t, tail, rest);
      assert order == [p] + tail;
      var own := if p in rest && rest[p].link.Some? then [GoneAsk(raw, t, p, rest[p])] else [];
      DistinctConcat(own, GoneAsks(raw, t, tail, rest));
    }
  }
}
