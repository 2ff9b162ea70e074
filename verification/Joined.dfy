/**
 The choke point every opinion is written through: a space's own rows in place, joined feed
 rows on the space's overlay. A link or splits change plans its counter legs first, writes
 the opinions with the peers the plans decided, then runs the plans.
 */
module Joined {
  import opened Numbers
  import opened Records
  import opened MirrorMint

  // the row a caller holds: `feed` when it was joined in from an account's feed
  datatype TxRef = TxRef(id: TxId, spaceId: SpaceId, feed: bool, needsReview: bool)

  function Overlay(db: Db, space: SpaceId, id: TxId): Opinions {
    if (space, id) in db.metas then db.metas[(space, id)].ops else NO_OPINIONS
  }

  function Merged(db: Db, ref: TxRef): Opinions
    requires ref.id in db.txs
  {
    if ref.feed then Overlay(db, ref.spaceId, ref.id) else db.txs[ref.id].ops
  }

  // ---- the row's own link ----

  function WholeSource(raw: Tx, id: TxId, loanCounted: Option<bool>): Source {
    Source(id, raw.accountId, raw.amountCents, raw.date, loanCounted == Some(true))
  }

  // planned off the merged state; a loanCounted in the same write gates this link's mint
  function LinkAsk(db: Db, ref: TxRef, patch: Patch): Ask
    requires ref.id in db.txs && patch.link.Set?
  {
    var o := Merged(db, ref);
    Ask(WholeSource(db.txs[ref.id], ref.id, Changed(patch.loanCounted, o.loanCounted)),
        o.link, patch.link.value, o.peer, Changed(patch.peer, None))
  }

  // ---- the parts of a split container ----

  // a part's magnitude with the row's sign
  function Signed(raw: Tx, magnitude: int): int {
    (if raw.amountCents < 0 then -1 else 1) * Abs(magnitude)
  }

  function PartSource(raw: Tx, id: TxId, part: string, magnitude: int): Source {
    Source(PartKey(id, part), raw.accountId, Signed(raw, magnitude), raw.date, false)
  }

  function OwnPartMirror(id: TxId, part: string): TxId { Mirror(PartKey(id, part)) }

  // the stored parts by id; of two parts with one id the later wins
  function PartMap(parts: seq<Part>): map<string, Part> {
    if parts == [] then map[]
    else
      var last := parts[|parts| - 1];
      var rest := PartMap(parts[..|parts| - 1]);
      if last.id.Some? then rest[last.id.value := last] else rest
  }

  function Known(parts: map<string, Part>, id: string): Option<Part> {
    if id in parts then Some(parts[id]) else None
  }

  function LinkOf(part: Option<Part>): Option<AccountId> { if part.Some? then part.value.link else None }

  function PeerOf(part: Option<Part>): Option<TxId> { if part.Some? then part.value.peer else None }

  predicate LinkMoved(part: Part, prev: Option<Part>) { LinkOf(prev) != part.link }

  predicate MagnitudeMoved(part: Part, prev: Option<Part>) {
    prev.Some? && part.link.Some? && prev.value.amountCents != part.amountCents
  }

  predicate Touched(part: Part, prev: Option<Part>) { LinkMoved(part, prev) || MagnitudeMoved(part, prev) }

  // a part that moves its link while naming a foreign peer was paired with a real row
  function PartAsk(raw: Tx, id: TxId, part: Part, prev: Option<Part>): Ask
    requires part.id.Some?
  {
    var foreign := LinkMoved(part, prev) && part.peer.Some? && part.peer != Some(OwnPartMirror(id, part.id.value));
    Ask(PartSource(raw, id, part.id.value, part.amountCents),
        LinkOf(prev), part.link, PeerOf(prev), if foreign then part.peer else None)
  }

  function GoneAsk(raw: Tx, id: TxId, part: string, gone: Part): Ask {
    Ask(PartSource(raw, id, part, gone.amountCents), gone.link, None, gone.peer, None)
  }

  function Adjusted(db: Db, raw: Tx, id: TxId, part: Part, prev: Option<Part>): Part
    requires part.id.Some?
  {
    var q := PartAsk(raw, id, part, prev);
    if Touched(part, prev) && q.incoming.None? && q.Plan(db).peer.Set? then
      part.(peer := q.Plan(db).peer.value)
    else part
  }

  datatype PartDiff = PartDiff(adjusted: seq<Part>, asks: seq<Ask>, rest: map<string, Part>)

  function After(adjusted: seq<Part>, asks: seq<Ask>, d: PartDiff): PartDiff {
    PartDiff(adjusted + d.adjusted, asks + d.asks, d.rest)
  }

  // the surviving and new parts, first to last; `rest` is what no part claimed
  function DiffParts(db: Db, raw: Tx, id: TxId, next: seq<Part>, known: map<string, Part>): PartDiff {
    if next == [] then PartDiff([], [], known)
    else
      var p := next[0];
      if p.id.None? then
        var d := DiffParts(db, raw, id, next[1..], known);
        After([p], [], d)
      else
        var prev := Known(known, p.id.value);
        var d := DiffParts(db, raw, id, next[1..], known - {p.id.value});
        After([Adjusted(db, raw, id, p, prev)], if Touched(p, prev) then [PartAsk(raw, id, p, prev)] else [], d)
  }

  // the order in which a map built from the parts lists its keys
  function PartIds(parts: seq<Part>): seq<string> {
    if parts == [] then []
    else
      var ids := PartIds(parts[..|parts| - 1]);
      var last := parts[|parts| - 1];
      if last.id.Some? && last.id.value !in ids then ids + [last.id.value] else ids
  }

  // vanished parts take their legs along
  function GoneAsks(raw: Tx, id: TxId, order: seq<string>, rest: map<string, Part>): seq<Ask> {
    if order == [] then []
    else
      var p := order[0];
      (if p in rest && rest[p].link.Some? then [GoneAsk(raw, id, p, rest[p])] else []) +
      GoneAsks(raw, id, order[1..], rest)
  }

  function PrevParts(db: Db, ref: TxRef): seq<Part>
    requires ref.id in db.txs
  {
    var o := Merged(db, ref);
    if o.splits.Some? then o.splits.value else []
  }

  function SplitsDiff(db: Db, ref: TxRef, next: seq<Part>): PartDiff
    requires ref.id in db.txs
  {
    DiffParts(db, db.txs[ref.id], ref.id, next, PartMap(PrevParts(db, ref)))
  }

  function SplitsAsks(db: Db, ref: TxRef, next: seq<Part>): seq<Ask>
    requires ref.id in db.txs
  {
    var d := SplitsDiff(db, ref, next);
    d.asks + GoneAsks(db.txs[ref.id], ref.id, PartIds(PrevParts(db, ref)), d.rest)
  }

  // ---- the write ----

  function NewParts(patch: Patch): Option<seq<Part>> {
    if patch.splits.Set? then patch.splits.value else None
  }

  // the fields that reach the row: a peer in the caller's fields outranks the plan's own
  function Written(db: Db, ref: TxRef, patch: Patch): Patch
    requires ref.id in db.txs
  {
    var w :=
      if patch.link.Set? && patch.peer.Keep? then patch.(peer := LinkAsk(db, ref, patch).Plan(db).peer)
      else patch;
    if NewParts(patch).Some? then w.(splits := Set(Some(SplitsDiff(db, ref, NewParts(patch).value).adjusted))) else w
  }

  function PutOpinions(db: Db, ref: TxRef, w: Patch): Db
    requires ref.id in db.txs
  {
    if ref.feed then
      // the first write materializes the current review state alongside the edit
      var w' := if w.needsReview.Keep? then w.(needsReview := Set(Some(ref.needsReview))) else w;
      db.(metas := db.metas[(ref.spaceId, ref.id) := Meta(Apply(w', Overlay(db, ref.spaceId, ref.id)), false)])
    else
      var row := db.txs[ref.id];
      db.(txs := db.txs[ref.id := row.(spaceId := ref.spaceId, deleted := false, ops := Apply(w, row.ops))])
  }

  // plans made on `d`, run one after the other from `e`
  function RunAsks(d: Db, e: Db, asks: seq<Ask>): Db
    decreases |asks|
  {
    if asks == [] then e else RunAsks(d, RunSteps(e, asks[0].Plan(d).steps), asks[1..])
  }

  function RowSteps(db: Db, ref: TxRef, patch: Patch): seq<Step>
    requires ref.id in db.txs
  {
    if patch.link.Set? then LinkAsk(db, ref, patch).Plan(db).steps else []
  }

  function PartAsks(db: Db, ref: TxRef, patch: Patch): seq<Ask>
    requires ref.id in db.txs
  {
    if NewParts(patch).Some? then SplitsAsks(db, ref, NewParts(patch).value) else []
  }

  function Write(db: Db, ref: TxRef, patch: Patch): Db
    requires ref.id in db.txs
  {
    var d := PutOpinions(db, ref, Written(db, ref, patch));
    RunAsks(db, RunSteps(d, RowSteps(db, ref, patch)), PartAsks(db, ref, patch))
  }

  // ---- the same, step by step on the store ----

  // one surviving part: its link or resize move, its peer riding back
  method PlanOnePartDiff(store: Store, raw: Tx, id: TxId, part: Part, prev: Option<Part>)
    returns (adjusted: Part, plans: seq<MirrorPlan>)
    requires part.id.Some?
    ensures adjusted == Adjusted(store.View(), raw, id, part, prev)
    ensures plans == if Touched(part, prev) then [PartAsk(raw, id, part, prev).Plan(store.View())] else []
  {
    adjusted, plans := part, [];
    if LinkMoved(part, prev) || MagnitudeMoved(part, prev) {
      var incoming := if LinkMoved(part, prev) && part.peer.Some? && part.peer != Some(OwnPartMirror(id, part.id.value))
                      then part.peer else None;
      var plan := PlanMirrorChange(store, PartSource(raw, id, part.id.value, part.amountCents),
                                   LinkOf(prev), part.link, PeerOf(prev), incoming);
      if incoming.None? && plan.peer.Set? {
        adjusted := part.(peer := plan.peer.value);
      }
      plans := [plan];
    }
  }

  function Plans(db: Db, asks: seq<Ask>): seq<MirrorPlan> {
    seq(|asks|, i requires 0 <= i < |asks| => asks[i].Plan(db))
  }

  lemma PlansConcat(db: Db, a: seq<Ask>, b: seq<Ask>)
    ensures Plans(db, a + b) == Plans(db, a) + Plans(db, b)
  {
  }

  lemma AfterAfter(a: seq<Part>, q: seq<Ask>, b: seq<Part>, r: seq<Ask>, d: PartDiff)
    ensures After(a, q, After(b, r, d)) == After(a + b, q + r, d)
  {
    assert a + (b + d.adjusted) == a + b + d.adjusted;
    assert q + (r + d.asks) == q + r + d.asks;
  }

  // changed links and edited amounts, in the order of the new parts
  method DiffSurvivingParts(store: Store, raw: Tx, id: TxId, next: seq<Part>, known: map<string, Part>)
    returns (adjusted: seq<Part>, plans: seq<MirrorPlan>, rest: map<string, Part>)
    ensures var d := DiffParts(store.View(), raw, id, next, known);
      adjusted == d.adjusted && plans == Plans(store.View(), d.asks) && rest == d.rest
  {
    ghost var db := store.View();
    rest := known;
    adjusted, plans := [], [];
    ghost var asks: seq<Ask> := [];
    var index := 0;
    while index < |next|
      invariant 0 <= index <= |next|
      invariant plans == Plans(db, asks)
      invariant DiffParts(db, raw, id, next, known) ==
                After(adjusted, asks, DiffParts(db, raw, id, next[index..], rest))
    {
      var part := next[index];
      assert next[index..][0] == part && next[index..][1..] == next[index + 1..];
      if part.id.None? {
        AfterAfter(adjusted, asks, [part], [], DiffParts(db, raw, id, next[index + 1..], rest));
        adjusted, asks := adjusted + [part], asks + [];
      } else {
        var prev := Known(rest, part.id.value);
        rest := rest - {part.id.value};
        var one, own := PlanOnePartDiff(store, raw, id, part, prev);
        ghost var ask := if Touched(part, prev) then [PartAsk(raw, id, part, prev)] else [];
        PlansConcat(db, asks, ask);
        AfterAfter(adjusted, asks, [one], ask, DiffParts(db, raw, id, next[index + 1..], rest));
        adjusted, plans, asks := adjusted + [one], plans + own, asks + ask;
      }
      index := index + 1;
    }
  }

  method DiffVanishedParts(store: Store, raw: Tx, id: TxId, order: seq<string>, rest: map<string, Part>)
    returns (plans: seq<MirrorPlan>)
    ensures plans == Plans(store.View(), GoneAsks(raw, id, order, rest))
  {
    ghost var db := store.View();
    plans := [];
    ghost var gone: seq<Ask> := [];
    var i := 0;
    while i < |order|
      invariant 0 <= i <= |order|
      invariant plans == Plans(db, gone)
      invariant GoneAsks(raw, id, order, rest) == gone + GoneAsks(raw, id, order[i..], rest)
    {
      var p := order[i];
      NextGone(raw, id, order, rest, i, gone);
      if p in rest && rest[p].link.Some? {
        var part := rest[p];
        var plan := PlanMirrorChange(store, PartSource(raw, id, p, part.amountCents), part.link, None, part.peer, None);
        ghost var ask := GoneAsk(raw, id, p, part);
        PlansConcat(db, gone, [ask]);
        plans, gone := plans + [plan], gone + [ask];
      }
      i := i + 1;
    }
  }

  lemma NextGone(raw: Tx, id: TxId, order: seq<string>, rest: map<string, Part>, i: nat, gone: seq<Ask>)
    requires i < |order|
    ensures var p := order[i];
      gone + GoneAsks(raw, id, order[i..], rest) ==
      (if p in rest && rest[p].link.Some? then gone + [GoneAsk(raw, id, p, rest[p])] else gone) +
      GoneAsks(raw, id, order[i + 1..], rest)
  {
    assert order[i..][0] == order[i] && order[i..][1..] == order[i + 1..];
  }

  method PlanPartLinkChanges(store: Store, ref: TxRef, next: seq<Part>)
    returns (adjusted: seq<Part>, plans: seq<MirrorPlan>)
    requires ref.id in store.txs
    ensures adjusted == SplitsDiff(store.View(), ref, next).adjusted
    ensures plans == Plans(store.View(), SplitsAsks(store.View(), ref, next))
  {
    var raw := store.txs[ref.id];
    var prevParts := PrevParts(store.View(), ref);
    var surviving, rest;
    adjusted, surviving, rest := DiffSurvivingParts(store, raw, ref.id, next, PartMap(prevParts));
    var gone := DiffVanishedParts(store, raw, ref.id, PartIds(prevParts), rest);
    PlansConcat(store.View(), SplitsDiff(store.View(), ref, next).asks,
                GoneAsks(raw, ref.id, PartIds(prevParts), rest));
    plans := surviving + gone;
  }

  method ExecuteAll(store: Store, plans: seq<MirrorPlan>, ghost db: Db, ghost asks: seq<Ask>)
    requires plans == Plans(db, asks)
    modifies store
    ensures store.View() == RunAsks(db, old(store.View()), asks)
  {
    var i := 0;
    while i < |plans|
      invariant 0 <= i <= |plans| == |asks|
      invariant RunAsks(db, store.View(), asks[i..]) == RunAsks(db, old(store.View()), asks)
    {
      assert asks[i..][0] == asks[i] && asks[i..][1..] == asks[i + 1..];
      Execute(store, plans[i]);
      i := i + 1;
    }
  }

  method WriteTxTransform(store: Store, ref: TxRef, fields: Patch)
    requires ref.id in store.txs
    modifies store
    ensures store.View() == Write(old(store.View()), ref, fields)
  {
    ghost var db := store.View();
    var raw := store.txs[ref.id];
    var merged := Merged(store.View(), ref);
    var write := fields;
    var rowPlan := MirrorPlan(Keep, []);
    if fields.link.Set? {
      rowPlan := PlanMirrorChange(store, WholeSource(raw, ref.id, Changed(fields.loanCounted, merged.loanCounted)),
                                  merged.link, fields.link.value, merged.peer, Changed(fields.peer, None));
      if fields.peer.Keep? {
        write := write.(peer := rowPlan.peer);
      }
    }
    assert rowPlan.steps == RowSteps(db, ref, fields);
    var partPlans: seq<MirrorPlan> := [];
    if NewParts(fields).Some? {
      var adjusted;
      adjusted, partPlans := PlanPartLinkChanges(store, ref, NewParts(fields).value);
      write := write.(splits := Set(Some(adjusted)));
    }
    assert write == Written(db, ref, fields);
    var written := PutOpinions(store.View(), ref, write);
    store.txs, store.metas := written.txs, written.metas;
    assert store.View() == written;
    Execute(store, rowPlan);
    ExecuteAll(store, partPlans, db, PartAsks(db, ref, fields));
  }
}
