/**
 What a space sees: its own rows as they are, attached feed rows dressed with the space's
 overlay. The screens read the gated list, recurring detection reads the whole history.
 */
module JoinedViews {
  import opened Records
  import opened MirrorMint
  import opened Joined

  // no field of the raw row's own opinions shows through
  function JoinTx(raw: Tx, meta: Option<Meta>, space: SpaceId): Tx {
    var o := if meta.Some? then meta.value.ops else NO_OPINIONS;
    // a pending charge is not review material
    var review := if raw.pending then Some(false) else if o.needsReview.Some? then o.needsReview else Some(true);
    raw.(spaceId := space, ops := o.(needsReview := review))
  }

  function LiveMeta(db: Db, space: SpaceId, id: TxId): Option<Meta> {
    if (space, id) in db.metas && !db.metas[(space, id)].deleted then Some(db.metas[(space, id)]) else None
  }

  function Shown(db: Db, space: SpaceId, id: TxId): Tx
    requires id in db.txs
  {
    var raw := db.txs[id];
    if raw.spaceId == space then raw else JoinTx(raw, LiveMeta(db, space, id), space)
  }

  // ---- a write shows, and shows nowhere else ----

  // the caller holds the row as the space shows it
  ghost predicate HeldAsShown(db: Db, ref: TxRef) {
    Live(db, ref.id) && ref.feed == (db.txs[ref.id].spaceId != ref.spaceId) &&
    (ref.feed ==> Shown(db, ref.spaceId, ref.id).ops.needsReview == Some(ref.needsReview))
  }

  // the overlay of an earlier visit, deleted since, that the next write revives
  function Tombstone(db: Db, ref: TxRef): Opinions {
    var key := (ref.spaceId, ref.id);
    if ref.feed && key in db.metas && db.metas[key].deleted then db.metas[key].ops else NO_OPINIONS
  }

  // the review flag a row shows: pending rows stay out of review, an overlay's null asks for it
  function ReviewShown(ref: TxRef, was: Tx, p: Patch): Option<bool> {
    if ref.feed && was.pending then Some(false)
    else if ref.feed && p.needsReview == Set(None) then Some(true)
    else Changed(p.needsReview, was.ops.needsReview)
  }

  // field by field: written now, or empty in the tombstone
  predicate NothingUnderneath(p: Patch, o: Opinions) {
    && (p.catId.Set? || o.catId.None?) && (p.notes.Set? || o.notes.None?)
    && (p.titleOverride.Set? || o.titleOverride.None?) && (p.cats.Set? || o.cats.None?)
    && (p.splits.Set? || o.splits.None?) && (p.reimbursements.Set? || o.reimbursements.None?)
    && (p.link.Set? || o.link.None?) && (p.peer.Set? || o.peer.None?)
    && (p.recurringId.Set? || o.recurringId.None?) && (p.eventId.Set? || o.eventId.None?)
    && (p.loanCounted.Set? || o.loanCounted.None?)
  }

  // a written field hides what was there, an unwritten one lets it through
  lemma FieldsShow(p: Patch, under: Opinions, review: Option<bool>)
    ensures Apply(p, under).(needsReview := review) == Apply(p, NO_OPINIONS).(needsReview := review)
       <==> NothingUnderneath(p, under)
  {
  }

  function Under(db: Db, ref: TxRef): Opinions
    requires ref.id in db.txs
  {
    if ref.feed && LiveMeta(db, ref.spaceId, ref.id).None? then Tombstone(db, ref)
    else Shown(db, ref.spaceId, ref.id).ops
  }

  // the review flag is settled apart from the other fields
  lemma ReviewApart(p: Patch, q: Change<bool>, o: Opinions, x: Option<bool>, review: Option<bool>)
    ensures Apply(p.(needsReview := q), o).(needsReview := review)
         == Apply(p, o.(needsReview := x)).(needsReview := review)
  {
  }

  lemma ShownOnOverlay(db: Db, ref: TxRef, p: Patch)
    requires HeldAsShown(db, ref) && ref.feed
    ensures var was, now := Shown(db, ref.spaceId, ref.id), Shown(PutOpinions(db, ref, p), ref.spaceId, ref.id);
      now == was.(ops := Apply(p, Under(db, ref)).(needsReview := ReviewShown(ref, was, p)))
  {
    var q := if p.needsReview.Keep? then Set(Some(ref.needsReview)) else p.needsReview;
    var was, e, o := Shown(db, ref.spaceId, ref.id), PutOpinions(db, ref, p), Overlay(db, ref.spaceId, ref.id);
    var review := ReviewShown(ref, was, p);
    var stored := Apply(p.(needsReview := q), o);
    assert e.metas[(ref.spaceId, ref.id)] == Meta(stored, false);
    assert Shown(e, ref.spaceId, ref.id) == was.(ops := stored.(needsReview := review));
    ReviewApart(p, q, o, Under(db, ref).needsReview, review);
    assert Under(db, ref) == o.(needsReview := Under(db, ref).needsReview);
  }

  lemma ShownWritten(db: Db, ref: TxRef, p: Patch)
    requires HeldAsShown(db, ref) && p.link.Keep? && p.splits.Keep?
    ensures ref.id in Write(db, ref, p).txs
    ensures var was, now := Shown(db, ref.spaceId, ref.id), Shown(Write(db, ref, p), ref.spaceId, ref.id);
      now == was.(ops := Apply(p, Under(db, ref)).(needsReview := ReviewShown(ref, was, p)))
  {
    assert RowSteps(db, ref, p) == [] && PartAsks(db, ref, p) == [];
    assert Write(db, ref, p) == PutOpinions(db, ref, p);
    if ref.feed {
      ShownOnOverlay(db, ref, p);
    }
  }

  /** An opinion that touches neither a link nor the splits shows exactly as written (every named
      field its new value, nulls included, every other field its old one) if and only if no deleted
      overlay holds a field underneath that the write leaves alone. */
  lemma OpinionsShow(db: Db, ref: TxRef, p: Patch)
    requires HeldAsShown(db, ref) && p.link.Keep? && p.splits.Keep?
    ensures ref.id in Write(db, ref, p).txs
    ensures var was, now := Shown(db, ref.spaceId, ref.id), Shown(Write(db, ref, p), ref.spaceId, ref.id);
      && now.ops.needsReview == ReviewShown(ref, was, p)
      && (NothingUnderneath(p, Tombstone(db, ref)) <==>
            now == was.(ops := Apply(p, was.ops).(needsReview := ReviewShown(ref, was, p))))
  {
    var was := Shown(db, ref.spaceId, ref.id);
    ShownWritten(db, ref, p);
    if ref.feed && LiveMeta(db, ref.spaceId, ref.id).None? {
      FieldsShow(p, Tombstone(db, ref), ReviewShown(ref, was, p));
    }
  }

  /** Such a write changes no balance and no other row for anyone, and no other space sees this one
      differently. */
  lemma OpinionsStayHome(db: Db, ref: TxRef, p: Patch)
    requires HeldAsShown(db, ref) && p.link.Keep? && p.splits.Keep?
    ensures Write(db, ref, p).accounts == db.accounts && Write(db, ref, p).txs.Keys == db.txs.Keys
    ensures forall space, id :: id in db.txs && (id != ref.id || (ref.feed && space != ref.spaceId)) ==>
      Shown(Write(db, ref, p), space, id) == Shown(db, space, id)
  {
    assert RowSteps(db, ref, p) == [] && PartAsks(db, ref, p) == [];
    assert Write(db, ref, p) == PutOpinions(db, ref, p);
  }

  /** The deleted overlay of an earlier visit comes back with the next write: a field nobody wrote
      reappears. */
  lemma DeletedOverlayReturns()
    ensures var t := Row("t"); var ref := TxRef(t, "mine", true, true);
      var db := Db(map[], map[t := Tx("feed", "bank", 0, -100, false, false, NO_OPINIONS)],
                   map[("mine", t) := Meta(NO_OPINIONS.(notes := Some("old")), true)]);
      var e := Write(db, ref, NO_CHANGE.(titleOverride := Set(Some("new"))));
      t in e.txs && Shown(db, "mine", t).ops.notes == None && Shown(e, "mine", t).ops.notes == Some("old")
  {
    var t := Row("t");
    var ref := TxRef(t, "mine", true, true);
    var db := Db(map[], map[t := Tx("feed", "bank", 0, -100, false, false, NO_OPINIONS)],
                 map[("mine", t) := Meta(NO_OPINIONS.(notes := Some("old")), true)]);
    var p := NO_CHANGE.(titleOverride := Set(Some("new")));
    assert RowSteps(db, ref, p) == [] && PartAsks(db, ref, p) == [];
    assert Write(db, ref, p) == PutOpinions(db, ref, p);
  }

  // ---- the two lists ----

  datatype AccountLink = AccountLink(accountId: AccountId, feedSpaceId: SpaceId, historyFrom: Option<Date>)

  // a row of a list, and the attachment it came through (own rows have none)
  datatype Listed = Listed(id: TxId, row: Tx, link: Option<AccountLink>)

  // what the store answers: the space's own rows, its live attachments, each feed's rows, its live overlays
  datatype Reads = Reads(
    space: SpaceId, own: seq<(TxId, Tx)>, links: seq<AccountLink>,
    feeds: SpaceId -> seq<(TxId, Tx)>, metas: map<TxId, Meta>, funding: set<AccountId>, startGate: Option<Date>)

  // a link's own gate wins over the space's start date
  function GateOf(r: Reads, link: Option<AccountLink>): Option<Date> {
    if link.Some? && link.value.historyFrom.Some? then link.value.historyFrom else r.startGate
  }

  predicate PassesGate(r: Reads, x: Listed) {
    GateOf(r, x.link).None? || x.row.date >= GateOf(r, x.link).value
  }

  function Dress(r: Reads, id: TxId, raw: Tx, link: AccountLink): Listed {
    Listed(id, JoinTx(raw, if id in r.metas then Some(r.metas[id]) else None, r.space), Some(link))
  }

  // the rows one read of a space or a feed contributes; `from` is the gate, if the reader gates at all
  predicate KeepsOwn(r: Reads, from: Option<Date>, t: Tx) {
    !t.deleted && t.accountId !in r.funding && (from.None? || t.date >= from.value)
  }

  predicate KeepsFeed(link: AccountLink, from: Option<Date>, t: Tx) {
    !t.deleted && t.accountId == link.accountId && (from.None? || t.date >= from.value)
  }

  function OwnList(r: Reads, from: Option<Date>, rows: seq<(TxId, Tx)>): seq<Listed> {
    if rows == [] then []
    else
      var n := |rows| - 1;
      OwnList(r, from, rows[..n]) + if KeepsOwn(r, from, rows[n].1) then [Listed(rows[n].0, rows[n].1, None)] else []
  }

  function FeedList(r: Reads, link: AccountLink, from: Option<Date>, rows: seq<(TxId, Tx)>): seq<Listed> {
    if rows == [] then []
    else
      var n := |rows| - 1;
      FeedList(r, link, from, rows[..n]) +
      if KeepsFeed(link, from, rows[n].1) then [Dress(r, rows[n].0, rows[n].1, link)] else []
  }

  function GateFor(r: Reads, gated: bool, link: Option<AccountLink>): Option<Date> {
    if gated then GateOf(r, link) else None
  }

  function LinkLists(r: Reads, gated: bool, links: seq<AccountLink>): seq<Listed> {
    if links == [] then []
    else
      var n := |links| - 1;
      LinkLists(r, gated, links[..n]) +
      if links[n].accountId in r.funding then []
      else FeedList(r, links[n], GateFor(r, gated, Some(links[n])), r.feeds(links[n].feedSpaceId))
  }

  function History(r: Reads): seq<Listed> { OwnList(r, None, r.own) + LinkLists(r, false, r.links) }

  function Visible(r: Reads): seq<Listed> { OwnList(r, r.startGate, r.own) + LinkLists(r, true, r.links) }

  function Gated(r: Reads, xs: seq<Listed>): seq<Listed> {
    if xs == [] then []
    else
      var n := |xs| - 1;
      Gated(r, xs[..n]) + if PassesGate(r, xs[n]) then [xs[n]] else []
  }

  lemma {:induction false} GatedConcat(r: Reads, a: seq<Listed>, b: seq<Listed>)
    ensures Gated(r, a + b) == Gated(r, a) + Gated(r, b)
  {
    if b == [] {
      assert a + b == a;
    } else {
      var n := |b| - 1;
      assert (a + b)[..|a + b| - 1] == a + b[..n];
      GatedConcat(r, a, b[..n]);
    }
  }

  lemma GatedOne(r: Reads, x: Listed)
    ensures Gated(r, [x]) == if PassesGate(r, x) then [x] else []
  {
    assert [x][..0] == [];
  }

  lemma {:induction false} GatedOwn(r: Reads, rows: seq<(TxId, Tx)>)
    ensures Gated(r, OwnList(r, None, rows)) == OwnList(r, r.startGate, rows)
  {
    if rows != [] {
      var n := |rows| - 1;
      var last := Listed(rows[n].0, rows[n].1, None);
      GatedOwn(r, rows[..n]);
      GatedConcat(r, OwnList(r, None, rows[..n]), if KeepsOwn(r, None, last.row) then [last] else []);
      GatedOne(r, last);
    }
  }

  lemma {:induction false} GatedFeed(r: Reads, link: AccountLink, rows: seq<(TxId, Tx)>)
    ensures Gated(r, FeedList(r, link, None, rows)) == FeedList(r, link, GateOf(r, Some(link)), rows)
  {
    if rows != [] {
      var n := |rows| - 1;
      var last := Dress(r, rows[n].0, rows[n].1, link);
      GatedFeed(r, link, rows[..n]);
      GatedConcat(r, FeedList(r, link, None, rows[..n]), if KeepsFeed(link, None, rows[n].1) then [last] else []);
      GatedOne(r, last);
    }
  }

  lemma {:induction false} GatedLinks(r: Reads, links: seq<AccountLink>)
    ensures Gated(r, LinkLists(r, false, links)) == LinkLists(r, true, links)
  {
    if links != [] {
      var n := |links| - 1;
      var rows := r.feeds(links[n].feedSpaceId);
      GatedLinks(r, links[..n]);
      GatedFeed(r, links[n], rows);
      GatedConcat(r, LinkLists(r, false, links[..n]),
                  if links[n].accountId in r.funding then [] else FeedList(r, links[n], None, rows));
    }
  }

  /** The screens' list is the history filtered by the gates: the space's start date for own rows,
      and per attachment its own gate, falling back to that start date. */
  lemma VisibleIsGatedHistory(r: Reads)
    ensures Visible(r) == Gated(r, History(r))
  {
    GatedOwn(r, r.own);
    GatedLinks(r, r.links);
    GatedConcat(r, OwnList(r, None, r.own), LinkLists(r, false, r.links));
  }

  // ---- which rows a list shows, told from the rows ----

  lemma {:induction false} OwnListIs(r: Reads, from: Option<Date>, rows: seq<(TxId, Tx)>, x: Listed)
    ensures x in OwnList(r, from, rows) <==>
      x.link.None? && (x.id, x.row) in rows &&
      !x.row.deleted && x.row.accountId !in r.funding && (from.None? || from.value <= x.row.date)
  {
    if rows != [] {
      OwnListIs(r, from, rows[..|rows| - 1], x);
      assert rows == rows[..|rows| - 1] + [rows[|rows| - 1]];
    }
  }

  // a feed row as the space shows it: the space's own opinions on it, or none, and never up for review
  // while it is pending
  predicate ShownAs(r: Reads, id: TxId, raw: Tx, row: Tx) {
    var ops := if id in r.metas then r.metas[id].ops else NO_OPINIONS;
    var review := if raw.pending then Some(false) else if ops.needsReview == None then Some(true) else ops.needsReview;
    row == raw.(spaceId := r.space, ops := ops.(needsReview := review))
  }

  lemma {:induction false} FeedListIs(r: Reads, link: AccountLink, from: Option<Date>, rows: seq<(TxId, Tx)>, x: Listed)
    ensures x in FeedList(r, link, from, rows) <==>
      x.link == Some(link) &&
      (exists raw :: (x.id, raw) in rows && ShownAs(r, x.id, raw, x.row) &&
                     !raw.deleted && raw.accountId == link.accountId && (from.None? || from.value <= raw.date))
  {
    if rows != [] {
      FeedListIs(r, link, from, rows[..|rows| - 1], x);
      assert rows == rows[..|rows| - 1] + [rows[|rows| - 1]];
    }
  }

  // the day from which an attachment shows its feed: its own gate, or else the space's start date
  predicate PastGate(r: Reads, gated: bool, link: AccountLink, day: Date) {
    !gated || (if link.historyFrom.Some? then link.historyFrom.value <= day
               else r.startGate.Some? ==> r.startGate.value <= day)
  }

  // `x` is a live row of the attached account, read from that feed
  ghost predicate FromFeed(r: Reads, gated: bool, link: AccountLink, x: Listed) {
    x.link == Some(link) && link.accountId !in r.funding &&
    (exists raw :: (x.id, raw) in r.feeds(link.feedSpaceId) && ShownAs(r, x.id, raw, x.row) &&
                   !raw.deleted && raw.accountId == link.accountId && PastGate(r, gated, link, raw.date))
  }

  lemma FromFeedIs(r: Reads, gated: bool, link: AccountLink, x: Listed)
    ensures FromFeed(r, gated, link, x) <==>
      link.accountId !in r.funding && x in FeedList(r, link, GateFor(r, gated, Some(link)), r.feeds(link.feedSpaceId))
  {
    FeedListIs(r, link, GateFor(r, gated, Some(link)), r.feeds(link.feedSpaceId), x);
    assert forall day :: PastGate(r, gated, link, day) <==>
      (GateFor(r, gated, Some(link)).None? || GateFor(r, gated, Some(link)).value <= day);
  }

  lemma {:induction false} LinkListsAre(r: Reads, gated: bool, links: seq<AccountLink>, x: Listed)
    ensures x in LinkLists(r, gated, links) <==> exists link :: link in links && FromFeed(r, gated, link, x)
  {
    if links != [] {
      var n := |links| - 1;
      LinkListsAre(r, gated, links[..n], x);
      assert links == links[..n] + [links[n]];
      FromFeedIs(r, gated, links[n], x);
      assert (exists link :: link in links && FromFeed(r, gated, link, x)) <==>
        (exists link :: link in links[..n] && FromFeed(r, gated, link, x)) || FromFeed(r, gated, links[n], x);
    }
  }

  /** The screens' list shows exactly the space's own live rows off the funding pots from the start date
      on, and per attachment that is no funding pot the live rows of the attached account from its own
      gate on, or from the start date; the history shows them whatever their date. */
  lemma ListsShow(r: Reads, x: Listed)
    ensures x in Visible(r) <==>
      || (x.link.None? && (x.id, x.row) in r.own && !x.row.deleted && x.row.accountId !in r.funding &&
          (r.startGate.Some? ==> r.startGate.value <= x.row.date))
      || exists link :: link in r.links && FromFeed(r, true, link, x)
    ensures x in History(r) <==>
      || (x.link.None? && (x.id, x.row) in r.own && !x.row.deleted && x.row.accountId !in r.funding)
      || exists link :: link in r.links && FromFeed(r, false, link, x)
  {
    OwnListIs(r, r.startGate, r.own, x);
    OwnListIs(r, None, r.own, x);
    LinkListsAre(r, true, r.links, x);
    LinkListsAre(r, false, r.links, x);
  }

  // ---- the two readers ----

  method ListOwn(r: Reads, from: Option<Date>) returns (out: seq<Listed>)
    ensures out == OwnList(r, from, r.own)
  {
    out := [];
    for i := 0 to |r.own|
      invariant out == OwnList(r, from, r.own[..i])
    {
      var t := r.own[i];
      assert r.own[..i + 1][..i] == r.own[..i];
      if KeepsOwn(r, from, t.1) {
        out := out + [Listed(t.0, t.1, None)];
      }
    }
    assert r.own[..|r.own|] == r.own;
  }

  method ListFeed(r: Reads, link: AccountLink, from: Option<Date>) returns (out: seq<Listed>)
    ensures out == FeedList(r, link, from, r.feeds(link.feedSpaceId))
  {
    var rows := r.feeds(link.feedSpaceId);
    out := [];
    for i := 0 to |rows|
      invariant out == FeedList(r, link, from, rows[..i])
    {
      var t := rows[i];
      assert rows[..i + 1][..i] == rows[..i];
      if KeepsFeed(link, from, t.1) {
        out := out + [Dress(r, t.0, t.1, link)];
      }
    }
    assert rows[..|rows|] == rows;
  }

  method ListLinks(r: Reads, gated: bool) returns (out: seq<Listed>)
    ensures out == LinkLists(r, gated, r.links)
  {
    out := [];
    for i := 0 to |r.links|
      invariant out == LinkLists(r, gated, r.links[..i])
    {
      var link := r.links[i];
      assert r.links[..i + 1][..i] == r.links[..i];
      if link.accountId !in r.funding {
        var rows := ListFeed(r, link, GateFor(r, gated, Some(link)));
        out := out + rows;
      }
    }
    assert r.links[..|r.links|] == r.links;
  }

  method HistoryTransactions(r: Reads) returns (out: seq<Listed>)
    ensures out == History(r)
  {
    var own := ListOwn(r, None);
    var joined := ListLinks(r, false);
    out := own + joined;
  }

  method VisibleTransactions(r: Reads) returns (out: seq<Listed>)
    ensures out == Gated(r, History(r))
  {
    var own := ListOwn(r, r.startGate);
    var joined := ListLinks(r, true);
    out := own + joined;
    VisibleIsGatedHistory(r);
  }
}
