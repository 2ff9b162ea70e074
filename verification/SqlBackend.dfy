/**
 The SQL store's two schedules: write transactions queued one behind the other, and live queries
 that re-run when a write announces itself. Every callback is an event of its own; `announced`
 counts the announcements, and a query carries the count it started at. For the record the model
 also notes which queries ran beside an open transaction, on the one connection they share.
 */
module SqlBackend {
  import opened Records

  // one subscription; `queries` counts its queries in flight, `last` is the one whose value or
  // error it was given last; `exposed` marks a query that ran beside an open transaction, `shown` an
  // answer that came from one
  datatype Sub = Sub(
    running: bool, dirty: bool, answered: bool, queries: int, started: nat, last: Option<nat>,
    exposed: bool, shown: bool)

  const FRESH_SUB := Sub(false, false, false, 0, 0, None, false, false)

  // `chain` holds the submitted transactions that have not settled, `begun` tells of the first;
  // `rolledBack` remembers a rejected transaction until the next announcement
  datatype State = State(
    listeners: map<nat, Sub>, nextSub: nat,
    inTransaction: bool, chain: seq<nat>, begun: bool, settled: seq<nat>, submitted: nat,
    announced: nat, rolledBack: bool)

  const INIT := State(map[], 0, false, [], false, [], 0, 0, false)

  datatype Event =
    | Subscribe
    | Unsubscribe(id: nat)
    | Write
    | Submit
    | Begin
    | End(ok: bool)
    | Answers(id: nat)
    | Finally(id: nat)

  predicate Enabled(s: State, e: Event) {
    match e
    case Unsubscribe(id) => id in s.listeners
    case Begin => s.chain != [] && !s.begun
    case End(_) => s.chain != [] && s.begun
    case Answers(id) => id in s.listeners && s.listeners[id].running && !s.listeners[id].answered
    case Finally(id) => id in s.listeners && s.listeners[id].running && s.listeners[id].answered
    case _ => true
  }

  // the listener itself: start a query, or remember that one more is due
  function RunQuery(sub: Sub, now: nat, open: bool): Sub {
    if sub.running then sub.(dirty := true)
    else sub.(running := true, answered := false, queries := sub.queries + 1, started := now, exposed := open)
  }

  // a query still reading when a transaction begins
  function Exposed(sub: Sub): Sub {
    if sub.running && !sub.answered then sub.(exposed := true) else sub
  }

  // every listener hears it
  function Announce(s: State): State {
    var now := s.announced + 1;
    s.(announced := now, rolledBack := false,
       listeners := map id | id in s.listeners :: RunQuery(s.listeners[id], now, false))
  }

  function Emit(s: State): State { if s.inTransaction then s else Announce(s) }

  function Next(s: State, e: Event): State
    requires Enabled(s, e)
  {
    match e
    case Subscribe =>
      var sub := RunQuery(FRESH_SUB, s.announced, s.inTransaction);
      s.(listeners := s.listeners[s.nextSub := sub], nextSub := s.nextSub + 1)
    case Unsubscribe(id) => s.(listeners := s.listeners - {id})
    case Write => Emit(s)
    case Submit => s.(chain := s.chain + [s.submitted], submitted := s.submitted + 1)
    case Begin =>
      s.(begun := true, inTransaction := true, listeners := map id | id in s.listeners :: Exposed(s.listeners[id]))
    case End(ok) =>
      var over := s.(begun := false, inTransaction := false,
                     chain := s.chain[1..], settled := s.settled + [s.chain[0]]);
      if ok then Emit(over) else over.(rolledBack := true)
    case Answers(id) =>
      var sub := s.listeners[id];
      s.(listeners := s.listeners[id := sub.(answered := true, last := Some(sub.started), shown := sub.exposed)])
    case Finally(id) =>
      var sub := s.listeners[id].(running := false, queries := s.listeners[id].queries - 1);
      var next := if sub.dirty then RunQuery(sub.(dirty := false), s.announced, s.inTransaction) else sub;
      s.(listeners := s.listeners[id := next])
  }

  class SqlStorageBackend {
    var listeners: map<nat, Sub>
    var nextSub: nat
    var inTransaction: bool
    var chain: seq<nat>
    var begun: bool
    var settled: seq<nat>
    var submitted: nat
    var announced: nat
    var rolledBack: bool

    function View(): State
      reads this
    {
      State(listeners, nextSub, inTransaction, chain, begun, settled, submitted, announced, rolledBack)
    }

    constructor ()
      ensures View() == INIT
    {
      listeners, nextSub, inTransaction, chain := map[], 0, false, [];
      begun, settled, submitted, announced, rolledBack := false, [], 0, 0, false;
    }

    method EmitAll()
      modifies this
      ensures View() == Emit(old(View()))
    {
      if inTransaction {
        return;
      }
      announced, rolledBack := announced + 1, false;
      var todo, heard := listeners.Keys, listeners;
      while todo != {}
        invariant todo <= heard.Keys == listeners.Keys
        invariant forall id :: id in heard ==>
          heard[id] == if id in todo then listeners[id] else RunQuery(listeners[id], announced, false)
      {
        var id :| id in todo;
        heard, todo := heard[id := RunQuery(heard[id], announced, false)], todo - {id};
      }
      listeners := heard;
      assert listeners == Announce(old(View())).listeners;
    }

    method Listen() returns (id: nat)
      modifies this
      ensures id == old(nextSub) && View() == Next(old(View()), Subscribe)
    {
      id := nextSub;
      listeners := listeners[id := RunQuery(FRESH_SUB, announced, inTransaction)];
      nextSub := nextSub + 1;
    }

    method Put()
      modifies this
      ensures View() == Next(old(View()), Write)
    {
      EmitAll();
    }

    method Transact()
      modifies this
      ensures View() == Next(old(View()), Submit)
    {
      chain, submitted := chain + [submitted], submitted + 1;
    }

    method TransactionBegins()
      requires Enabled(View(), Begin)
      modifies this
      ensures View() == Next(old(View()), Begin)
    {
      begun, inTransaction := true, true;
      listeners := map id | id in listeners :: Exposed(listeners[id]);
    }

    // commit or rollback: only a commit announces; the next in line may begin either way
    method TransactionEnds(ok: bool)
      requires Enabled(View(), End(ok))
      modifies this
      ensures View() == Next(old(View()), End(ok))
    {
      begun, inTransaction, settled, chain := false, false, settled + [chain[0]], chain[1..];
      if ok {
        EmitAll();
      } else {
        rolledBack := true;
      }
    }

    method QueryAnswers(id: nat)
      requires Enabled(View(), Answers(id))
      modifies this
      ensures View() == Next(old(View()), Answers(id))
    {
      var sub := listeners[id];
      listeners := listeners[id := sub.(answered := true, last := Some(sub.started), shown := sub.exposed)];
    }

    method QueryFinally(id: nat)
      requires Enabled(View(), Finally(id))
      modifies this
      ensures View() == Next(old(View()), Finally(id))
    {
      var sub := listeners[id];
      sub := sub.(running := false, queries := sub.queries - 1);
      if sub.dirty {
        sub := RunQuery(sub.(dirty := false), announced, inTransaction);
      }
      listeners := listeners[id := sub];
    }
  }

  // ---- over every interleaving ----

  // a live subscription is up to date, or a query that will bring it there is running or due
  ghost predicate Fresh(sub: Sub, announced: nat) {
    && sub.queries == (if sub.running then 1 else 0)
    && (sub.running ==> sub.started <= announced && (sub.dirty || sub.started == announced))
    && (sub.running && sub.answered ==> sub.last == Some(sub.started))
    && (!sub.running ==> !sub.dirty && sub.last == Some(announced))
  }

  function Upto(n: nat): seq<nat> { seq(n, i => i) }

  ghost predicate Inv(s: State) {
    && (forall id :: id in s.listeners ==> id < s.nextSub && Fresh(s.listeners[id], s.announced))
    && s.inTransaction == s.begun && (s.begun ==> s.chain != [])
    && s.settled + s.chain == Upto(s.submitted)
  }

  lemma StepKeepsInv(s: State, e: Event)
    requires Inv(s) && Enabled(s, e)
    ensures Inv(Next(s, e))
  {
    if e.End? {
      assert s.settled + [s.chain[0]] + s.chain[1..] == s.settled + s.chain;
    } else if e.Submit? {
      assert s.settled + (s.chain + [s.submitted]) == Upto(s.submitted) + [s.submitted];
    }
  }

  ghost predicate Schedule(s: State, events: seq<Event>)
    decreases |events|
  {
    events != [] ==> Enabled(s, events[0]) && Schedule(Next(s, events[0]), events[1..])
  }

  function Run(s: State, events: seq<Event>): State
    requires Schedule(s, events)
    decreases |events|
  {
    if events == [] then s else Run(Next(s, events[0]), events[1..])
  }

  lemma {:induction false} RunKeepsInv(s: State, events: seq<Event>)
    requires Inv(s) && Schedule(s, events)
    ensures Inv(Run(s, events))
    decreases |events|
  {
    if events != [] {
      StepKeepsInv(s, events[0]);
      RunKeepsInv(Next(s, events[0]), events[1..]);
    }
  }

  ghost predicate NoQueryRuns(s: State) { forall id :: id in s.listeners ==> !s.listeners[id].running }

  /** After any run: no subscriber has two queries in flight; transactions settled in the order they
      were submitted, the rest wait in that order; and when no query runs, what every live subscriber
      was given last comes from a query started after the last announcement. */
  lemma LiveQueriesAreFresh(events: seq<Event>)
    requires Schedule(INIT, events)
    ensures var s := Run(INIT, events);
      && (forall id :: id in s.listeners ==> s.listeners[id].queries <= 1)
      && s.settled == Upto(|s.settled|) && s.settled + s.chain == Upto(s.submitted)
      && (NoQueryRuns(s) ==> forall id :: id in s.listeners ==> s.listeners[id].last == Some(s.announced))
  {
    RunKeepsInv(INIT, events);
    var s := Run(INIT, events);
    forall i | 0 <= i < |s.settled| ensures s.settled[i] == i {
      assert (s.settled + s.chain)[i] == Upto(s.submitted)[i];
    }
  }

  /** Nothing is announced while a transaction is open: a step that announces leaves none open, and
      a rejected transaction announces nothing. */
  lemma AnnouncedOutsideTransactions(s: State, e: Event)
    requires Inv(s) && Enabled(s, e)
    ensures Next(s, e).announced != s.announced ==> !Next(s, e).inTransaction && (e.Write? || e == End(true))
    ensures s.inTransaction && !e.End? ==> Next(s, e).announced == s.announced
  {
  }

  /** A rejected transaction never blocks the next: as long as one waits, the head can move, and
      whatever its outcome the one behind it can begin. */
  lemma QueueMovesOn(s: State, ok: bool)
    requires Inv(s) && s.chain != []
    ensures Enabled(s, Begin) || Enabled(s, End(ok))
    ensures Enabled(s, End(ok)) && |s.chain| > 1 ==>
      Enabled(Next(s, End(ok)), Begin) && Next(s, End(ok)).chain[0] == s.chain[1]
  {
  }

  function QueueRank(s: State): nat
    requires Inv(s)
  {
    2 * |s.chain| - if s.begun then 1 else 0
  }

  /** So every submitted transaction settles: each begin and each outcome lowers a rank that only a new
      submission raises, one of the two is due until the queue is empty, and then all have settled. */
  lemma QueueDrains(s: State, e: Event)
    requires Inv(s) && Enabled(s, e)
    ensures Inv(Next(s, e))
    ensures e.Begin? || e.End? ==> QueueRank(Next(s, e)) < QueueRank(s)
    ensures !e.Submit? ==> QueueRank(Next(s, e)) <= QueueRank(s)
    ensures QueueRank(s) > 0 ==> Enabled(s, Begin) || forall ok :: Enabled(s, End(ok))
    ensures QueueRank(s) == 0 ==> s.settled == Upto(s.submitted)
  {
    StepKeepsInv(s, e);
    if s.chain == [] { assert s.settled + s.chain == s.settled; }
  }

  // ---- queries beside an open transaction ----

  predicate Reads(s: State, id: nat) { id in s.listeners && s.listeners[id].running && s.listeners[id].exposed }

  /** A query runs beside an open transaction exactly when it starts inside one (a new subscription, or
      the re-run of a dirty one) or is still reading when one begins. */
  lemma ExposedExactlyWhen(s: State, e: Event, id: nat)
    requires Inv(s) && Enabled(s, e) && (!Reads(s, id) || e == Finally(id))
    ensures Reads(Next(s, e), id) <==>
      || (e.Begin? && id in s.listeners && s.listeners[id].running && !s.listeners[id].answered)
      || (s.inTransaction && ((e.Subscribe? && id == s.nextSub) || (e == Finally(id) && s.listeners[id].dirty)))
  {
  }

  // what ran beside a transaction is superseded by a due or running clean query, unless that
  // transaction is still open or was rolled back
  predicate SubSuperseded(s: State, sub: Sub) {
    sub.shown || (sub.running && sub.exposed) ==>
      s.inTransaction || s.rolledBack || sub.dirty || (sub.running && !sub.exposed && !sub.answered)
  }

  ghost predicate Superseded(s: State) {
    forall id :: id in s.listeners ==> SubSuperseded(s, s.listeners[id])
  }

  lemma StepSupersedes(s: State, e: Event)
    requires Superseded(s) && Enabled(s, e)
    ensures Superseded(Next(s, e))
  {
  }

  lemma {:induction false} RunSupersedes(s: State, events: seq<Event>)
    requires Superseded(s) && Schedule(s, events)
    ensures Superseded(Run(s, events))
    decreases |events|
  {
    if events != [] {
      StepSupersedes(s, events[0]);
      RunSupersedes(Next(s, events[0]), events[1..]);
    }
  }

  /** At rest a subscriber's last answer may have seen a half-applied batch only while a transaction is
      open or when one was rolled back since the last announcement: a commit's announcement supersedes
      every query that ran beside it. */
  lemma HalfAppliedIsSuperseded(events: seq<Event>)
    requires Schedule(INIT, events)
    ensures var s := Run(INIT, events);
      NoQueryRuns(s) && !s.inTransaction && !s.rolledBack ==> forall id :: id in s.listeners ==> !s.listeners[id].shown
  {
    RunSupersedes(INIT, events);
    RunKeepsInv(INIT, events);
  }

  /** A rolled-back transaction announces nothing, so an answer that saw its rows stays. */
  lemma RollbackLeavesTheAnswer()
    ensures var events := [Submit, Begin, Subscribe, Answers(0), Finally(0), End(false)];
      && Schedule(INIT, events)
      && var s := Run(INIT, events); NoQueryRuns(s) && !s.inTransaction && 0 in s.listeners && s.listeners[0].shown
  {
  }

  // ---- a subscription comes to rest ----

  function Rank(sub: Sub): nat {
    if sub.running then (if sub.answered then 1 else 2) + (if sub.dirty then 2 else 0) else 0
  }

  /** Between announcements every callback of a subscription brings it closer to rest, and until it
      rests one is due. */
  lemma SubscriptionComesToRest(s: State, id: nat, e: Event)
    requires Inv(s) && id in s.listeners
    ensures Enabled(s, e) && (e == Answers(id) || e == Finally(id)) ==>
      Rank(Next(s, e).listeners[id]) < Rank(s.listeners[id])
    ensures s.listeners[id].running ==> Enabled(s, Answers(id)) || Enabled(s, Finally(id))
  {
  }
}
