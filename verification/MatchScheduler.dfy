/**
 The receipt matcher's pace: asks fold into one pass after a debounce, the pass runs in an idle
 slot, one at a time. Timers, idle slots and pass completions are separate events; a pass that
 ends and what its loop does next is one event.
 */
module MatchScheduler {
  import opened Records

  datatype Pending = Nothing | Spaces(ids: set<SpaceId>) | Everything

  // what happened, in order: asks taken, passes started and what each covers
  datatype Entry = Asked(space: Option<SpaceId>) | Started(what: Pending)

  datatype State = State(
    pending: Pending, timer: bool, idleSlots: nat, running: bool, passes: nat,
    disposed: bool, waiters: nat, resolved: nat, log: seq<Entry>)

  const INIT := State(Nothing, false, 0, false, 0, false, 0, 0, [])

  datatype Event = Request(space: Option<SpaceId>) | TimerFires | IdleSlot | PassEnds | Settled | Dispose

  predicate Enabled(s: State, e: Event) {
    match e
    case TimerFires => s.timer
    case IdleSlot => s.idleSlots > 0
    case PassEnds => s.passes > 0
    case _ => true
  }

  // a callback the environment owes, as opposed to a caller's wish
  predicate Internal(e: Event) { e.TimerFires? || e.IdleSlot? || e.PassEnds? }

  function Fold(p: Pending, space: Option<SpaceId>): Pending {
    if space.None? then Everything
    else match p
      case Nothing => Spaces({space.value})
      case Spaces(ids) => Spaces(ids + {space.value})
      case Everything => Everything
  }

  function Settle(s: State): State {
    if s.timer || s.running || !s.pending.Nothing? then s
    else s.(resolved := s.resolved + s.waiters, waiters := 0)
  }

  // the loop's test: the next pass starts, or the run is over
  function Drain(s: State): State {
    if !s.pending.Nothing? && !s.disposed then
      s.(pending := Nothing, passes := s.passes + 1, log := s.log + [Started(s.pending)])
    else Settle(s.(running := false))
  }

  function Next(s: State, e: Event): State
    requires Enabled(s, e)
  {
    match e
    case Request(space) =>
      if s.disposed then s
      else s.(pending := Fold(s.pending, space), timer := true, log := s.log + [Asked(space)])
    case TimerFires =>
      var fired := s.(timer := false);
      if s.disposed then fired else fired.(idleSlots := s.idleSlots + 1)
    case IdleSlot =>
      var slot := s.(idleSlots := s.idleSlots - 1);
      if s.running || s.disposed then slot else Drain(slot.(running := true))
    case PassEnds => Drain(s.(passes := s.passes - 1))
    case Settled => Settle(s.(waiters := s.waiters + 1))
    case Dispose => Settle(s.(disposed := true, timer := false, pending := Nothing))
  }

  class Scheduler {
    var pending: Pending
    var timer: bool
    var idleSlots: nat
    var running: bool
    var passes: nat
    var disposed: bool
    var waiters: nat
    var resolved: nat
    ghost var log: seq<Entry>

    ghost function View(): State
      reads this
    {
      State(pending, timer, idleSlots, running, passes, disposed, waiters, resolved, log)
    }

    constructor ()
      ensures View() == INIT
    {
      pending, timer, idleSlots, running, passes := Nothing, false, 0, false, 0;
      disposed, waiters, resolved, log := false, 0, 0, [];
    }

    method SettleWaiters()
      modifies this
      ensures View() == Settle(old(View()))
    {
      if timer || running || pending != Nothing {
        return;
      }
      while waiters > 0
        invariant View() == old(View()).(waiters := waiters, resolved := resolved)
        invariant resolved + waiters == old(resolved + waiters)
      {
        waiters, resolved := waiters - 1, resolved + 1;
      }
    }

    method DrainLoop()
      modifies this
      ensures View() == Drain(old(View()))
    {
      if pending != Nothing && !disposed {
        log := log + [Started(pending)];
        pending, passes := Nothing, passes + 1;
      } else {
        running := false;
        SettleWaiters();
      }
    }

    method Ask(space: Option<SpaceId>)
      modifies this
      ensures View() == Next(old(View()), Request(space))
    {
      if disposed {
        return;
      }
      if space.None? {
        pending := Everything;
      } else if pending == Nothing {
        pending := Spaces({space.value});
      } else if pending != Everything {
        pending := Spaces(pending.ids + {space.value});
      }
      timer, log := true, log + [Asked(space)];
    }

    method Fire()
      requires timer
      modifies this
      ensures View() == Next(old(View()), TimerFires)
    {
      timer := false;
      if !disposed {
        idleSlots := idleSlots + 1;
      }
    }

    method Idle()
      requires idleSlots > 0
      modifies this
      ensures View() == Next(old(View()), IdleSlot)
    {
      idleSlots := idleSlots - 1;
      if !running && !disposed {
        running := true;
        DrainLoop();
      }
    }

    method PassSettles()
      requires passes > 0
      modifies this
      ensures View() == Next(old(View()), PassEnds)
    {
      passes := passes - 1;
      DrainLoop();
    }

    method AwaitSettled()
      modifies this
      ensures View() == Next(old(View()), Settled)
    {
      waiters := waiters + 1;
      SettleWaiters();
    }

    method Stop()
      modifies this
      ensures View() == Next(old(View()), Dispose)
    {
      disposed, timer, pending := true, false, Nothing;
      SettleWaiters();
    }
  }

  // ---- safety over every interleaving ----

  predicate Covers(p: Pending, space: Option<SpaceId>) {
    p.Everything? || (p.Spaces? && space.Some? && space.value in p.ids)
  }

  predicate CoveredAt(log: seq<Entry>, i: nat, j: nat) {
    i < j < |log| && log[i].Asked? && log[j].Started? && Covers(log[j].what, log[i].space)
  }

  // the ask still waits, or a pass that started after it covers it
  ghost predicate Accounted(s: State, i: nat)
    requires i < |s.log| && s.log[i].Asked?
  {
    Covers(s.pending, s.log[i].space) || exists j :: CoveredAt(s.log, i, j)
  }

  ghost predicate Inv(s: State) {
    && s.passes == (if s.running then 1 else 0)
    && (s.disposed ==> !s.timer && s.pending.Nothing?)
    && (!s.pending.Nothing? ==> s.timer || s.idleSlots > 0 || s.running)
    && (s.waiters > 0 ==> s.timer || s.running || !s.pending.Nothing? || (s.idleSlots > 0 && !s.disposed))
    && (s.disposed || forall i :: 0 <= i < |s.log| && s.log[i].Asked? ==> Accounted(s, i))
  }

  lemma LogGrows(s: State, t: State)
    requires |s.log| <= |t.log| && s.log == t.log[..|s.log|]
    ensures forall i, j :: CoveredAt(s.log, i, j) ==> CoveredAt(t.log, i, j)
    ensures forall i :: 0 <= i < |s.log| ==> t.log[i] == s.log[i]
  {
  }

  lemma PassCoversPending(s: State)
    requires !s.disposed && !s.pending.Nothing?
    requires forall i :: 0 <= i < |s.log| && s.log[i].Asked? ==> Accounted(s, i)
    ensures forall i :: 0 <= i < |Drain(s).log| && Drain(s).log[i].Asked? ==> Accounted(Drain(s), i)
  {
    var t := Drain(s);
    LogGrows(s, t);
    forall i | 0 <= i < |t.log| && t.log[i].Asked? ensures Accounted(t, i) {
      assert i < |s.log| && s.log[i] == t.log[i] && Accounted(s, i);
      if Covers(s.pending, s.log[i].space) { assert CoveredAt(t.log, i, |s.log|); }
    }
  }

  lemma NewAskAccounted(s: State, space: Option<SpaceId>)
    requires Inv(s) && !s.disposed
    ensures var t := Next(s, Request(space));
      forall i :: 0 <= i < |t.log| && t.log[i].Asked? ==> Accounted(t, i)
  {
    var t := Next(s, Request(space));
    LogGrows(s, t);
    forall i | 0 <= i < |t.log| && t.log[i].Asked? ensures Accounted(t, i) {
      if i < |s.log| { assert s.log[i] == t.log[i] && Accounted(s, i); }
    }
  }

  lemma StepKeepsInv(s: State, e: Event)
    requires Inv(s) && Enabled(s, e)
    ensures Inv(Next(s, e))
  {
    match e {
      case Request(space) =>
        if !s.disposed { NewAskAccounted(s, space); }
      case IdleSlot =>
        if !s.running && !s.disposed {
          var t := s.(idleSlots := s.idleSlots - 1, running := true);
          assert forall i :: 0 <= i < |s.log| && s.log[i].Asked? && Accounted(s, i) ==> Accounted(t, i);
          if !t.pending.Nothing? { PassCoversPending(t); } else { SameAccounts(s, Next(s, e)); }
        } else {
          SameAccounts(s, Next(s, e));
        }
      case PassEnds =>
        var t := s.(passes := s.passes - 1);
        assert forall i :: 0 <= i < |s.log| && s.log[i].Asked? && Accounted(s, i) ==> Accounted(t, i);
        if !t.pending.Nothing? && !t.disposed { PassCoversPending(t); } else { SameAccounts(s, Next(s, e)); }
      case Dispose =>
      case _ => SameAccounts(s, Next(s, e));
    }
  }

  lemma SameAccounts(s: State, t: State)
    requires s.log == t.log && s.pending == t.pending
    ensures forall i :: 0 <= i < |s.log| && s.log[i].Asked? && Accounted(s, i) ==> Accounted(t, i)
  {
  }

  ghost predicate Schedule(s: State, events: seq<Event>)
    decreases |events|
  {
    events != [] ==> Enabled(s, events[0]) && Schedule(Next(s, events[0]), events[1..])
  }

  function Run(s: State, events: seq<Event>): State
    requires Schedule(s, events)
    decreases |events|
  {
    if events == [] then s else Run(Next(s, events[0]), events[1..])
  }

  lemma {:induction false} RunKeepsInv(s: State, events: seq<Event>)
    requires Inv(s) && Schedule(s, events)
    ensures Inv(Run(s, events))
    decreases |events|
  {
    if events != [] {
      StepKeepsInv(s, events[0]);
      RunKeepsInv(Next(s, events[0]), events[1..]);
    }
  }

  /** Over every interleaving at most one pass runs; and as long as nobody disposed, every ask
      taken is still pending or covered by a pass that started after it. */
  lemma SchedulerIsSafe(events: seq<Event>)
    requires Schedule(INIT, events)
    ensures var s := Run(INIT, events);
      && s.passes <= 1
      && (!s.disposed ==> forall i :: 0 <= i < |s.log| && s.log[i].Asked? ==> Accounted(s, i))
  {
    RunKeepsInv(INIT, events);
  }

  /** `settled` resolves only with no timer, no pass and no ask outstanding, and then all of them. */
  lemma ResolvesOnlyWhenQuiet(s: State, e: Event)
    requires Inv(s) && Enabled(s, e) && Next(s, e).resolved != s.resolved
    ensures var t := Next(s, e); !t.timer && t.passes == 0 && t.pending.Nothing? && t.waiters == 0
  {
    StepKeepsInv(s, e);
  }

  // ---- progress ----

  function Rank(s: State): nat {
    (if s.timer then 3 else 0) + 2 * s.idleSlots + s.passes + (if s.pending.Nothing? then 0 else 1)
  }

  lemma InternalStepsDescend(s: State, e: Event)
    requires Inv(s) && Internal(e) && Enabled(s, e)
    ensures Rank(Next(s, e)) < Rank(s)
  {
  }

  ghost predicate OnlyInternal(events: seq<Event>) { forall e :: e in events ==> Internal(e) }

  ghost predicate Quiescent(s: State) { forall e :: Internal(e) ==> !Enabled(s, e) }

  lemma {:induction false} InternalRunsEnd(s: State, events: seq<Event>)
    requires Inv(s) && Schedule(s, events) && OnlyInternal(events)
    ensures |events| + Rank(Run(s, events)) <= Rank(s)
    decreases |events|
  {
    if events != [] {
      StepKeepsInv(s, events[0]);
      InternalStepsDescend(s, events[0]);
      assert forall e :: e in events[1..] ==> e in events;
      InternalRunsEnd(Next(s, events[0]), events[1..]);
    }
  }

  /** Once the callers stop, whatever order the callbacks come in there are at most Rank(s) of them;
      when none is left every `settled` has resolved, no ask waits, and (unless disposed) every ask
      ever taken was covered by a pass that started after it. */
  lemma SettledAlwaysResolves(s: State, events: seq<Event>)
    requires Inv(s) && Schedule(s, events) && OnlyInternal(events)
    ensures |events| <= Rank(s)
    ensures var t := Run(s, events); Quiescent(t) ==>
      && t.waiters == 0 && t.pending.Nothing? && t.passes == 0
      && (!t.disposed ==> forall i :: 0 <= i < |t.log| && t.log[i].Asked? ==> exists j :: CoveredAt(t.log, i, j))
  {
    InternalRunsEnd(s, events);
    RunKeepsInv(s, events);
    var t := Run(s, events);
    if Quiescent(t) {
      assert !Enabled(t, TimerFires) && !Enabled(t, IdleSlot) && !Enabled(t, PassEnds);
      if !t.disposed {
        forall i | 0 <= i < |t.log| && t.log[i].Asked? ensures exists j :: CoveredAt(t.log, i, j) {
          assert Accounted(t, i);
        }
      }
    }
  }
}
