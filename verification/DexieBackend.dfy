/**
 One live query over the Dexie store: every commit re-invokes it, a declared burst or a flurry of
 commits makes the re-run wait, and of the waiting runs only the newest ever reads. Time, timers,
 transactions and bursts are events; `readLog` records every read that started and what was going on.
 */
module DexieBackend {
  import opened Records

  const LIVE_QUERY_QUIET_MS := 40

  // one invocation of the query: asleep until its timer, reading, or over
  datatype Phase = Waiting(wakeAt: int) | Reading | Answered | Superseded

  datatype Read = Read(generation: nat, delayed: bool, bursts: nat, writes: nat, quietFor: int, newest: nat)

  datatype State = State(
    now: int, burstDepth: nat, writesInFlight: nat, lastCommitAt: int,
    generation: nat, running: int, lastRunEndedAt: Option<int>, closed: bool,
    runs: map<nat, Phase>, readLog: seq<Read>)

  const INIT := State(0, 0, 0, 0, 0, 0, None, false, map[], [])

  datatype Event =
    | Tick(ms: nat)
    | BurstStarts | BurstEnds
    | WriteOpens | WriteCloses
    | Invoked
    | Wakes(generation: nat)
    | ReadEnds(generation: nat)
    | Unsubscribes

  predicate Enabled(s: State, e: Event) {
    match e
    case BurstEnds => s.burstDepth > 0
    case WriteCloses => s.writesInFlight > 0
    case Wakes(g) => g in s.runs && s.runs[g].Waiting? && s.now >= s.runs[g].wakeAt
    case ReadEnds(g) => g in s.runs && s.runs[g].Reading?
    case _ => true
  }

  // a declared burst, a run in flight or one that just ended: not the lone write that re-runs at once
  predicate MustWait(s: State, mine: nat) {
    mine > 1 &&
    (s.burstDepth > 0 || s.running > 0 ||
     (s.lastRunEndedAt.Some? && s.now - s.lastRunEndedAt.value < LIVE_QUERY_QUIET_MS))
  }

  predicate MayRead(s: State) {
    s.burstDepth == 0 && s.writesInFlight == 0 && s.now - s.lastCommitAt >= LIVE_QUERY_QUIET_MS
  }

  function StartRead(s: State, mine: nat, delayed: bool): State {
    var read := Read(mine, delayed, s.burstDepth, s.writesInFlight, s.now - s.lastCommitAt, s.generation);
    s.(running := s.running + 1, runs := s.runs[mine := Reading], readLog := s.readLog + [read])
  }

  function Sleep(s: State, mine: nat): State {
    s.(runs := s.runs[mine := Waiting(s.now + LIVE_QUERY_QUIET_MS)])
  }

  function Next(s: State, e: Event): State
    requires Enabled(s, e)
  {
    match e
    case Tick(ms) => s.(now := s.now + ms)
    case BurstStarts => s.(burstDepth := s.burstDepth + 1)
    case BurstEnds => s.(burstDepth := s.burstDepth - 1, lastCommitAt := s.now)
    case WriteOpens => s.(writesInFlight := s.writesInFlight + 1)
    case WriteCloses => s.(writesInFlight := s.writesInFlight - 1, lastCommitAt := s.now)
    case Invoked =>
      var mine := s.generation + 1;
      var t := s.(generation := mine);
      if MustWait(t, mine) then Sleep(t, mine) else StartRead(t, mine, false)
    case Wakes(g) =>
      if s.closed || g != s.generation then s.(runs := s.runs[g := Superseded])
      else if MayRead(s) then StartRead(s, g, true)
      else Sleep(s, g)
    case ReadEnds(g) => s.(running := s.running - 1, lastRunEndedAt := Some(s.now), runs := s.runs[g := Answered])
    case Unsubscribes => s.(closed := true)
  }

  class LiveQuery {
    var now: int
    var burstDepth: nat
    var writesInFlight: nat
    var lastCommitAt: int
    var generation: nat
    var running: int
    var lastRunEndedAt: Option<int>
    var closed: bool
    var runs: map<nat, Phase>
    ghost var readLog: seq<Read>

    ghost function View(): State
      reads this
    {
      State(now, burstDepth, writesInFlight, lastCommitAt, generation, running, lastRunEndedAt, closed, runs, readLog)
    }

    constructor ()
      ensures View() == INIT
    {
      now, burstDepth, writesInFlight, lastCommitAt, generation, running := 0, 0, 0, 0, 0, 0;
      lastRunEndedAt, closed, runs, readLog := None, false, map[], [];
    }

    method BeginRead(mine: nat, ghost delayed: bool)
      modifies this
      ensures View() == StartRead(old(View()), mine, delayed)
    {
      readLog := readLog + [Read(mine, delayed, burstDepth, writesInFlight, now - lastCommitAt, generation)];
      running, runs := running + 1, runs[mine := Reading];
    }

    method Coalesced()
      modifies this
      ensures View() == Next(old(View()), Invoked)
    {
      generation := generation + 1;
      var mine := generation;
      var justEnded := lastRunEndedAt.Some? && now - lastRunEndedAt.value < LIVE_QUERY_QUIET_MS;
      if mine > 1 && (burstDepth > 0 || running > 0 || justEnded) {
        runs := runs[mine := Waiting(now + LIVE_QUERY_QUIET_MS)];
      } else {
        BeginRead(mine, false);
      }
    }

    method TimerWakes(mine: nat)
      requires Enabled(View(), Wakes(mine))
      modifies this
      ensures View() == Next(old(View()), Wakes(mine))
    {
      if closed || mine != generation {
        runs := runs[mine := Superseded];
      } else if burstDepth == 0 && writesInFlight == 0 && now - lastCommitAt >= LIVE_QUERY_QUIET_MS {
        BeginRead(mine, true);
      } else {
        runs := runs[mine := Waiting(now + LIVE_QUERY_QUIET_MS)];
      }
    }

    method QueryEnds(mine: nat)
      requires Enabled(View(), ReadEnds(mine))
      modifies this
      ensures View() == Next(old(View()), ReadEnds(mine))
    {
      running, lastRunEndedAt, runs := running - 1, Some(now), runs[mine := Answered];
    }

    method TransactionOpens()
      modifies this
      ensures View() == Next(old(View()), WriteOpens)
    {
      writesInFlight := writesInFlight + 1;
    }

    method TransactionCloses()
      requires writesInFlight > 0
      modifies this
      ensures View() == Next(old(View()), WriteCloses)
    {
      writesInFlight, lastCommitAt := writesInFlight - 1, now;
    }

    method BurstOpens()
      modifies this
      ensures View() == Next(old(View()), BurstStarts)
    {
      burstDepth := burstDepth + 1;
    }

    // the burst's end counts as a commit
    method BurstCloses()
      requires burstDepth > 0
      modifies this
      ensures View() == Next(old(View()), BurstEnds)
    {
      burstDepth, lastCommitAt := burstDepth - 1, now;
    }
  }

  // ---- over every interleaving ----

  // a read that started: never inside a burst unless it is the first; a delayed one only in quiet, and as the newest
  predicate Polite(r: Read) {
    && (r.generation > 1 ==> r.bursts == 0)
    && (r.delayed ==> r.bursts == 0 && r.writes == 0 && r.quietFor >= LIVE_QUERY_QUIET_MS && r.newest == r.generation)
  }

  ghost predicate HasRead(s: State, g: nat) { exists i :: 0 <= i < |s.readLog| && s.readLog[i].generation == g }

  ghost predicate Inv(s: State) {
    && (forall g :: g in s.runs <==> 1 <= g <= s.generation)
    && (forall r :: r in s.readLog ==> Polite(r) && 1 <= r.generation <= s.generation)
    && (forall i, j :: 0 <= i < j < |s.readLog| ==> s.readLog[i].generation != s.readLog[j].generation)
    && (forall g :: g in s.runs ==> (HasRead(s, g) <==> s.runs[g].Reading? || s.runs[g].Answered?))
  }

  lemma StartReadKeepsInv(s: State, t: State, g: nat, delayed: bool)
    requires forall h :: h in s.runs && h != g ==> (HasRead(s, h) <==> s.runs[h].Reading? || s.runs[h].Answered?)
    requires forall r :: r in s.readLog ==> Polite(r) && 1 <= r.generation <= s.generation
    requires forall i, j :: 0 <= i < j < |s.readLog| ==> s.readLog[i].generation != s.readLog[j].generation
    requires forall h :: h in s.runs || h == g <==> 1 <= h <= s.generation
    requires 1 <= g <= s.generation && !HasRead(s, g) && t == StartRead(s, g, delayed) && Polite(t.readLog[|s.readLog|])
    ensures Inv(t)
  {
    assert forall i :: 0 <= i < |s.readLog| ==> t.readLog[i] == s.readLog[i];
    assert t.readLog[|s.readLog|].generation == g;
    assert forall r :: r in t.readLog ==> r in s.readLog || r == t.readLog[|s.readLog|];
    assert forall h :: h != g ==> (HasRead(t, h) <==> HasRead(s, h));
  }

  // a step that starts no read
  lemma QuietStepKeepsInv(s: State, e: Event)
    requires Inv(s) && Enabled(s, e) && Next(s, e).readLog == s.readLog
    ensures Inv(Next(s, e))
  {
    var t := Next(s, e);
    forall h ensures HasRead(t, h) <==> HasRead(s, h) {
    }
    if e.Invoked? {
      assert !HasRead(s, t.generation);
    }
  }

  lemma StepKeepsInv(s: State, e: Event)
    requires Inv(s) && Enabled(s, e)
    ensures Inv(Next(s, e))
  {
    var t := Next(s, e);
    if t.readLog == s.readLog {
      QuietStepKeepsInv(s, e);
    } else if e.Invoked? {
      var u := s.(generation := s.generation + 1);
      assert forall h :: HasRead(u, h) <==> HasRead(s, h);
      StartReadKeepsInv(u, t, u.generation, false);
    } else {
      StartReadKeepsInv(s, t, e.generation, true);
    }
  }

  ghost predicate Schedule(s: State, events: seq<Event>)
    decreases |events|
  {
    events != [] ==> Enabled(s, events[0]) && Schedule(Next(s, events[0]), events[1..])
  }

  function Run(s: State, events: seq<Event>): State
    requires Schedule(s, events)
    decreases |events|
  {
    if events == [] then s else Run(Next(s, events[0]), events[1..])
  }

  lemma {:induction false} RunKeepsInv(s: State, events: seq<Event>)
    requires Inv(s) && Schedule(s, events)
    ensures Inv(Run(s, events))
    decreases |events|
  {
    if events != [] {
      StepKeepsInv(s, events[0]);
      RunKeepsInv(Next(s, events[0]), events[1..]);
    }
  }

  /** No re-run starts reading while a burst is declared; a delayed run reads only with no burst and
      no write transaction open, the quiet window passed, and as the newest; nothing reads twice. */
  lemma ReadsArePolite(events: seq<Event>)
    requires Schedule(INIT, events)
    ensures var s := Run(INIT, events);
      && (forall r :: r in s.readLog ==> Polite(r))
      && (forall i, j :: 0 <= i < j < |s.readLog| ==> s.readLog[i].generation != s.readLog[j].generation)
  {
    RunKeepsInv(INIT, events);
  }

  /** A run superseded while it waits never reads and delivers nothing, whatever happens next. */
  lemma {:induction false} SupersededNeverReads(s: State, g: nat, events: seq<Event>)
    requires Inv(s) && Schedule(s, events) && g in s.runs && g < s.generation
    requires s.runs[g].Waiting? || s.runs[g].Superseded?
    ensures var t := Run(s, events); !HasRead(t, g) && g in t.runs && !t.runs[g].Answered?
    decreases |events|
  {
    if events != [] {
      StepKeepsInv(s, events[0]);
      SupersededNeverReads(Next(s, events[0]), g, events[1..]);
    }
  }

  ghost predicate NoneInvoked(events: seq<Event>) { forall e :: e in events ==> !e.Invoked? }

  /** However many runs wait, until the next commit at most one more read starts, and only the
      newest run's: a burst costs one trailing read. */
  lemma {:induction false} OneTrailingRead(s: State, events: seq<Event>)
    requires Inv(s) && Schedule(s, events) && NoneInvoked(events)
    ensures var t := Run(s, events);
      && t.generation == s.generation && |s.readLog| <= |t.readLog| <= |s.readLog| + 1
      && t.readLog[..|s.readLog|] == s.readLog
      && (|t.readLog| > |s.readLog| ==> t.readLog[|s.readLog|].generation == s.generation && !HasRead(s, s.generation))
    decreases |events|
  {
    if events != [] {
      var u := Next(s, events[0]);
      StepKeepsInv(s, events[0]);
      assert events[0] in events && forall e :: e in events[1..] ==> e in events;
      OneTrailingRead(u, events[1..]);
      var t := Run(u, events[1..]);
      if |u.readLog| > |s.readLog| {
        assert u.readLog[|s.readLog|].generation == s.generation;
        assert HasRead(u, s.generation);
        assert |t.readLog| == |u.readLog|;
      }
    }
  }

  /** Once writes and bursts are over and the window has passed, the newest waiting run reads at its
      very next timer. */
  lemma NewestReadsInQuiet(s: State)
    requires Inv(s) && !s.closed && MayRead(s) && Enabled(s, Wakes(s.generation))
    ensures Next(s, Wakes(s.generation)).runs[s.generation].Reading?
    ensures HasRead(Next(s, Wakes(s.generation)), s.generation)
  {
    var t := Next(s, Wakes(s.generation));
    assert t.readLog[|s.readLog|].generation == s.generation;
  }
}
