/**
 When a live query reads, told from the history of events alone: the transactions and bursts that
 opened and closed, the runs invoked, the reads that ended, and the time that passed.
 */
module DexieFacts {
  import opened Records
  import opened DexieBackend

  // the time since the last commit, or the end of the last burst
  function QuietFor(events: seq<Event>): int {
    if events == [] then 0
    else
      match events[|events| - 1]
      case Tick(ms) => QuietFor(events[..|events| - 1]) + ms
      case WriteCloses => 0
      case BurstEnds => 0
      case _ => QuietFor(events[..|events| - 1])
  }

  // the time since a read last ended, if one did
  function SinceRead(events: seq<Event>): Option<int> {
    if events == [] then None
    else
      var before := SinceRead(events[..|events| - 1]);
      match events[|events| - 1]
      case Tick(ms) => if before.Some? then Some(before.value + ms) else None
      case ReadEnds(_) => Some(0)
      case _ => before
  }

  function Times(events: seq<Event>, e: Event): nat { multiset(events)[e] }

  function ReadsNow(s: State): set<nat> { set g | g in s.runs && s.runs[g].Reading? }

  // the state, as the history tells it
  ghost predicate Tells(events: seq<Event>, s: State) {
    && s.burstDepth == Times(events, BurstStarts) - Times(events, BurstEnds)
    && s.writesInFlight == Times(events, WriteOpens) - Times(events, WriteCloses)
    && s.generation == Times(events, Invoked) && (s.closed <==> Unsubscribes in events)
    && s.now - s.lastCommitAt == QuietFor(events)
    && SinceRead(events) == (if s.lastRunEndedAt.Some? then Some(s.now - s.lastRunEndedAt.value) else None)
    && s.running == |ReadsNow(s)|
  }

  lemma {:induction false} RunAppend(s: State, events: seq<Event>)
    requires Schedule(s, events) && events != []
    ensures var n := |events| - 1;
      && Schedule(s, events[..n]) && Enabled(Run(s, events[..n]), events[n])
      && Run(s, events) == Next(Run(s, events[..n]), events[n])
    decreases |events|
  {
    var n := |events| - 1;
    if n > 0 {
      RunAppend(Next(s, events[0]), events[1..]);
      assert events[1..][..n - 1] == events[..n][1..];
    } else {
      assert events[1..] == [] && events[..0] == [];
    }
  }

  lemma TimesAppend(events: seq<Event>, e: Event)
    requires events != []
    ensures var n := |events| - 1; Times(events, e) == Times(events[..n], e) + if events[n] == e then 1 else 0
    ensures e in events <==> e in events[..|events| - 1] || e == events[|events| - 1]
  {
    var n := |events| - 1;
    assert events == events[..n] + [events[n]];
  }

  lemma OneMoreReads(s: State, t: State, g: nat)
    requires t.runs == s.runs[g := Reading] && g !in ReadsNow(s)
    ensures |ReadsNow(t)| == |ReadsNow(s)| + 1
  {
    assert ReadsNow(t) == ReadsNow(s) + {g};
  }

  lemma NoMoreReads(s: State, t: State, g: nat, p: Phase)
    requires t.runs == s.runs[g := p] && !p.Reading?
    ensures |ReadsNow(t)| == |ReadsNow(s)| - if g in ReadsNow(s) then 1 else 0
  {
    assert ReadsNow(t) == ReadsNow(s) - {g};
  }

  lemma NextReads(s: State, e: Event)
    requires Inv(s) && Enabled(s, e) && s.running == |ReadsNow(s)|
    ensures Next(s, e).running == |ReadsNow(Next(s, e))|
  {
    var t := Next(s, e);
    if e.Invoked? || e.Wakes? {
      var g := if e.Invoked? then t.generation else e.generation;
      assert g !in ReadsNow(s);
      if t.runs[g].Reading? { OneMoreReads(s, t, g); } else { NoMoreReads(s, t, g, t.runs[g]); }
    } else if e.ReadEnds? {
      NoMoreReads(s, t, e.generation, Answered);
    } else {
      assert t.runs == s.runs && t.running == s.running;
    }
  }

  lemma NextTells(before: seq<Event>, s: State, events: seq<Event>)
    requires events != [] && before == events[..|events| - 1] && Tells(before, s) && Inv(s)
    requires Enabled(s, events[|events| - 1])
    ensures Tells(events, Next(s, events[|events| - 1]))
  {
    var e := events[|events| - 1];
    NextReads(s, e);
    TimesAppend(events, BurstStarts);
    TimesAppend(events, BurstEnds);
    TimesAppend(events, WriteOpens);
    TimesAppend(events, WriteCloses);
    TimesAppend(events, Invoked);
    TimesAppend(events, Unsubscribes);
  }

  lemma {:induction false} HistoryTells(events: seq<Event>)
    requires Schedule(INIT, events)
    ensures Tells(events, Run(INIT, events)) && Inv(Run(INIT, events))
    decreases |events|
  {
    RunKeepsInv(INIT, events);
    if events == [] {
      assert ReadsNow(INIT) == {};
    } else {
      RunAppend(INIT, events);
      HistoryTells(events[..|events| - 1]);
      NextTells(events[..|events| - 1], Run(INIT, events[..|events| - 1]), events);
    }
  }

  lemma OnlyTells(events: seq<Event>, s: State)
    requires Schedule(INIT, events) && s == Run(INIT, events)
    ensures Tells(events, s)
  {
    HistoryTells(events);
  }

  // what the history makes of the run a commit invokes
  function AtCommit(events: seq<Event>, s: State): Phase {
    var calm := && Times(events, BurstStarts) == Times(events, BurstEnds)
                && ReadsNow(s) == {} && (SinceRead(events).Some? ==> SinceRead(events).value >= 40);
    if Invoked !in events || calm then Reading else Waiting(s.now + 40)
  }

  lemma InvokedTells(events: seq<Event>, s: State)
    requires Tells(events, s)
    ensures var t, g := Next(s, Invoked), Times(events, Invoked) + 1;
      t.generation == g && g in t.runs && t.runs[g] == AtCommit(events, s)
  {
  }

  /** A commit's run reads at once if it is the first, or if no burst is open, nothing reads and no read
      ended within the last 40 ms; otherwise it sleeps that long. */
  lemma InvocationReads(events: seq<Event>, s: State)
    requires Schedule(INIT, events) && s == Run(INIT, events)
    ensures var t, g := Next(s, Invoked), Times(events, Invoked) + 1;
      t.generation == g && g in t.runs && t.runs[g] == AtCommit(events, s)
  {
    OnlyTells(events, s);
    InvokedTells(events, s);
  }

  // what the history makes of a run whose timer fires: over if the query was closed or a later commit
  // invoked another; reading if nothing is open and the last commit is 40 ms ago; asleep again if not
  function AtTimer(events: seq<Event>, g: nat, now: int): Phase {
    if Unsubscribes in events || g != Times(events, Invoked) then Superseded
    else if Times(events, BurstStarts) == Times(events, BurstEnds) &&
            Times(events, WriteOpens) == Times(events, WriteCloses) && QuietFor(events) >= 40 then Reading
    else Waiting(now + 40)
  }

  lemma WakesTells(events: seq<Event>, s: State, g: nat)
    requires Tells(events, s) && Enabled(s, Wakes(g))
    ensures var t := Next(s, Wakes(g)); g in t.runs && t.runs[g] == AtTimer(events, g, s.now)
  {
  }

  /** When a timer fires the history decides: over, reading or asleep again. */
  lemma TimerReads(events: seq<Event>, s: State, g: nat)
    requires Schedule(INIT, events) && s == Run(INIT, events) && Enabled(s, Wakes(g))
    ensures g in Next(s, Wakes(g)).runs && Next(s, Wakes(g)).runs[g] == AtTimer(events, g, s.now)
  {
    OnlyTells(events, s);
    WakesTells(events, s, g);
  }
}
