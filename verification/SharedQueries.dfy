/**
 Hooks that name the same key share one live query: the first join opens it, later ones read the
 last answer at once, the last one leaving closes it.
 */
module SharedQueries {
  import opened Records

  type Key = string
  type Value = int

  // one live query; `open` is the backend subscription behind it
  datatype Shared = Shared(key: Key, listeners: set<nat>, open: bool, last: Option<Value>)

  // listeners and shared queries are numbered as they come; `seen` is what a listener was told last
  datatype State = State(
    registry: map<Key, nat>, shared: map<nat, Shared>, nextShared: nat,
    joined: map<nat, nat>, seen: map<nat, Option<Value>>, nextListener: nat)

  const INIT := State(map[], map[], 0, map[], map[], 0)

  // a hook may run its leave function more than once
  datatype Event = Join(key: Key) | Leave(listener: nat) | Emission(id: nat, value: Value)

  predicate Enabled(s: State, e: Event) {
    match e
    case Join(key) => key in s.registry ==> s.registry[key] in s.shared
    case Leave(l) => l in s.joined && s.joined[l] in s.shared
    case Emission(id, _) => id in s.shared && s.shared[id].open
  }

  function Next(s: State, e: Event): State
    requires Enabled(s, e)
  {
    match e
    case Join(key) =>
      var l := s.nextListener;
      if key in s.registry then
        var id := s.registry[key];
        var sh := s.shared[id];
        s.(shared := s.shared[id := sh.(listeners := sh.listeners + {l})],
           joined := s.joined[l := id], seen := s.seen[l := sh.last], nextListener := l + 1)
      else
        var id := s.nextShared;
        s.(registry := s.registry[key := id],
           shared := s.shared[id := Shared(key, {l}, true, None)], nextShared := id + 1,
           joined := s.joined[l := id], seen := s.seen[l := None], nextListener := l + 1)
    case Leave(l) =>
      var id := s.joined[l];
      var sh := s.shared[id].(listeners := s.shared[id].listeners - {l});
      if sh.listeners != {} then s.(shared := s.shared[id := sh])
      else
        s.(shared := s.shared[id := sh.(open := false)],
           registry := if sh.key in s.registry && s.registry[sh.key] == id then s.registry - {sh.key} else s.registry)
    case Emission(id, value) =>
      var sh := s.shared[id];
      s.(shared := s.shared[id := sh.(last := Some(value))],
         seen := map l | l in s.seen :: if l in sh.listeners then Some(value) else s.seen[l])
  }

  class Registry {
    var registry: map<Key, nat>
    var shared: map<nat, Shared>
    var nextShared: nat
    var joined: map<nat, nat>
    var seen: map<nat, Option<Value>>
    var nextListener: nat

    function View(): State
      reads this
    {
      State(registry, shared, nextShared, joined, seen, nextListener)
    }

    constructor ()
      ensures View() == INIT
    {
      registry, shared, nextShared, joined, seen, nextListener := map[], map[], 0, map[], map[], 0;
    }

    method JoinShared(key: Key) returns (listener: nat)
      requires Enabled(View(), Join(key))
      modifies this
      ensures listener == old(nextListener) && View() == Next(old(View()), Join(key))
    {
      listener := nextListener;
      nextListener := nextListener + 1;
      if key in registry {
        var id := registry[key];
        shared := shared[id := shared[id].(listeners := shared[id].listeners + {listener})];
        joined, seen := joined[listener := id], seen[listener := shared[id].last];
      } else {
        var id := nextShared;
        nextShared := nextShared + 1;
        registry, shared := registry[key := id], shared[id := Shared(key, {listener}, true, None)];
        joined, seen := joined[listener := id], seen[listener := None];
      }
    }

    method LeaveShared(listener: nat)
      requires Enabled(View(), Leave(listener))
      modifies this
      ensures View() == Next(old(View()), Leave(listener))
    {
      var id := joined[listener];
      shared := shared[id := shared[id].(listeners := shared[id].listeners - {listener})];
      if shared[id].listeners != {} {
        return;
      }
      shared := shared[id := shared[id].(open := false)];
      if shared[id].key in registry && registry[shared[id].key] == id {
        registry := registry - {shared[id].key};
      }
    }

    method Emit(id: nat, value: Value)
      requires Enabled(View(), Emission(id, value)) && shared[id].listeners <= seen.Keys
      modifies this
      ensures View() == Next(old(View()), Emission(id, value))
    {
      shared := shared[id := shared[id].(last := Some(value))];
      var todo := shared[id].listeners;
      while todo != {}
        invariant id in shared && todo <= shared[id].listeners <= seen.Keys == old(seen.Keys)
        invariant View() == old(View()).(shared := shared, seen := seen)
        invariant shared == old(shared)[id := old(shared[id]).(last := Some(value))]
        invariant forall l :: l in seen ==>
          seen[l] == if l in shared[id].listeners - todo then Some(value) else old(seen)[l]
      {
        var l :| l in todo;
        seen, todo := seen[l := Some(value)], todo - {l};
      }
      assert seen == Next(old(View()), Emission(id, value)).seen;
    }
  }

  // ---- over every sequence of joins, leaves and emissions ----

  // the registry names exactly the open live queries, and those are the listened-to ones
  ghost predicate Registered(s: State) {
    && (forall k :: k in s.registry ==>
          s.registry[k] in s.shared && s.shared[s.registry[k]].key == k && s.shared[s.registry[k]].open)
    && (forall id :: id in s.shared ==> id < s.nextShared && (s.shared[id].open <==> s.shared[id].listeners != {}))
    && (forall id :: id in s.shared && s.shared[id].open ==>
          s.shared[id].key in s.registry && s.registry[s.shared[id].key] == id)
  }

  // every listener belongs to the live query it joined and knows its last value
  ghost predicate Told(s: State) {
    && s.joined.Keys == s.seen.Keys
    && (forall l :: l in s.joined ==> l < s.nextListener && s.joined[l] in s.shared)
    && (forall id, l :: id in s.shared && l in s.shared[id].listeners ==>
          l in s.joined && s.joined[l] == id && s.seen[l] == s.shared[id].last)
  }

  ghost predicate Inv(s: State) { Registered(s) && Told(s) }

  lemma JoinKeepsInv(s: State, key: Key)
    requires Inv(s) && Enabled(s, Join(key))
    ensures Inv(Next(s, Join(key)))
  {
    var t, l := Next(s, Join(key)), s.nextListener;
    forall id, k | id in t.shared && k in t.shared[id].listeners
      ensures k in t.joined && t.joined[k] == id && t.seen[k] == t.shared[id].last
    {
      if id in s.shared && k in s.shared[id].listeners { assert s.joined[k] == id && k != l; }
    }
  }

  lemma LeaveKeepsRegistered(s: State, l: nat)
    requires Inv(s) && Enabled(s, Leave(l))
    ensures Registered(Next(s, Leave(l)))
  {
  }

  lemma LeaveKeepsInv(s: State, l: nat)
    requires Inv(s) && Enabled(s, Leave(l))
    ensures Inv(Next(s, Leave(l)))
  {
    LeaveKeepsRegistered(s, l);
    LeaveKeepsTold(s, l);
  }

  lemma LeaveKeepsTold(s: State, l: nat)
    requires Inv(s) && Enabled(s, Leave(l))
    ensures Told(Next(s, Leave(l)))
  {
    var t := Next(s, Leave(l));
    forall id, k | id in t.shared && k in t.shared[id].listeners
      ensures k in t.joined && t.joined[k] == id && t.seen[k] == t.shared[id].last
    {
      assert k in s.shared[id].listeners;
    }
  }

  lemma EmissionKeepsRegistered(s: State, id: nat, value: Value)
    requires Inv(s) && Enabled(s, Emission(id, value))
    ensures Registered(Next(s, Emission(id, value)))
  {
  }

  lemma EmissionKeepsInv(s: State, id: nat, value: Value)
    requires Inv(s) && Enabled(s, Emission(id, value))
    ensures Inv(Next(s, Emission(id, value)))
  {
    EmissionKeepsRegistered(s, id, value);
    var t := Next(s, Emission(id, value));
    forall i, k | i in t.shared && k in t.shared[i].listeners
      ensures k in t.joined && t.joined[k] == i && t.seen[k] == t.shared[i].last
    {
      assert k in s.shared[i].listeners && s.joined[k] == i;
    }
  }

  lemma StepKeepsInv(s: State, e: Event)
    requires Inv(s) && Enabled(s, e)
    ensures Inv(Next(s, e))
  {
    match e {
      case Join(key) => JoinKeepsInv(s, key);
      case Leave(l) => LeaveKeepsInv(s, l);
      case Emission(id, value) => EmissionKeepsInv(s, id, value);
    }
  }

  ghost predicate Schedule(s: State, events: seq<Event>)
    decreases |events|
  {
    events != [] ==> Enabled(s, events[0]) && Schedule(Next(s, events[0]), events[1..])
  }

  function Run(s: State, events: seq<Event>): State
    requires Schedule(s, events)
    decreases |events|
  {
    if events == [] then s else Run(Next(s, events[0]), events[1..])
  }

  lemma {:induction false} RunKeepsInv(s: State, events: seq<Event>)
    requires Inv(s) && Schedule(s, events)
    ensures Inv(Run(s, events))
    decreases |events|
  {
    if events != [] {
      StepKeepsInv(s, events[0]);
      RunKeepsInv(Next(s, events[0]), events[1..]);
    }
  }

  ghost predicate Listens(s: State, key: Key, l: nat) {
    exists id :: id in s.shared && s.shared[id].key == key && l in s.shared[id].listeners
  }

  ghost predicate OpenFor(s: State, key: Key, id: nat) {
    id in s.shared && s.shared[id].key == key && s.shared[id].open
  }

  /** After any sequence a key has exactly one open subscription while somebody listens to it and none
      otherwise, and every listener, the late joiners included, was told the shared last value. */
  lemma OneSubscriptionPerKey(events: seq<Event>, key: Key)
    requires Schedule(INIT, events)
    ensures var s := Run(INIT, events);
      && ((exists l :: Listens(s, key, l)) <==> exists id :: OpenFor(s, key, id))
      && (forall i, j :: OpenFor(s, key, i) && OpenFor(s, key, j) ==> i == j)
      && (forall id, l :: id in s.shared && l in s.shared[id].listeners ==>
            l in s.seen && s.seen[l] == s.shared[id].last)
  {
    RunKeepsInv(INIT, events);
    var s := Run(INIT, events);
    if id :| OpenFor(s, key, id) {
      var l :| l in s.shared[id].listeners;
      assert Listens(s, key, l);
    }
    if l :| Listens(s, key, l) {
      var id :| id in s.shared && s.shared[id].key == key && l in s.shared[id].listeners;
      assert OpenFor(s, key, id);
    }
  }

  /** In any reachable state every join and every leave, even a repeated one, can be taken. */
  lemma JoinAndLeaveAlwaysPossible(events: seq<Event>, key: Key, l: nat)
    requires Schedule(INIT, events)
    ensures var s := Run(INIT, events);
      Enabled(s, Join(key)) && (l < s.nextListener && l in s.joined ==> Enabled(s, Leave(l)))
  {
    RunKeepsInv(INIT, events);
  }

  /** Leaving twice is leaving once. */
  lemma LeavingTwice(s: State, l: nat)
    requires Inv(s) && Enabled(s, Leave(l))
    ensures Enabled(Next(s, Leave(l)), Leave(l)) && Next(Next(s, Leave(l)), Leave(l)) == Next(s, Leave(l))
  {
    var t := Next(s, Leave(l));
    var id := s.joined[l];
    assert t.shared[id].listeners - {l} == t.shared[id].listeners;
    StepKeepsInv(s, Leave(l));
  }
}
