/** The singleflight memo (src/singleflight_cache.rs): a map of memoised values and in-flight
    markers, and the protocol of the tasks that share it. */
module Singleflight {
  import opened Prelude

  /** An event is known by the number it was created with. */
  type EventId = nat

  datatype Entry<V> = Memo(value: V) | InFlight(event: EventId)

  datatype Ticket<V> = Hit(value: V) | Wait(event: EventId) | Resolve(event: EventId)

  datatype Store<K, V> = Store(entries: map<K, Entry<V>>, next: EventId)

  /** The store, as the tasks' methods change it. */
  function ClaimIn<K(==), V>(s: Store<K, V>, key: K): (Store<K, V>, Ticket<V>) {
    if key !in s.entries then (Store(s.entries[key := InFlight(s.next)], s.next + 1), Resolve(s.next))
    else
      match s.entries[key]
      case Memo(v) => (s, Hit(v))
      case InFlight(ev) => (s, Wait(ev))
  }

  function ReleasedIn<K(==), V>(s: Store<K, V>, key: K, value: Option<V>): Store<K, V> {
    s.(entries := if value.Some? then s.entries[key := Memo(value.value)] else s.entries - {key})
  }

  function InvalidatedIn<K(==), V>(s: Store<K, V>, key: K): Store<K, V> {
    s.(entries := s.entries - {key})
  }

  class SingleflightCache<K(==), V> {
    var entries: map<K, Entry<V>>
    var next: EventId
    ghost var woken: seq<EventId>  // events notified so far

    constructor ()
      ensures entries == map[] && woken == []
    {
      entries, next, woken := map[], 0, [];
    }

    ghost function Contents(): Store<K, V>
      reads this
    {
      Store(entries, next)
    }

    /** Atomic test-and-set. */
    method Claim(key: K) returns (c: Ticket<V>)
      modifies this
      ensures (Contents(), c) == ClaimIn(old(Contents()), key) && woken == old(woken)
    {
      if key in entries {
        match entries[key] {
          case Memo(v) => return Hit(v);
          case InFlight(ev) => return Wait(ev);
        }
      }
      entries := entries[key := InFlight(next)];
      next := next + 1;
      return Resolve(next - 1);
    }

    method ReleaseDone(key: K, value: V, event: EventId)
      modifies this
      ensures Contents() == ReleasedIn(old(Contents()), key, Some(value)) && woken == old(woken) + [event]
    {
      entries := entries[key := Memo(value)];
      woken := woken + [event];
    }

    method ReleaseFailed(key: K, event: EventId)
      modifies this
      ensures Contents() == ReleasedIn(old(Contents()), key, None) && woken == old(woken) + [event]
    {
      entries := entries - {key};
      woken := woken + [event];
    }

    /** The guard's drop: whatever happened to the resolve, the claim is released and its event
        notified. */
    method DropGuard(key: K, event: EventId, result: Option<V>)
      modifies this
      ensures Contents() == ReleasedIn(old(Contents()), key, result) && woken == old(woken) + [event]
    {
      match result
      case Some(v) => ReleaseDone(key, v, event);
      case None => ReleaseFailed(key, event);
    }

    method Invalidate(key: K)
      modifies this
      ensures Contents() == InvalidatedIn(old(Contents()), key) && woken == old(woken)
    {
      entries := entries - {key};
    }
  }

  // ----- tasks -------------------------------------------------------------

  datatype Task<K, V> =
    | Running(key: K)                       // about to claim
    | Waiting(key: K, event: EventId)       // listening for another task's release
    | Resolving(key: K, event: EventId)     // holds the guard for its claim
    | Returned(key: K, result: Option<V>)   // Ok or error

  datatype State<K, V> = State(store: Store<K, V>, tasks: map<nat, Task<K, V>>)

  datatype Event<K, V> =
    | Start(t: nat, key: K)
    | Claimed(t: nat)
    | Resolved(t: nat, key: K, value: V)    // the resolve succeeded; guard committed and dropped
    | Errored(t: nat)                       // the resolve failed; guard dropped
    | Dropped(t: nat)                       // the task was dropped where it was
    | Invalidated(key: K, hit: bool)        // `hit`: it removed an in-flight marker

  /** `notify(usize::MAX)`: every listener of the event goes back to its loop. */
  function Woken<K, V>(tasks: map<nat, Task<K, V>>, ev: EventId): map<nat, Task<K, V>> {
    map t | t in tasks :: if tasks[t].Waiting? && tasks[t].event == ev then Running(tasks[t].key) else tasks[t]
  }

  function AfterClaim<K, V>(key: K, c: Ticket<V>): Task<K, V> {
    match c
    case Hit(v) => Returned(key, Some(v))
    case Wait(ev) => Waiting(key, ev)
    case Resolve(ev) => Resolving(key, ev)
  }

  /** Task `t` leaves its resolve with `result`; `rest` are the tasks with `t` already in place. */
  ghost predicate Releases<K, V>(s: State<K, V>, t: nat, result: Option<V>, rest: map<nat, Task<K, V>>, s': State<K,
                                 V>) {
    && t in s.tasks && s.tasks[t].Resolving?
    && s' == State(ReleasedIn(s.store, s.tasks[t].key, result), Woken(rest, s.tasks[t].event))
  }

  ghost predicate Next<K, V>(s: State<K, V>, e: Event<K, V>, s': State<K, V>)
  {
    match e
    case Start(t, key) => t !in s.tasks && s' == s.(tasks := s.tasks[t := Running(key)])
    case Claimed(t) =>
      && t in s.tasks && s.tasks[t].Running?
      && var (store, c) := ClaimIn(s.store, s.tasks[t].key);
         s' == State(store, s.tasks[t := AfterClaim(s.tasks[t].key, c)])
    case Resolved(t, key, v) =>
      t in s.tasks && s.tasks[t].key == key && Releases(s, t, Some(v), s.tasks[t := Returned(key, Some(v))], s')
    case Errored(t) =>
      t in s.tasks && Releases(s, t, None, s.tasks[t := Returned(s.tasks[t].key, None)], s')
    case Dropped(t) =>
      && t in s.tasks
      && (if s.tasks[t].Resolving? then Releases(s, t, None, s.tasks - {t}, s')
          else s' == s.(tasks := s.tasks - {t}))
    case Invalidated(key, hit) =>
      && hit == (key in s.store.entries && s.store.entries[key].InFlight?)
      && s' == s.(store := InvalidatedIn(s.store, key))
  }

  /** Step `i` of a run. */
  ghost predicate StepAt<K, V>(states: seq<State<K, V>>, events: seq<Event<K, V>>, i: int)
    requires 0 <= i < |events| < |states|
  {
    Next(states[i], events[i], states[i + 1])
  }

  ghost predicate IsRun<K, V>(states: seq<State<K, V>>, events: seq<Event<K, V>>)
  {
    && |states| == |events| + 1
    && states[0] == State(Store(map[], 0), map[])
    && forall i | 0 <= i < |events| :: StepAt(states, events, i)
  }

  // ----- histories ---------------------------------------------------------

  /** Invalidations of `key` so far that hit an in-flight marker. */
  function Hits<K(==), V>(events: seq<Event<K, V>>, key: K): nat {
    if events == [] then 0
    else
      (if events[|events| - 1] == Invalidated(key, true) then 1 else 0) + Hits(events[..|events| - 1], key)
  }

  ghost predicate Produced<K, V>(events: seq<Event<K, V>>, key: K, v: V) {
    exists i :: 0 <= i < |events| && events[i].Resolved? && events[i].key == key && events[i].value == v
  }

  function ResolversIn<K(==), V>(tasks: map<nat, Task<K, V>>, key: K): set<nat> {
    set t | t in tasks && tasks[t].Resolving? && tasks[t].key == key
  }

  function Resolvers<K(==), V>(s: State<K, V>, key: K): set<nat> {
    ResolversIn(s.tasks, key)
  }

  function Markers<K(==), V>(s: State<K, V>, key: K): nat {
    if key in s.store.entries && s.store.entries[key].InFlight? then 1 else 0
  }

  // ----- invariants --------------------------------------------------------

  ghost predicate Holds<K, V>(s: State<K, V>, key: K, ev: EventId) {
    exists t :: t in s.tasks && s.tasks[t] == Resolving(key, ev)
  }

  /** Every marker, and every waiting task, has a live guard behind it that will notify its event. */
  ghost predicate Attended<K(!new), V>(s: State<K, V>) {
    && (forall k | k in s.store.entries && s.store.entries[k].InFlight? :: Holds(s, k, s.store.entries[k].event))
    && (forall t | t in s.tasks && s.tasks[t].Waiting? :: Holds(s, s.tasks[t].key, s.tasks[t].event))
  }

  /** `rest` differs from `tasks` at `t` alone, where nobody resolves any more. */
  ghost predicate Leaves<K, V>(tasks: map<nat, Task<K, V>>, t: nat, rest: map<nat, Task<K, V>>) {
    && (forall u: nat | u != t :: u in rest <==> u in tasks)
    && (forall u: nat | u != t && u in tasks :: rest[u] == tasks[u])
    && (t in rest ==> rest[t].Returned?)
  }

  lemma ReleaseKeepsAttended<K(!new), V>(s: State<K, V>, t: nat, result: Option<V>, rest: map<nat, Task<K, V>>,
                               s': State<K, V>)
    requires Attended(s) && Releases(s, t, result, rest, s')
    requires Leaves(s.tasks, t, rest)
    ensures Attended(s')
  {
    var key, ev := s.tasks[t].key, s.tasks[t].event;
    forall k | k in s'.store.entries && s'.store.entries[k].InFlight?
      ensures Holds(s', k, s'.store.entries[k].event)
    {
      var u :| u in s.tasks && s.tasks[u] == Resolving(k, s.store.entries[k].event);
      assert u != t && s'.tasks[u] == s.tasks[u];
    }
    forall w | w in s'.tasks && s'.tasks[w].Waiting?
      ensures Holds(s', s'.tasks[w].key, s'.tasks[w].event)
    {
      assert s.tasks[w] == s'.tasks[w];
      var u :| u in s.tasks && s.tasks[u] == Resolving(s.tasks[w].key, s.tasks[w].event);
      assert u != t && s'.tasks[u] == s.tasks[u];
    }
  }

  lemma StepKeepsAttended<K(!new), V>(s: State<K, V>, e: Event<K, V>, s': State<K, V>)
    requires Attended(s) && Next(s, e, s')
    ensures Attended(s')
  {
    match e
    case Start(t, key) => Carry(s, s', t);
    case Claimed(t) => ClaimKeepsAttended(s, t, s');
    case Resolved(t, key, v) => ReleaseKeepsAttended(s, t, Some(v), s.tasks[t := Returned(key, Some(v))], s');
    case Errored(t) => ReleaseKeepsAttended(s, t, None, s.tasks[t := Returned(s.tasks[t].key, None)], s');
    case Dropped(t) =>
      if s.tasks[t].Resolving? {
        ReleaseKeepsAttended(s, t, None, s.tasks - {t}, s');
      } else {
        Carry(s, s', t);
      }
    case Invalidated(key, hit) =>
      forall k, ev ensures Holds(s, k, ev) ==> Holds(s', k, ev) {
        if Holds(s, k, ev) {
          var u :| u in s.tasks && s.tasks[u] == Resolving(k, ev);
          assert s'.tasks[u] == Resolving(k, ev);
        }
      }
  }

  /** A change to one task that is not a resolver leaves every guard in place. */
  lemma Carry<K(!new), V>(s: State<K, V>, s': State<K, V>, t: nat)
    requires Attended(s) && s'.store == s.store
    requires t in s.tasks ==> !s.tasks[t].Resolving?
    requires forall u | u in s.tasks && u != t :: u in s'.tasks && s'.tasks[u] == s.tasks[u]
    requires forall u | u in s'.tasks && u != t :: u in s.tasks
    requires t in s'.tasks ==> s'.tasks[t].Running?
    ensures Attended(s')
  {}

  lemma ClaimKeepsAttended<K(!new), V>(s: State<K, V>, t: nat, s': State<K, V>)
    requires Attended(s) && Next(s, Claimed(t), s')
    ensures Attended(s')
  {
    forall k, ev | Holds(s, k, ev) ensures Holds(s', k, ev) {
      var u :| u in s.tasks && s.tasks[u] == Resolving(k, ev);
      assert s'.tasks[u] == Resolving(k, ev);
    }
    assert s'.tasks[t].Resolving? ==> Holds(s', s'.tasks[t].key, s'.tasks[t].event);
  }

  lemma {:induction false} RunAttended<K(!new), V>(states: seq<State<K, V>>, events: seq<Event<K, V>>, j: nat)
    requires IsRun(states, events) && j < |states|
    ensures Attended(states[j])
  {
    if j > 0 {
      RunAttended(states, events, j - 1);
      assert StepAt(states, events, j - 1);
      StepKeepsAttended(states[j - 1], events[j - 1], states[j]);
    }
  }

  /** No waiter is stranded: in every reachable state the event a task waits for belongs to a live
      guard, and whichever way that guard's task ends (success, error, or being dropped) the waiter
      goes back to its loop. */
  lemma NoStrandedWaiter<K(!new), V>(states: seq<State<K, V>>, events: seq<Event<K, V>>, j: nat, t: nat)
    returns (u: nat)
    requires IsRun(states, events) && j < |states| && t in states[j].tasks && states[j].tasks[t].Waiting?
    ensures u in states[j].tasks && states[j].tasks[u] == Resolving(states[j].tasks[t].key, states[j].tasks[t].event)
    ensures forall e, s' :: Next(states[j], e, s') && ((e.Resolved? && e.t == u) || e == Errored(u) || e == Dropped(u)) ==>
              t in s'.tasks && s'.tasks[t] == Running(states[j].tasks[t].key)
  {
    RunAttended(states, events, j);
    var s := states[j];
    assert Holds(s, s.tasks[t].key, s.tasks[t].event);
    u :| u in s.tasks && s.tasks[u] == Resolving(s.tasks[t].key, s.tasks[t].event);
    assert u != t;
  }

  // ----- the bound ---------------------------------------------------------

  lemma WakingResolvers<K(!new), V>(tasks: map<nat, Task<K, V>>, ev: EventId, key: K)
    ensures ResolversIn(Woken(tasks, ev), key) == ResolversIn(tasks, key)
  {}

  lemma LeavingResolvers<K(!new), V>(tasks: map<nat, Task<K, V>>, t: nat, rest: map<nat, Task<K, V>>, key: K)
    requires t in tasks && tasks[t].Resolving? && Leaves(tasks, t, rest)
    ensures ResolversIn(rest, key) == ResolversIn(tasks, key) - {t}
    ensures |ResolversIn(rest, key)| == |ResolversIn(tasks, key)| - if key == tasks[t].key then 1 else 0
  {}

  lemma ReleaseKeepsBound<K(!new), V>(s: State<K, V>, t: nat, result: Option<V>, rest: map<nat, Task<K, V>>,
                            s': State<K, V>, key: K, hits: nat)
    requires |Resolvers(s, key)| <= Markers(s, key) + hits && Releases(s, t, result, rest, s')
    requires Leaves(s.tasks, t, rest)
    ensures |Resolvers(s', key)| <= Markers(s', key) + hits
  {
    LeavingResolvers(s.tasks, t, rest, key);
    WakingResolvers(rest, s.tasks[t].event, key);
  }

  /** Live resolvers never outnumber the marker plus the hits: a stale guard that later releases
      somebody else's marker takes itself off the count as well. */
  lemma StepKeepsBound<K(!new), V>(s: State<K, V>, e: Event<K, V>, s': State<K, V>, key: K, hits: nat)
    requires |Resolvers(s, key)| <= Markers(s, key) + hits && Next(s, e, s')
    ensures |Resolvers(s', key)| <= Markers(s', key) + hits + (if e == Invalidated(key, true) then 1 else 0)
  {
    if e.Resolved? {
      ReleaseKeepsBound(s, e.t, Some(e.value), s.tasks[e.t := Returned(e.key, Some(e.value))], s', key, hits);
    } else if e.Errored? {
      ReleaseKeepsBound(s, e.t, None, s.tasks[e.t := Returned(s.tasks[e.t].key, None)], s', key, hits);
    } else if e.Dropped? && s.tasks[e.t].Resolving? {
      ReleaseKeepsBound(s, e.t, None, s.tasks - {e.t}, s', key, hits);
    } else if e.Claimed? && s'.tasks[e.t].Resolving? && s.tasks[e.t].key == key {
      assert Resolvers(s', key) == Resolvers(s, key) + {e.t};
    } else {
      assert Resolvers(s', key) == Resolvers(s, key);
    }
  }

  lemma {:induction false} RunBound<K(!new), V>(states: seq<State<K, V>>, events: seq<Event<K, V>>, key: K, j: nat)
    requires IsRun(states, events) && j < |states|
    ensures |Resolvers(states[j], key)| <= Markers(states[j], key) + Hits(events[..j], key)
  {
    if j == 0 {
      assert Resolvers(states[0], key) == {};
    } else {
      RunBound(states, events, key, j - 1);
      assert StepAt(states, events, j - 1);
      StepKeepsBound(states[j - 1], events[j - 1], states[j], key, Hits(events[..j - 1], key));
      assert events[..j][..j - 1] == events[..j - 1];
    }
  }

  /** In every run, at every point, live resolvers of a key number at most one more than the
      invalidations of that key that hit an in-flight marker; at most one when there were none. */
  lemma ResolverBound<K(!new), V>(states: seq<State<K, V>>, events: seq<Event<K, V>>, key: K, j: nat)
    requires IsRun(states, events) && j < |states|
    ensures |Resolvers(states[j], key)| <= 1 + Hits(events[..j], key)
    ensures (forall i | 0 <= i < j :: events[i] != Invalidated(key, true)) ==> |Resolvers(states[j], key)| <= 1
  {
    RunBound(states, events, key, j);
    if forall i | 0 <= i < j :: events[i] != Invalidated(key, true) {
      NoHits(events[..j], key);
    }
  }

  lemma {:induction false} NoHits<K(!new), V>(events: seq<Event<K, V>>, key: K)
    requires forall i | 0 <= i < |events| :: events[i] != Invalidated(key, true)
    ensures Hits(events, key) == 0
    decreases |events|
  {
    if events != [] {
      NoHits(events[..|events| - 1], key);
    }
  }

  lemma Extend<K, V>(states: seq<State<K, V>>, events: seq<Event<K, V>>, e: Event<K, V>, s': State<K, V>)
    requires IsRun(states, events) && Next(states[|events|], e, s')
    ensures IsRun(states + [s'], events + [e])
  {
    var (ss, es) := (states + [s'], events + [e]);
    forall i | 0 <= i < |es| ensures StepAt(ss, es, i) {
      if i < |events| {
        assert StepAt(states, events, i);
      }
    }
  }

  function Piled<K, V>(key: K, n: nat): State<K, V> {
    State(Store(map[key := InFlight(n)], n + 1), map t: nat | t <= n :: Resolving(key, t))
  }

  lemma PileGrows<K, V>(tasks: map<nat, Task<K, V>>, key: K, n: nat)
    requires forall t :: t in tasks <==> 0 <= t < n
    requires forall t | t in tasks :: tasks[t] == Resolving(key, t)
    ensures tasks[n := Running(key)][n := Resolving(key, n)] == Piled<K, V>(key, n).tasks
  {}

  function Upto(n: nat): (r: set<nat>)
    ensures |r| == n + 1 && forall t :: t in r <==> 0 <= t <= n
  {
    if n == 0 then {0} else Upto(n - 1) + {n}
  }

  /** The bound is exact: for every number of hits some run has that many live resolvers and one more. */
  lemma BoundIsTight<K(!new), V(!new)>(key: K, n: nat) returns (states: seq<State<K, V>>, events: seq<Event<K, V>>)
    ensures IsRun(states, events)
    ensures Hits(events, key) == n && |Resolvers(states[|events|], key)| == n + 1
  {
    states, events := PileUp(key, n);
    assert Resolvers(states[|events|], key) == Upto(n);
  }

  lemma HitsSnoc<K(!new), V(!new)>(events: seq<Event<K, V>>, e: Event<K, V>, key: K)
    ensures Hits(events + [e], key) == Hits(events, key) + if e == Invalidated(key, true) then 1 else 0
  {
    assert (events + [e])[..|events|] == events;
  }

  /** A run that ends with `n` resolvers and no marker takes on one more. */
  lemma OneMore<K(!new), V(!new)>(states: seq<State<K, V>>, events: seq<Event<K, V>>, key: K, n: nat)
    returns (ss: seq<State<K, V>>, es: seq<Event<K, V>>)
    requires IsRun(states, events) && states[|events|].store == Store(map[], n)
    requires forall t :: t in states[|events|].tasks <==> 0 <= t < n
    requires forall t | t in states[|events|].tasks :: states[|events|].tasks[t] == Resolving(key, t)
    ensures IsRun(ss, es) && ss[|es|] == Piled(key, n) && Hits(es, key) == Hits(events, key)
  {
    var s := states[|events|];
    var started := s.(tasks := s.tasks[n := Running(key)]);
    Extend(states, events, Start(n, key), started);
    HitsSnoc(events, Start(n, key), key);
    PileGrows(s.tasks, key, n);
    Extend(states + [started], events + [Start(n, key)], Claimed(n), Piled(key, n));
    HitsSnoc(events + [Start(n, key)], Claimed(n), key);
    ss, es := states + [started] + [Piled(key, n)], events + [Start(n, key)] + [Claimed(n)];
  }

  lemma {:induction false} PileUp<K(!new), V(!new)>(key: K, n: nat)
    returns (states: seq<State<K, V>>, events: seq<Event<K, V>>)
    ensures IsRun(states, events) && states[|events|] == Piled(key, n) && Hits(events, key) == n
  {
    if n == 0 {
      states, events := [State(Store(map[], 0), map[])], [];
    } else {
      states, events := PileUp(key, n - 1);
      var s: State<K, V> := Piled(key, n - 1);
      var cleared := s.(store := InvalidatedIn(s.store, key));
      assert cleared.store.entries == map[];
      Extend(states, events, Invalidated(key, true), cleared);
      HitsSnoc(events, Invalidated(key, true), key);
      states, events := states + [cleared], events + [Invalidated(key, true)];
    }
    states, events := OneMore(states, events, key, n);
  }

  // ----- provenance --------------------------------------------------------

  ghost predicate Honest<K(!new), V(!new)>(s: State<K, V>, events: seq<Event<K, V>>) {
    && (forall k | k in s.store.entries && s.store.entries[k].Memo? :: Produced(events, k, s.store.entries[k].value))
    && (forall t | t in s.tasks && s.tasks[t].Returned? && s.tasks[t].result.Some? ::
          Produced(events, s.tasks[t].key, s.tasks[t].result.value))
  }

  lemma StillProduced<K(!new), V(!new)>(events: seq<Event<K, V>>, e: Event<K, V>)
    ensures forall k, v :: Produced(events, k, v) ==> Produced(events + [e], k, v)
    ensures e.Resolved? ==> Produced(events + [e], e.key, e.value)
  {
    forall k, v | Produced(events, k, v) ensures Produced(events + [e], k, v) {
      var i :| 0 <= i < |events| && events[i].Resolved? && events[i].key == k && events[i].value == v;
      assert (events + [e])[i] == events[i];
    }
    assert (events + [e])[|events|] == e;
  }

  lemma {:induction false} RunHonest<K(!new), V(!new)>(states: seq<State<K, V>>, events: seq<Event<K, V>>, j: nat)
    requires IsRun(states, events) && j < |states|
    ensures Honest(states[j], events[..j])
  {
    if j > 0 {
      RunHonest(states, events, j - 1);
      assert events[..j] == events[..j - 1] + [events[j - 1]];
      StillProduced(events[..j - 1], events[j - 1]);
      assert StepAt(states, events, j - 1);
    }
  }

  /** Every value `with(key)` returns Ok was produced by a resolve of that same key that succeeded
      earlier in the run. */
  lemma ValuesAreResolved<K(!new), V(!new)>(states: seq<State<K, V>>, events: seq<Event<K, V>>, j: nat, t: nat)
    requires IsRun(states, events) && j < |states|
    requires t in states[j].tasks && states[j].tasks[t].Returned? && states[j].tasks[t].result.Some?
    ensures Produced(events[..j], states[j].tasks[t].key, states[j].tasks[t].result.value)
  {
    RunHonest(states, events, j);
  }

  /** `v` was resolved for `key`, and nothing has invalidated the key since. */
  ghost predicate Fresh<K, V>(events: seq<Event<K, V>>, key: K, v: V) {
    exists i :: 0 <= i < |events| && FreshSince(events, key, v, i)
  }

  ghost predicate FreshSince<K, V>(events: seq<Event<K, V>>, key: K, v: V, i: int)
    requires 0 <= i < |events|
  {
    && events[i].Resolved? && events[i].key == key && events[i].value == v
    && forall m | i < m < |events| :: !(events[m].Invalidated? && events[m].key == key)
  }

  lemma StillFresh<K(!new), V(!new)>(events: seq<Event<K, V>>, e: Event<K, V>, key: K, v: V)
    requires Fresh(events, key, v) && !(e.Invalidated? && e.key == key)
    ensures Fresh(events + [e], key, v)
  {
    var i :| 0 <= i < |events| && FreshSince(events, key, v, i);
    assert FreshSince(events + [e], key, v, i);
  }

  /** A memoised value comes from a resolve that ended after the last invalidation of its key. It may
      have begun before. */
  lemma {:induction false} MemosAreFresh<K(!new), V(!new)>(states: seq<State<K, V>>, events: seq<Event<K, V>>,
                                           j: nat, key: K)
    requires IsRun(states, events) && j < |states|
    requires key in states[j].store.entries && states[j].store.entries[key].Memo?
    ensures Fresh(events[..j], key, states[j].store.entries[key].value)
  {
    if j > 0 {
      var (s, e, s') := (states[j - 1], events[j - 1], states[j]);
      assert StepAt(states, events, j - 1);
      assert events[..j] == events[..j - 1] + [e];
      if e.Resolved? && e.key == key {
        assert FreshSince(events[..j], key, e.value, j - 1);
      } else {
        MemosAreFresh(states, events, j - 1, key);
        StillFresh(events[..j - 1], e, key, s.store.entries[key].value);
      }
    }
  }

  /** Task `t` claimed `key` at some point after `x` and before `j`. */
  ghost predicate ClaimedIn<K, V>(states: seq<State<K, V>>, events: seq<Event<K, V>>, x: nat, j: nat, t: nat, key: K) {
    exists a :: x < a < j <= |events| < |states| && ClaimsAt(states, events, a, t, key)
  }

  ghost predicate ClaimsAt<K, V>(states: seq<State<K, V>>, events: seq<Event<K, V>>, a: int, t: nat, key: K)
    requires 0 <= a < |events| < |states|
  {
    events[a] == Claimed(t) && t in states[a + 1].tasks && states[a + 1].tasks[t].Resolving? && states[a + 1].tasks[t].key == key
  }

  /** `v` was resolved for `key` at some `r` before `j` by a task that had claimed it after `x`. */
  ghost predicate ResolvedIn<K, V>(states: seq<State<K, V>>, events: seq<Event<K, V>>, x: nat, j: nat, key: K, v: V) {
    exists r :: 0 <= r < j <= |events| && events[r].Resolved? && events[r].key == key && events[r].value == v
      && ClaimedIn(states, events, x, r, events[r].t, key)
  }

  lemma ClaimedLater<K(!new), V>(states: seq<State<K, V>>, events: seq<Event<K, V>>, x: nat, j: nat, t: nat, key: K)
    requires ClaimedIn(states, events, x, j, t, key) && j < |events|
    ensures ClaimedIn(states, events, x, j + 1, t, key)
  {}

  /** From an invalidation that finds nobody resolving, every resolver claimed since. */
  lemma {:induction false} ResolversClaimed<K(!new), V(!new)>(states: seq<State<K, V>>, events: seq<Event<K, V>>,
      x: nat, j: nat, key: K)
    requires IsRun(states, events) && x < j <= |events| && Resolvers(states[x + 1], key) == {}
    ensures forall t | t in Resolvers(states[j], key) :: ClaimedIn(states, events, x, j, t, key)
    decreases j
  {
    if x + 1 < j {
      ResolversClaimed(states, events, x, j - 1, key);
      var (s, e, s') := (states[j - 1], events[j - 1], states[j]);
      assert StepAt(states, events, j - 1);
      forall t | t in Resolvers(s', key) ensures ClaimedIn(states, events, x, j, t, key) {
        ResolverWas(s, e, s', t, key);
        if t in Resolvers(s, key) {
          ClaimedLater(states, events, x, j - 1, t, key);
        } else {
          assert ClaimsAt(states, events, j - 1, t, key);
        }
      }
    }
  }

  lemma ResolverWas<K(!new), V(!new)>(s: State<K, V>, e: Event<K, V>, s': State<K, V>, t: nat, key: K)
    requires Next(s, e, s') && t in Resolvers(s', key)
    ensures t in Resolvers(s, key) || e == Claimed(t)
  {}

  /** If nobody was resolving the key when it was invalidated, a value memoised since was claimed since
      as well: it is no older than the invalidation in any sense. */
  lemma {:induction false} MemosAreClaimedSince<K(!new), V(!new)>(states: seq<State<K, V>>, events: seq<Event<K, V>>,
      x: nat, j: nat, key: K)
    requires IsRun(states, events) && x < j <= |events| && events[x].Invalidated? && events[x].key == key
    requires Resolvers(states[x + 1], key) == {}
    requires key in states[j].store.entries && states[j].store.entries[key].Memo?
    ensures ResolvedIn(states, events, x, j, key, states[j].store.entries[key].value)
    decreases j
  {
    var (s, e, s') := (states[j - 1], events[j - 1], states[j]);
    assert StepAt(states, events, j - 1);
    if e.Resolved? && e.key == key {
      ResolversClaimed(states, events, x, j - 1, key);
      assert e.t in Resolvers(s, key);
    } else {
      MemosAreClaimedSince(states, events, x, j - 1, key);
    }
  }

  /** Otherwise it may be: for every key and value there is a run that claims, invalidates and then
      memoises the value of the claim before. */
  lemma StaleMemoExists<K(!new), V(!new)>(key: K, v: V) returns (states: seq<State<K, V>>, events: seq<Event<K, V>>)
    ensures IsRun(states, events) && events == [Start(0, key), Claimed(0), Invalidated(key, true), Resolved(0, key, v)]
    ensures key in states[4].store.entries && states[4].store.entries[key] == Memo(v)
  {
    var s0: State<K, V> := State(Store(map[], 0), map[]);
    var s1 := s0.(tasks := map[0 := Running(key)]);
    var s2 := State(Store(map[key := InFlight(0)], 1), map[0 := Resolving(key, 0)]);
    var s3 := s2.(store := InvalidatedIn(s2.store, key));
    var s4 := State(ReleasedIn(s3.store, key, Some(v)), Woken(s3.tasks[0 := Returned(key, Some(v))], 0));
    Extend([s0], [], Start(0, key), s1);
    assert s1.store.entries[key := InFlight(0)] == s2.store.entries && s1.tasks[0 := Resolving(key, 0)] == s2.tasks;
    Extend([s0, s1], [Start(0, key)], Claimed(0), s2);
    Extend([s0, s1, s2], [Start(0, key), Claimed(0)], Invalidated(key, true), s3);
    Extend([s0, s1, s2, s3], [Start(0, key), Claimed(0), Invalidated(key, true)], Resolved(0, key, v), s4);
    states := [s0, s1, s2, s3, s4];
    events := [Start(0, key), Claimed(0), Invalidated(key, true), Resolved(0, key, v)];
  }

  /** Once the only resolver of a key has succeeded nobody resolves it again until it is invalidated:
      every later `with(key)` hits the same value. */
  lemma {:induction false} ResolvedOnce<K(!new), V(!new)>(states: seq<State<K, V>>, events: seq<Event<K, V>>, i: nat,
                                          j: nat)
    requires IsRun(states, events) && i < j < |states| && events[i].Resolved? && Resolvers(states[i], events[i].key) == {events[i].t}
    requires forall m | i < m < j :: !(events[m].Invalidated? && events[m].key == events[i].key)
    ensures Resolvers(states[j], events[i].key) == {}
    ensures ClaimIn(states[j].store, events[i].key).1 == Hit(events[i].value)
    decreases j
  {
    var (key, e) := (events[i].key, events[j - 1]);
    assert StepAt(states, events, j - 1);
    if j - 1 > i {
      ResolvedOnce(states, events, i, j - 1);
      assert StepAt(states, events, j - 1);
      MemoStep(states[j - 1], e, states[j], key, events[i].value);
    } else {
      LeavingResolvers(states[i].tasks, e.t, states[i].tasks[e.t := Returned(key, Some(e.value))], key);
      WakingResolvers(states[i].tasks[e.t := Returned(key, Some(e.value))], states[i].tasks[e.t].event, key);
    }
  }

  lemma MemoStep<K(!new), V(!new)>(s: State<K, V>, e: Event<K, V>, s': State<K, V>, key: K, v: V)
    requires Next(s, e, s') && Resolvers(s, key) == {} && key in s.store.entries && s.store.entries[key] == Memo(v)
    requires !(e.Invalidated? && e.key == key)
    ensures Resolvers(s', key) == {} && key in s'.store.entries && s'.store.entries[key] == Memo(v)
  {
    assert forall t | t in s.tasks && s.tasks[t].Resolving? :: s.tasks[t].key != key by {
      forall t | t in s.tasks && s.tasks[t].Resolving? ensures s.tasks[t].key != key {
        assert t !in Resolvers(s, key);
      }
    }
  }
}
