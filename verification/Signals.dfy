/** The lock-free signal notifier and the shutdown watcher (src/signals.rs). Handler instances, any
    number of them, interleave with the watcher one atomic operation at a time. */
module Signals {
  import opened Prelude

  datatype Signal = Term | Int

  /** What a handler instance does next: store its pending flag, store `set`, or wake. */
  datatype HandlerPc = ToStore | ToSet | ToWake

  datatype Handler = Handler(signal: Signal, pc: HandlerPc)

  /** Where the watcher task is: checking the flags, in the three operations of a poll, parked, or
      returned. */
  datatype WatcherPc = AtTerm | AtInt | AtPoll | AtRegister | AtRepoll | Parked | Done(name: Signal)

  /** `registered`: the waker slot holds the task's waker. `scheduled`: the executor owes the task a
      run. */
  datatype State = State(
    pending: set<Signal>, notified: bool, registered: bool, scheduled: bool,
    handlers: map<nat, Handler>, pc: WatcherPc, cancels: nat)

  const START := State({}, false, false, false, map[], AtTerm, 0)

  // ----- the watcher's atomic operations -----------------------------------

  function CheckFlag(s: State, signal: Signal, otherwise: WatcherPc): State {
    if signal in s.pending then s.(pending := s.pending - {signal}, pc := Done(signal), cancels := s.cancels + 1)
    else s.(pc := otherwise)
  }

  function TakeNotified(s: State, otherwise: WatcherPc): State {
    s.(notified := false, pc := if s.notified then AtTerm else otherwise)
  }

  predicate Runnable(s: State) {
    !s.pc.Done? && (s.pc.Parked? ==> s.scheduled)
  }

  function Watch(s: State): State
    requires Runnable(s)
  {
    match s.pc
    case AtTerm => CheckFlag(s, Term, AtInt)
    case AtInt => CheckFlag(s, Int, AtPoll)
    case AtPoll => TakeNotified(s, AtRegister)
    case AtRegister => s.(registered := true, pc := AtRepoll)
    case AtRepoll => TakeNotified(s, Parked)
    case Parked => s.(scheduled := false, pc := AtPoll)
  }

  // ----- the handlers' atomic operations -----------------------------------

  function Handle(s: State, h: nat): State
    requires h in s.handlers
  {
    var signal := s.handlers[h].signal;
    match s.handlers[h].pc
    case ToStore => s.(pending := s.pending + {signal}, handlers := s.handlers[h := Handler(signal, ToSet)])
    case ToSet => s.(notified := true, handlers := s.handlers[h := Handler(signal, ToWake)])
    case ToWake =>
      s.(scheduled := s.scheduled || s.registered, registered := false, handlers := s.handlers - {h})
  }

  datatype Event =
    | Raised(h: nat, signal: Signal)  // the OS enters a handler instance
    | Handled(h: nat, signal: Signal, did: HandlerPc)
    | Watched

  ghost predicate Next(s: State, e: Event, s': State) {
    match e
    case Raised(h, signal) => h !in s.handlers && s' == s.(handlers := s.handlers[h := Handler(signal, ToStore)])
    case Handled(h, signal, did) => h in s.handlers && s.handlers[h] == Handler(signal, did) && s' == Handle(s, h)
    case Watched => Runnable(s) && s' == Watch(s)
  }

  /** Step `i` of a run. */
  ghost predicate StepAt(states: seq<State>, events: seq<Event>, i: int)
    requires 0 <= i < |events| < |states|
  {
    Next(states[i], events[i], states[i + 1])
  }

  ghost predicate IsRun(states: seq<State>, events: seq<Event>) {
    && |states| == |events| + 1
    && states[0] == START
    && forall i | 0 <= i < |events| :: StepAt(states, events, i)
  }

  // ----- the invariant -----------------------------------------------------

  predicate BeforeCheck(pc: WatcherPc, signal: Signal) {
    pc.AtTerm? || (pc.AtInt? && signal.Int?)
  }

  ghost predicate Someone(s: State, signal: Signal, pc: HandlerPc) {
    exists h :: h in s.handlers && s.handlers[h] == Handler(signal, pc)
  }

  /** A flag that is set is about to be checked, or its notification is stored, or still to come. */
  ghost predicate FlagSeen(s: State, signal: Signal) {
    signal in s.pending && !s.pc.Done? ==>
      BeforeCheck(s.pc, signal) || s.notified || Someone(s, signal, ToSet)
  }

  ghost predicate Inv(s: State) {
    && (forall signal :: FlagSeen(s, signal))
    && (s.notified && s.pc.Parked? && !s.scheduled ==> exists signal :: Someone(s, signal, ToWake))
    && ((s.pc.AtRepoll? || s.pc.Parked?) && !s.scheduled ==> s.registered)
    && s.cancels == (if s.pc.Done? then 1 else 0)
  }

  lemma WatchKeeps(s: State)
    requires Inv(s) && Runnable(s)
    ensures Inv(Watch(s))
  {
    var s' := Watch(s);
    assert s'.handlers == s.handlers;
    forall signal ensures FlagSeen(s', signal) {
      assert FlagSeen(s, signal);
      assert forall pc :: Someone(s', signal, pc) == Someone(s, signal, pc);
    }
  }

  lemma RaiseKeeps(s: State, h: nat, signal: Signal)
    requires Inv(s) && h !in s.handlers
    ensures Inv(s.(handlers := s.handlers[h := Handler(signal, ToStore)]))
  {
    var s' := s.(handlers := s.handlers[h := Handler(signal, ToStore)]);
    Others(s, s', h);
    forall other ensures FlagSeen(s', other) {
      assert FlagSeen(s, other);
    }
  }

  /** Instances other than `h` stay where they are. */
  lemma Others(s: State, s': State, h: nat)
    requires forall u | u in s.handlers && u != h :: u in s'.handlers && s'.handlers[u] == s.handlers[u]
    ensures forall signal, pc :: Someone(s, signal, pc) ==>
              Someone(s', signal, pc) || (h in s.handlers && s.handlers[h] == Handler(signal, pc))
  {}

  lemma HandleKeeps(s: State, h: nat)
    requires Inv(s) && h in s.handlers
    ensures Inv(Handle(s, h))
  {
    var s' := Handle(s, h);
    var signal := s.handlers[h].signal;
    Others(s, s', h);
    if s.handlers[h].pc == ToStore {
      assert s'.handlers[h] == Handler(signal, ToSet);
      assert Someone(s', signal, ToSet);
    } else if s.handlers[h].pc == ToSet {
      assert s'.handlers[h] == Handler(signal, ToWake);
      assert Someone(s', signal, ToWake);
    }
    forall other ensures FlagSeen(s', other) {
      assert FlagSeen(s, other);
    }
  }

  lemma {:induction false} RunKeeps(states: seq<State>, events: seq<Event>, j: nat)
    requires IsRun(states, events) && j < |states|
    ensures Inv(states[j])
  {
    if j > 0 {
      RunKeeps(states, events, j - 1);
      var (s, e) := (states[j - 1], events[j - 1]);
      assert StepAt(states, events, j - 1);
      match e
      case Raised(h, signal) => RaiseKeeps(s, h, signal);
      case Handled(h, signal, did) => HandleKeeps(s, h);
      case Watched => WatchKeeps(s);
    }
  }

  // ----- results -----------------------------------------------------------

  /** No lost signal: in every reachable state where a flag is set and the watcher is parked, either
      it is scheduled or some handler instance has yet to wake it. With no instance in flight it is
      scheduled. */
  lemma NoLostSignal(states: seq<State>, events: seq<Event>, j: nat, signal: Signal)
    requires IsRun(states, events) && j < |states|
    requires signal in states[j].pending && states[j].pc.Parked?
    ensures states[j].scheduled || Someone(states[j], signal, ToSet) || exists other :: Someone(states[j], other, ToWake)
    ensures states[j].handlers == map[] ==> states[j].scheduled
  {
    RunKeeps(states, events, j);
    assert FlagSeen(states[j], signal);
  }

  /** The watcher running alone for `n` operations, staying put once it parks or returns. */
  function Alone(s: State, n: nat): State
    decreases n
  {
    if n == 0 || !Runnable(s) then s else Alone(Watch(s), n - 1)
  }

  /** Operations left to the watcher when every set flag has been notified. */
  function Left(s: State): nat {
    match s.pc
    case Done(_) => 0
    case AtTerm => 2
    case AtInt => if Int in s.pending then 1 else 4
    case AtPoll => 3
    case AtRegister => 4
    case AtRepoll => 3
    case Parked => 4
  }

  lemma {:induction false} Approach(s: State, n: nat)
    requires Inv(s) && s.handlers == map[] && s.pending != {} && !s.pc.Done? && Left(s) <= n
    ensures Alone(s, n).pc.Done?
    decreases n
  {
    assert FlagSeen(s, Term) && FlagSeen(s, Int);
    assert Term in s.pending || Int in s.pending by {
      var signal :| signal in s.pending;
      assert signal == Term || signal == Int;
    }
    WatchKeeps(s);
    if !Watch(s).pc.Done? {
      Approach(Watch(s), n - 1);
    }
  }

  /** Once the handlers of a run have finished, a flag that is set makes the watcher return within
      four operations of its own: it never parks on it. */
  lemma SettledRunFinishes(states: seq<State>, events: seq<Event>, j: nat)
    requires IsRun(states, events) && j < |states|
    requires states[j].handlers == map[] && states[j].pending != {}
    ensures Alone(states[j], 4).pc.Done?
  {
    RunKeeps(states, events, j);
    if !states[j].pc.Done? {
      Approach(states[j], 4);
    }
  }

  /** Shutdown is cancelled at most once, exactly when the watcher has returned; and the name it
      returns is that of a signal whose handler really stored its flag earlier in the run. */
  lemma CancelsOnceForARealSignal(states: seq<State>, events: seq<Event>, j: nat)
    requires IsRun(states, events) && j < |states|
    ensures states[j].cancels <= 1 && (states[j].cancels == 1 <==> states[j].pc.Done?)
    ensures states[j].pc.Done? ==> Stored(events[..j], states[j].pc.name)
  {
    RunKeeps(states, events, j);
    FlagsAreReal(states, events, j);
  }

  ghost predicate Stored(events: seq<Event>, signal: Signal) {
    exists i :: 0 <= i < |events| && events[i].Handled? && events[i].signal == signal && events[i].did == ToStore
  }

  lemma {:induction false} FlagsAreReal(states: seq<State>, events: seq<Event>, j: nat)
    requires IsRun(states, events) && j < |states|
    ensures forall signal | signal in states[j].pending || states[j].pc == Done(signal) :: Stored(events[..j], signal)
  {
    if j > 0 {
      FlagsAreReal(states, events, j - 1);
      var (s, e, s') := (states[j - 1], events[j - 1], states[j]);
      assert StepAt(states, events, j - 1);
      forall signal | signal in s'.pending || s'.pc == Done(signal) ensures Stored(events[..j], signal) {
        if signal in s.pending || s.pc == Done(signal) {
          var es := events[..j - 1];
          var i :| 0 <= i < |es| && es[i].Handled? && es[i].signal == signal && es[i].did == ToStore;
          assert events[..j][i] == events[..j - 1][i];
        } else {
          assert events[..j][j - 1] == e;
        }
      }
    }
  }

  // ----- the code, run without interruption --------------------------------

  lemma {:induction false} AloneAdds(s: State, m: nat, n: nat)
    ensures Alone(s, m + n) == Alone(Alone(s, m), n)
    decreases m
  {
    if m > 0 && Runnable(s) {
      AloneAdds(Watch(s), m - 1, n);
    }
  }

  class ShutdownWatcher {
    var termPending: bool
    var intPending: bool
    var notified: bool
    var registered: bool
    var scheduled: bool
    var cancels: nat

    constructor ()
      ensures At(AtTerm, map[]) == START
    {
      termPending, intPending, notified := false, false, false;
      registered, scheduled, cancels := false, false, 0;
    }

    /** The machine's state with the watcher at `pc` and the handler instances `handlers`. */
    ghost function At(pc: WatcherPc, handlers: map<nat, Handler>): State
      reads this
    {
      State((if termPending then {Term} else {}) + (if intPending then {Int} else {}),
            notified, registered, scheduled, handlers, pc, cancels)
    }

    method Notify()
      modifies this
      ensures forall pc, hs, h, signal | hs == map[h := Handler(signal, ToSet)] ::
                At(pc, map[]) == Handle(Handle(old(At(pc, hs)), h), h)
    {
      notified := true;
      scheduled := scheduled || registered;
      registered := false;
      forall pc, hs, h, signal | hs == map[h := Handler(signal, ToSet)]
        ensures At(pc, map[]) == Handle(Handle(old(At(pc, hs)), h), h)
      {
        assert hs[h := Handler(signal, ToWake)] - {h} == map[];
      }
    }

    /** The handler body, uninterrupted, is the three operations of one instance. */
    method OnSignal(signal: Signal)
      modifies this
      ensures forall pc, hs, h | hs == map[h := Handler(signal, ToStore)] ::
                At(pc, map[]) == Handle(Handle(Handle(old(At(pc, hs)), h), h), h)
    {
      match signal {
        case Term => termPending := true;
        case Int => intPending := true;
      }
      label stored:
      Notify();
      forall pc, hs, h | hs == map[h := Handler(signal, ToStore)]
        ensures At(pc, map[]) == Handle(Handle(Handle(old(At(pc, hs)), h), h), h)
      {
        var hs' := map[h := Handler(signal, ToSet)];
        assert hs[h := Handler(signal, ToSet)] == hs';
        assert old@stored(At(pc, hs')).pending == old(At(pc, hs)).pending + {signal};
        assert old@stored(At(pc, hs')) == Handle(old(At(pc, hs)), h);
      }
    }

    /** One poll of the notified future. */
    method Poll(ghost handlers: map<nat, Handler>) returns (ready: bool)
      modifies this
      ensures At(if ready then AtTerm else Parked, handlers) == Alone(old(At(AtPoll, handlers)), if ready then 1 else 3)
      ensures ready == old(notified) && !notified
      ensures termPending == old(termPending) && intPending == old(intPending)
    {
      if notified {
        notified := false;
        return true;
      }
      registered := true;
      ready := notified;
      notified := false;
      ghost var s := old(At(AtPoll, handlers));
      assert Alone(s, 3) == Watch(Watch(Watch(s)));
    }

    /** The two checks at the top of the watcher's loop. */
    method CheckFlags(ghost handlers: map<nat, Handler>) returns (name: Option<Signal>)
      modifies this
      ensures name == if old(termPending) then Some(Term) else if old(intPending) then Some(Int) else None
      ensures At(if name.Some? then Done(name.value) else AtPoll, handlers)
           == Alone(old(At(AtTerm, handlers)), if name == Some(Term) then 1 else 2)
      ensures notified == old(notified) && (name.None? ==> !termPending && !intPending)
    {
      name := None;
      ghost var s := At(AtTerm, handlers);
      if termPending {
        termPending := false;
        cancels := cancels + 1;
        name := Some(Term);
        assert At(Done(Term), handlers) == Watch(s) == Alone(s, 1);
      } else if intPending {
        intPending := false;
        cancels := cancels + 1;
        name := Some(Int);
        assert At(Done(Int), handlers) == Watch(Watch(s)) == Alone(s, 2);
      } else {
        assert At(AtPoll, handlers) == Watch(Watch(s)) == Alone(s, 2);
      }
    }

    /** One run of the watcher task, from its start or from a wake. It ends, returning or parking;
        the loop goes round again only when it consumed a notification. */
    method RunTask(resumed: bool, ghost handlers: map<nat, Handler>) returns (name: Option<Signal>, ghost n: nat)
      requires resumed ==> scheduled
      modifies this
      ensures At(if name.Some? then Done(name.value) else Parked, handlers)
           == Alone(old(At(if resumed then Parked else AtTerm, handlers)), n)
      ensures name.Some? <==> (resumed ==> old(notified)) && (old(termPending) || old(intPending))
    {
      ghost var start := At(if resumed then Parked else AtTerm, handlers);
      n := 0;
      if resumed {
        scheduled := false;
        assert At(AtPoll, handlers) == Alone(start, 1);
        var ready := Poll(handlers);
        n := if ready then 2 else 4;
        AloneAdds(start, 1, n - 1);
        if !ready {
          return None, n;
        }
      }
      while true
        invariant At(AtTerm, handlers) == Alone(start, n)
        invariant (termPending || intPending) == old(termPending || intPending)
        invariant resumed ==> old(notified)
        decreases notified
      {
        ghost var k: nat := if termPending then 1 else 2;
        AloneAdds(start, n, k);
        name := CheckFlags(handlers);
        n := n + k;
        if name.Some? {
          return;
        }
        var ready := Poll(handlers);
        k := if ready then 1 else 3;
        AloneAdds(start, n, k);
        n := n + k;
        if !ready {
          return;
        }
      }
    }
  }
}
