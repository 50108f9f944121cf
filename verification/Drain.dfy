/** The connection tracker (src/connection_tracker.rs): a counter of live handler tokens and a drain
    that waits, for a bounded time, for it to reach zero. */
module Drain {
  datatype Stats = Stats(drained: nat, complete: bool)

  /** Where the drain is. Handlers may finish between any two of its steps. */
  datatype Pc =
    | Serving              // not draining yet: connections are still accepted
    | ToListen
    | ToCheck
    | ToDeadline
    | Awaiting
    | ToReport(complete: bool)
    | Reported(stats: Stats)

  /** `notified`: the listener the drain holds has been notified. `rounds`: turns of its loop. */
  datatype State = State(active: nat, tokens: set<nat>, pc: Pc, notified: bool, initial: nat, rounds: nat)

  const START := State(0, {}, Serving, false, 0, 0)

  datatype Event =
    | Spawned(h: nat)
    | Finished(h: nat)     // exit, timeout or panic: the token is dropped
    | Began
    | Listened
    | Checked
    | Continued(expired: bool)
    | Woke
    | TimedOut
    | Ended

  ghost predicate Next(s: State, e: Event, s': State) {
    match e
    case Spawned(h) =>  // `drain` consumes the tracker, so nothing is spawned after it begins
      s.pc.Serving? && h !in s.tokens && s' == s.(active := s.active + 1, tokens := s.tokens + {h})
    case Finished(h) =>
      h in s.tokens && s.active > 0 &&
      s' == s.(active := s.active - 1, tokens := s.tokens - {h}, notified := s.notified || s.active == 1)
    case Began => s.pc.Serving? && s' == s.(pc := ToListen, initial := s.active)
    case Listened => s.pc.ToListen? && s' == s.(pc := ToCheck, notified := false, rounds := s.rounds + 1)
    case Checked => s.pc.ToCheck? && s' == s.(pc := if s.active == 0 then ToReport(true) else ToDeadline)
    case Continued(expired) => s.pc.ToDeadline? && s' == s.(pc := if expired then ToReport(false) else Awaiting)
    case Woke => s.pc.Awaiting? && s.notified && s' == s.(pc := ToListen)
    case TimedOut => s.pc.Awaiting? && s' == s.(pc := ToReport(false))
    case Ended =>
      && s.pc.ToReport?
      && s' == s.(pc := Reported(Stats(if s.active <= s.initial then s.initial - s.active else 0, s.pc.complete)))
  }

  /** Step `i` of a run. */
  ghost predicate StepAt(states: seq<State>, events: seq<Event>, i: int)
    requires 0 <= i < |events| < |states|
  {
    Next(states[i], events[i], states[i + 1])
  }

  ghost predicate IsRun(states: seq<State>, events: seq<Event>) {
    && |states| == |events| + 1
    && states[0] == START
    && forall i | 0 <= i < |events| :: StepAt(states, events, i)
  }

  // ----- invariant ---------------------------------------------------------

  ghost predicate Inv(s: State) {
    && s.active == |s.tokens|
    && (!s.pc.Serving? ==> s.active <= s.initial)
    && (s.pc.Serving? ==> s.rounds == 0)
    // no lost zero crossing
    && (s.pc.ToDeadline? || s.pc.Awaiting? ==> (s.notified <==> s.active == 0))
    && (s.pc.ToCheck? && s.notified ==> s.active == 0)
    // a second turn finds the counter at zero
    && (s.pc.ToListen? ==> s.rounds <= 1 && (s.rounds == 1 ==> s.active == 0))
    && (s.pc.ToCheck? ==> 1 <= s.rounds <= 2 && (s.rounds == 2 ==> s.active == 0))
    && (s.pc.ToDeadline? || s.pc.Awaiting? ==> s.rounds == 1)
    && (s.pc.ToReport? || s.pc.Reported? ==> 1 <= s.rounds <= 2)
    && (s.pc.ToReport? && s.pc.complete ==> s.active == 0)
  }

  lemma DropOne(tokens: set<nat>, h: nat)
    requires h in tokens
    ensures |tokens - {h}| == |tokens| - 1
  {}

  lemma {:induction false} RunKeeps(states: seq<State>, events: seq<Event>, j: nat)
    requires IsRun(states, events) && j < |states|
    ensures Inv(states[j])
  {
    if j > 0 {
      RunKeeps(states, events, j - 1);
      assert StepAt(states, events, j - 1);
      if events[j - 1].Finished? {
        DropOne(states[j - 1].tokens, events[j - 1].h);
      }
    }
  }

  // ----- results -----------------------------------------------------------

  /** In every reachable state the counter is the number of live tokens, the drain's loop has turned
      at most twice, and a drain waiting on a counter at zero has been notified. */
  lemma CounterAndNotification(states: seq<State>, events: seq<Event>, j: nat)
    requires IsRun(states, events) && j < |states|
    ensures states[j].active == |states[j].tokens|
    ensures states[j].rounds <= 2
    ensures states[j].pc.Awaiting? && states[j].tokens == {} ==> states[j].notified
  {
    RunKeeps(states, events, j);
  }

  /** Handlers that finished between step `i` and step `j`. */
  function FinishedBetween(events: seq<Event>, i: nat, j: nat): nat
    requires i <= j <= |events|
  {
    if i == j then 0 else FinishedBetween(events, i, j - 1) + if events[j - 1].Finished? then 1 else 0
  }

  lemma {:induction false} DrainCounts(states: seq<State>, events: seq<Event>, b: nat, j: nat)
    requires IsRun(states, events) && b < j <= |events| && events[b].Began?
    ensures !states[j].pc.Serving? && states[j].initial == states[b].active
    ensures states[b].active == states[j].active + FinishedBetween(events, b, j)
    decreases j
  {
    assert StepAt(states, events, j - 1);
    if j - 1 > b {
      DrainCounts(states, events, b, j - 1);
    } else {
      assert FinishedBetween(events, b, b) == 0;
    }
  }

  /** What a drain reports is the number of handlers that finished while it ran; a complete drain
      left none and reports every handler that was there when it began. */
  lemma ReportIsExact(states: seq<State>, events: seq<Event>, b: nat, j: nat)
    requires IsRun(states, events) && b < j < |events| && events[b].Began? && events[j].Ended?
    ensures states[j + 1].pc.Reported?
    ensures states[j + 1].pc.stats.drained == FinishedBetween(events, b, j)
    ensures states[j + 1].pc.stats.complete ==> states[j].tokens == {} && states[j + 1].pc.stats.drained == states[b].active
  {
    RunKeeps(states, events, j);
    DrainCounts(states, events, b, j);
    assert StepAt(states, events, j);
  }

  /** Steps the drain itself may still take. */
  function Rank(s: State): nat {
    match s.pc
    case Serving => 11
    case ToListen => if s.rounds == 0 then 10 else 4
    case ToCheck => if s.rounds == 1 then 9 else 3
    case ToDeadline => 8
    case Awaiting => 7
    case ToReport(_) => 1
    case Reported(_) => 0
  }

  /** The drain can take a step of its own. */
  ghost predicate CanStep(s: State) {
    exists e: Event, s': State :: !e.Spawned? && !e.Finished? && Next(s, e, s')
  }

  lemma NeverStuck(s: State)
    requires !s.pc.Reported?
    ensures CanStep(s)
  {
    match s.pc
    case Serving => assert Next(s, Began, s.(pc := ToListen, initial := s.active));
    case ToListen => assert Next(s, Listened, s.(pc := ToCheck, notified := false, rounds := s.rounds + 1));
    case ToCheck => assert Next(s, Checked, s.(pc := if s.active == 0 then ToReport(true) else ToDeadline));
    case ToDeadline => assert Next(s, Continued(true), s.(pc := ToReport(false)));
    case Awaiting => assert Next(s, TimedOut, s.(pc := ToReport(false)));
    case ToReport(complete) =>
      var drained := if s.active <= s.initial then s.initial - s.active else 0;
      assert Next(s, Ended, s.(pc := Reported(Stats(drained, complete))));
  }

  /** Every step of the drain lowers the rank and no handler raises it, so a drain takes at most ten
      steps after it begins; until it has reported it can always take one; and once the handlers are
      done it needs no timer. */
  lemma DrainEnds(states: seq<State>, events: seq<Event>, j: nat)
    requires IsRun(states, events) && j < |events|
    ensures Rank(states[j + 1]) <= Rank(states[j])
    ensures !events[j].Spawned? && !events[j].Finished? ==> Rank(states[j + 1]) < Rank(states[j])
    ensures !states[j].pc.Reported? ==> CanStep(states[j])
    ensures states[j].tokens == {} && states[j].pc.Awaiting? ==> Next(states[j], Woke, states[j].(pc := ToListen))
  {
    RunKeeps(states, events, j);
    assert StepAt(states, events, j);
    if !states[j].pc.Reported? {
      NeverStuck(states[j]);
    }
  }

  // ----- the code ----------------------------------------------------------

  /** What happens while the drain awaits: some handlers finish, then the notification, if there is
      one, is seen, or the timer is. */
  datatype Pause = Pause(elapsed: nat, finish: nat, timerFirst: bool)

  class ConnectionTracker {
    var active: nat
    var notified: bool

    constructor ()
      ensures active == 0
    {
      active, notified := 0, false;
    }

    method DropToken()
      requires active > 0
      modifies this
      ensures active == old(active) - 1 && notified == (old(notified) || active == 0)
    {
      active := active - 1;
      if active == 0 {
        notified := true;
      }
    }

    method Run(finish: nat)
      requires finish <= active
      modifies this
      ensures active == old(active) - finish && notified == (old(notified) || (finish > 0 && active == 0))
    {
      var i := 0;
      while i < finish
        invariant 0 <= i <= finish && active == old(active) - i
        invariant notified == (old(notified) || (i > 0 && active == 0))
      {
        DropToken();
        i := i + 1;
      }
    }

    /** `drain`: its loop ends within two turns whatever happens during the waits, and it is complete
        exactly when the handlers were gone at a check. */
    method Drain(deadline: nat, pause: nat -> Pause) returns (stats: Stats, ghost rounds: nat)
      modifies this
      ensures 1 <= rounds <= 2
      ensures stats.drained == old(active) - active
      ensures stats.complete ==> active == 0 && stats.drained == old(active)
      ensures stats.complete <==>
                || old(active) == 0
                || (pause(0).elapsed < deadline && pause(0).finish >= old(active) && !pause(0).timerFirst)
    {
      var initial := active;
      var complete := false;
      var i := 0;
      while true
        invariant 0 <= i <= 1 && active <= initial == old(active)
        invariant i == 0 ==> active == initial
        invariant i == 1 ==> active == 0 && initial > 0 && pause(0).elapsed < deadline && pause(0).finish >= initial && !pause(0).timerFirst
        decreases 1 - i
      {
        notified := false;
        if active == 0 {
          complete := true;
          break;
        }
        var p := pause(i);
        if p.elapsed >= deadline {
          break;
        }
        Run(if p.finish <= active then p.finish else active);
        if !notified || p.timerFirst {
          break;
        }
        i := i + 1;
      }
      rounds := i + 1;
      stats := Stats(if active <= initial then initial - active else 0, complete);
    }
  }
}
