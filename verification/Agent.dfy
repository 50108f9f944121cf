/** The signing actor (src/providers/agent_backend.rs): callers queue jobs, one thread runs them over a
    datagram socket one at a time, and the agent at the other end (`serve_loop`,
    src/providers/agent.rs) answers. Callers may drop their reply slot at any moment and the agent
    may die at any moment. */
module Agent {
  import opened Prelude
  import opened AgentProtocol

  /** `TooLarge`: the request does not fit a datagram and was never queued. */
  datatype Failure = Io | BackendDead | TooLarge

  type Outcome = Result<Bytes, Failure>

  // ----- the two loops -----------------------------------------------------

  /** What the socket does for one round trip. A zero-length datagram reads as end of file. */
  datatype Trip = SendFails | RecvFails | Arrives(datagram: Bytes)

  /** A datagram as a receiver with a MAX_MESSAGE buffer sees it. */
  function Received(d: Bytes): Bytes {
    if |d| > MAX_MESSAGE then d[..MAX_MESSAGE] else d
  }

  function Ending(t: Trip): Outcome {
    match t
    case SendFails => Err(Io)
    case RecvFails => Err(Io)
    case Arrives(d) => if d == [] then Err(BackendDead) else Ok(Received(d))
  }

  method Recv(t: Trip, buf: array<byte>) returns (n: Option<nat>)
    requires buf.Length == MAX_MESSAGE && !t.SendFails?
    modifies buf
    ensures n == if t.RecvFails? then None else Some(|Received(t.datagram)|)
    ensures n.Some? ==> buf[..n.value] == Received(t.datagram)
  {
    if t.RecvFails? {
      return None;
    }
    var d := Received(t.datagram);
    var i := 0;
    while i < |d|
      invariant 0 <= i <= |d| && buf[..i] == d[..i]
    {
      buf[i] := d[i];
      i := i + 1;
    }
    return Some(|d|);
  }

  /** One blocking round trip. The buffer is shared by every trip; nothing of an earlier datagram
      shows in the result. */
  method RoundTrip(t: Trip, buf: array<byte>) returns (outcome: Outcome)
    requires buf.Length == MAX_MESSAGE
    modifies buf
    ensures outcome == Ending(t)
  {
    if t.SendFails? {
      return Err(Io);
    }
    var n := Recv(t, buf);
    if n.None? {
      return Err(Io);
    }
    if n.value == 0 {
      return Err(BackendDead);
    }
    return Ok(buf[..n.value]);
  }

  /** The actor loop over the jobs it is given: each is answered by its own trip up to and including
      the first that fails; after that the loop has ended and the rest find it gone. */
  method RunJobs(trips: seq<Trip>) returns (outcomes: seq<Outcome>)
    ensures |outcomes| == |trips|
    ensures forall i | 0 <= i < |trips| ::
              outcomes[i] == if forall k | 0 <= k < i :: Ending(trips[k]).Ok? then Ending(trips[i]) else Err(BackendDead)
  {
    var buf := new byte[MAX_MESSAGE](_ => 0);
    outcomes := [];
    while |outcomes| < |trips|
      invariant |outcomes| <= |trips|
      invariant forall i | 0 <= i < |outcomes| :: outcomes[i] == Ending(trips[i]) && outcomes[i].Ok?
    {
      var i := |outcomes|;
      var outcome := RoundTrip(trips[i], buf);
      outcomes := outcomes + [outcome];
      if outcome.Err? {
        outcomes := outcomes + seq(|trips| - i - 1, _ => Err(BackendDead));
        return;
      }
    }
  }

  /** The agent's answer to one datagram; none when it would not fit and the agent gives up. */
  function Answer(w: World, datagram: Bytes): Option<Bytes> {
    var bytes := w.responseBytes(Handle(w, datagram));
    if |bytes| > MAX_MESSAGE then None else Some(bytes)
  }

  /** What the agent's `recv` does: interrupted, failed, or a datagram (empty at end of file); and whether
      the answer to it can be sent. */
  datatype Arrival = Interrupted | Fault | Datagram(bytes: Bytes, sends: bool)

  /** Where the agent leaves its loop: a fault, end of file, or an answer that does not fit or cannot be
      sent. */
  predicate Stops(w: World, a: Arrival) {
    a.Fault? || (a.Datagram? && (a.bytes == [] || Answer(w, Received(a.bytes)).None? || !a.sends))
  }

  /** The first arrival that ends the loop, or the end of the arrivals. */
  function StopAt(w: World, arrivals: seq<Arrival>): (n: nat)
    ensures n <= |arrivals| && (n < |arrivals| ==> Stops(w, arrivals[n]))
    ensures forall i | 0 <= i < n :: !Stops(w, arrivals[i])
  {
    if arrivals == [] || Stops(w, arrivals[0]) then 0 else 1 + StopAt(w, arrivals[1..])
  }

  /** The datagrams among the arrivals, in order. */
  function Datagrams(arrivals: seq<Arrival>): seq<Bytes> {
    if arrivals == [] then []
    else
      Datagrams(arrivals[..|arrivals| - 1]) +
      if arrivals[|arrivals| - 1].Datagram? then [arrivals[|arrivals| - 1].bytes] else []
  }

  lemma StopIs(w: World, arrivals: seq<Arrival>, n: nat)
    requires n <= |arrivals| && (n < |arrivals| ==> Stops(w, arrivals[n])) && forall i | 0 <= i < n :: !Stops(w, arrivals[i])
    ensures StopAt(w, arrivals) == n
  {}

  /** The agent's loop: one datagram sent for each received before the stop, in order, each the answer to
      its own. */
  method ServeLoop(w: World, arrivals: seq<Arrival>) returns (sent: seq<Bytes>)
    ensures var got := Datagrams(arrivals[..StopAt(w, arrivals)]);
            |sent| == |got| && forall k | 0 <= k < |got| :: Answer(w, Received(got[k])) == Some(sent[k])
  {
    sent := [];
    var n := 0;
    while n < |arrivals|
      invariant n <= |arrivals| && forall i | 0 <= i < n :: !Stops(w, arrivals[i])
      invariant |sent| == |Datagrams(arrivals[..n])|
      invariant forall k | 0 <= k < |sent| :: Answer(w, Received(Datagrams(arrivals[..n])[k])) == Some(sent[k])
    {
      var a := arrivals[n];
      if a.Fault? || (a.Datagram? && a.bytes == []) {
        break;
      }
      if a.Datagram? {
        var reply := Answer(w, Received(a.bytes));
        if reply.None? || !a.sends {
          break;
        }
        sent := sent + [reply.value];
      }
      assert arrivals[..n + 1][..n] == arrivals[..n];
      n := n + 1;
    }
    StopIs(w, arrivals, n);
  }

  // ----- state -------------------------------------------------------------

  datatype Actor = Idle | Sending(job: nat) | Awaiting(job: nat) | Exiting | Exited

  datatype Peer = Listening | Handling(datagram: Bytes) | Gone

  /** `outcomes`: what each caller's await yields. `open`: the handle still holds its sender. */
  datatype State = State(
    requests: map<nat, Request>, queue: seq<nat>, abandoned: set<nat>, outcomes: map<nat, Outcome>,
    actor: Actor, toAgent: seq<Bytes>, toDaemon: seq<Bytes>, agent: Peer, open: bool)

  const START := State(map[], [], {}, map[], Idle, [], [], Listening, true)

  datatype Event =
    | Submitted(job: nat, request: Request)
    | Abandoned(job: nat)
    | Closed
    | Taken
    | Sent
    | Replied(job: nat, trip: Trip)
    | Left
    | AgentTook
    | AgentAnswered
    | AgentDied

  /** A reply for a job whose slot was dropped goes nowhere. */
  function Deliver(s: State, job: nat, outcome: Outcome): State {
    s.(outcomes := if job in s.abandoned then s.outcomes else s.outcomes[job := outcome],
       actor := if outcome.Ok? then Idle else Exiting)
  }

  /** The thread ends and the queue with it: every caller still waiting finds its sender gone. */
  function Leave(s: State): State {
    s.(actor := Exited, queue := [],
       outcomes := map j | j in s.outcomes.Keys + (set j | j in s.queue && j !in s.abandoned) ::
         if j in s.outcomes then s.outcomes[j] else Err(BackendDead))
  }

  ghost predicate Next(w: World, s: State, e: Event, s': State) {
    match e
    case Submitted(j, r) =>
      && j !in s.requests
      && var s1 := s.(requests := s.requests[j := r]);
         s' == if |w.requestBytes(r)| > MAX_MESSAGE then s1.(outcomes := s.outcomes[j := Err(TooLarge)])
               else if s.open && s.actor != Exited then s1.(queue := s.queue + [j])
               else s1.(outcomes := s.outcomes[j := Err(BackendDead)])
    case Abandoned(j) => j in s.requests && j !in s.outcomes && s' == s.(abandoned := s.abandoned + {j})
    case Closed => s' == s.(open := false)
    case Taken => s.actor.Idle? && s.queue != [] && s' == s.(actor := Sending(s.queue[0]), queue := s.queue[1..])
    case Sent =>
      && s.actor.Sending? && s.actor.job in s.requests
      && s' == s.(actor := Awaiting(s.actor.job), toAgent := s.toAgent + [w.requestBytes(s.requests[s.actor.job])])
    case Replied(j, trip) => Ends(s, j, trip, s')
    case Left =>
      && (s.actor.Exiting? || (s.actor.Idle? && !s.open && s.queue == []))
      && s' == Leave(s)
    case AgentTook =>
      && s.agent.Listening? && s.toAgent != []
      && s' == s.(toAgent := s.toAgent[1..],
                  agent := if s.toAgent[0] == [] then Gone else Handling(Received(s.toAgent[0])))
    case AgentAnswered =>
      && s.agent.Handling?
      && var reply := Answer(w, s.agent.datagram);
         s' == if reply.None? then s.(agent := Gone)
               else s.(agent := Listening, toDaemon := s.toDaemon + [reply.value])
    case AgentDied => s' == s.(agent := Gone)
  }

  /** What the socket may do for job `j` now: fail, end the file, or hand over the next datagram. */
  predicate Possible(s: State, j: nat, trip: Trip) {
    match trip
    case SendFails => s.actor == Sending(j)
    case RecvFails => s.actor == Awaiting(j)
    case Arrives(d) => s.actor == Awaiting(j) && (if s.toDaemon == [] then s.agent.Gone? && d == [] else d == s.toDaemon[0])
  }

  /** The end of a round trip. */
  ghost predicate Ends(s: State, j: nat, trip: Trip, s': State) {
    && Possible(s, j, trip)
    && var s1 := Deliver(s, j, Ending(trip));
       s' == if trip.Arrives? && s.toDaemon != [] then s1.(toDaemon := s.toDaemon[1..]) else s1
  }

  /** Step `i` of a run. */
  ghost predicate StepAt(w: World, states: seq<State>, events: seq<Event>, i: int)
    requires 0 <= i < |events| < |states|
  {
    Next(w, states[i], events[i], states[i + 1])
  }

  ghost predicate IsRun(w: World, states: seq<State>, events: seq<Event>) {
    && |states| == |events| + 1
    && states[0] == START
    && forall i | 0 <= i < |events| :: StepAt(w, states, events, i)
  }

  // ----- invariant ---------------------------------------------------------

  function Reply(w: World, r: Request): Bytes {
    w.responseBytes(Handle(w, w.requestBytes(r)))
  }

  /** While the actor waits for job `j`, exactly one message is under way, and it is the request of
      `j` or the agent's answer to it; the rest of the time the wire is empty. */
  ghost predicate Paired(w: World, s: State) {
    match s.actor
    case Idle => s.toAgent == [] && s.toDaemon == [] && !s.agent.Handling?
    case Sending(_) => s.toAgent == [] && s.toDaemon == [] && !s.agent.Handling?
    case Awaiting(j) =>
      && j in s.requests
      && var r := s.requests[j];
         || (s.toAgent == [w.requestBytes(r)] && s.toDaemon == [] && !s.agent.Handling?)
         || (s.toAgent == [] && s.toDaemon == [] && (s.agent == Handling(w.requestBytes(r)) || s.agent.Gone?))
         || (s.toAgent == [] && s.toDaemon == [Reply(w, r)] && |Reply(w, r)| <= MAX_MESSAGE && !s.agent.Handling?)
    case Exiting => true
    case Exited => true
  }

  /** The job the actor holds, then those queued. */
  function Pending(s: State): seq<nat> {
    (if s.actor.Sending? || s.actor.Awaiting? then [s.actor.job] else []) + s.queue
  }

  ghost predicate Accounted(s: State) {
    && (forall i, k | 0 <= i < k < |Pending(s)| :: Pending(s)[i] != Pending(s)[k])
    && (forall j | j in Pending(s) :: j in s.requests && j !in s.outcomes)
    && (forall j | j in s.requests :: j in Pending(s) || j in s.outcomes || j in s.abandoned)
    && s.outcomes.Keys <= s.requests.Keys
    && (s.actor.Exited? ==> s.queue == [])
  }

  ghost predicate Honest(w: World, s: State) {
    forall j | j in s.outcomes && s.outcomes[j].Ok? :: j in s.requests && s.outcomes[j] == Ok(Reply(w, s.requests[j]))
  }

  /** The requests refused for their size are exactly those that do not fit. */
  ghost predicate Fits(w: World, s: State) {
    forall j | j in s.requests ::
      |w.requestBytes(s.requests[j])| > MAX_MESSAGE <==> j in s.outcomes && s.outcomes[j] == Err(TooLarge)
  }

  ghost predicate Inv(w: World, s: State) {
    Paired(w, s) && Accounted(s) && Honest(w, s) && Fits(w, s)
  }

  ghost predicate Failed(s: State) {
    s.actor.Exiting? || s.actor.Exited?
  }

  lemma ReplyPaired(w: World, s: State, j: nat, trip: Trip, s': State)
    requires Lawful(w) && Paired(w, s) && Ends(s, j, trip, s')
    ensures Paired(w, s')
    ensures Ending(trip).Ok? ==> j in s.requests && Ending(trip) == Ok(Reply(w, s.requests[j]))
  {}

  lemma ReplyAccounted(s: State, j: nat, outcome: Outcome)
    requires Accounted(s) && Pending(s) != [] && Pending(s)[0] == j && s.actor != Idle && !Failed(s)
    ensures Accounted(Deliver(s, j, outcome)) && j in s.requests && j !in s.outcomes
  {
    var s' := Deliver(s, j, outcome);
    assert Pending(s) == [j] + Pending(s');
    assert forall i | 0 <= i < |Pending(s')| :: Pending(s')[i] == Pending(s)[i + 1];
  }

  lemma ReplyKeeps(w: World, s: State, j: nat, trip: Trip, s': State)
    requires Lawful(w) && Inv(w, s) && Ends(s, j, trip, s')
    ensures Inv(w, s') && j in s.requests && j !in s.outcomes
    ensures Ending(trip).Ok? ==> Ending(trip) == Ok(Reply(w, s.requests[j]))
  {
    ReplyPaired(w, s, j, trip, s');
    ReplyAccounted(s, j, Ending(trip));
    assert Pending(s') == Pending(Deliver(s, j, Ending(trip)));
  }

  lemma AgentKeeps(w: World, s: State, e: Event, s': State)
    requires Lawful(w) && Inv(w, s) && Next(w, s, e, s') && (e.AgentTook? || e.AgentAnswered? || e.AgentDied?)
    ensures Inv(w, s')
  {
    assert Pending(s') == Pending(s);
  }

  lemma ActorKeeps(w: World, s: State, e: Event, s': State)
    requires Lawful(w) && Inv(w, s) && Next(w, s, e, s') && (e.Taken? || e.Sent?)
    ensures Inv(w, s')
  {
    assert Pending(s') == Pending(s);
  }

  lemma LeaveKeeps(w: World, s: State)
    requires Inv(w, s) && (s.actor.Exiting? || s.actor.Idle?)
    ensures Inv(w, Leave(s))
  {}

  lemma SubmitAccounted(s: State, j: nat, r: Request)
    requires Accounted(s) && j !in s.requests
    ensures !s.actor.Exited? ==> Accounted(s.(requests := s.requests[j := r], queue := s.queue + [j]))
    ensures forall f :: Accounted(s.(requests := s.requests[j := r], outcomes := s.outcomes[j := Err(f)]))
  {
    var s' := s.(requests := s.requests[j := r], queue := s.queue + [j]);
    assert Pending(s') == Pending(s) + [j];
    assert j !in Pending(s);
    forall f ensures Accounted(s.(requests := s.requests[j := r], outcomes := s.outcomes[j := Err(f)])) {
      assert Pending(s.(requests := s.requests[j := r], outcomes := s.outcomes[j := Err(f)])) == Pending(s);
    }
  }

  lemma SubmitKeeps(w: World, s: State, j: nat, r: Request, s': State)
    requires Inv(w, s) && Next(w, s, Submitted(j, r), s')
    ensures Inv(w, s')
  {
    SubmitAccounted(s, j, r);
    assert s'.requests == s.requests[j := r];
    assert Paired(w, s');
  }

  lemma CallerKeeps(w: World, s: State, e: Event, s': State)
    requires Inv(w, s) && Next(w, s, e, s') && (e.Abandoned? || e.Closed?)
    ensures Inv(w, s')
  {}

  lemma StepKeeps(w: World, s: State, e: Event, s': State)
    requires Lawful(w) && Inv(w, s) && Next(w, s, e, s')
    ensures Inv(w, s')
  {
    if e.Replied? {
      ReplyKeeps(w, s, e.job, e.trip, s');
    } else if e.AgentTook? || e.AgentAnswered? || e.AgentDied? {
      AgentKeeps(w, s, e, s');
    } else if e.Taken? || e.Sent? {
      ActorKeeps(w, s, e, s');
    } else if e.Left? {
      LeaveKeeps(w, s);
    } else if e.Submitted? {
      SubmitKeeps(w, s, e.job, e.request, s');
    } else {
      CallerKeeps(w, s, e, s');
    }
  }

  lemma {:induction false} RunKeeps(w: World, states: seq<State>, events: seq<Event>, i: nat)
    requires Lawful(w) && IsRun(w, states, events) && i < |states|
    ensures Inv(w, states[i])
  {
    if i > 0 {
      RunKeeps(w, states, events, i - 1);
      assert StepAt(w, states, events, i - 1);
      StepKeeps(w, states[i - 1], events[i - 1], states[i]);
    }
  }

  // ----- results -----------------------------------------------------------

  /** Pairing: whatever was abandoned and whenever, a reply delivered for a job is the agent's answer
      to that job's own request. */
  lemma RepliesArePaired(w: World, states: seq<State>, events: seq<Event>, i: nat, j: nat)
    requires Lawful(w) && IsRun(w, states, events) && i < |states|
    requires j in states[i].outcomes && states[i].outcomes[j].Ok?
    ensures j in states[i].requests && states[i].outcomes[j] == Ok(Reply(w, states[i].requests[j]))
  {
    RunKeeps(w, states, events, i);
  }

  lemma OutcomeStaysAt(w: World, states: seq<State>, events: seq<Event>, i: nat, j: nat)
    requires Lawful(w) && IsRun(w, states, events) && i < |events| && j in states[i].outcomes
    ensures j in states[i + 1].outcomes && states[i + 1].outcomes[j] == states[i].outcomes[j]
  {
    RunKeeps(w, states, events, i);
    assert StepAt(w, states, events, i);
    OutcomeStays(w, states[i], events[i], states[i + 1], j);
  }

  /** One outcome per job: it never changes once there. */
  lemma {:induction false} OneOutcome(w: World, states: seq<State>, events: seq<Event>, i: nat, k: nat, j: nat)
    requires Lawful(w) && IsRun(w, states, events) && i <= k < |states| && j in states[i].outcomes
    ensures j in states[k].outcomes && states[k].outcomes[j] == states[i].outcomes[j]
    decreases k
  {
    if i < k {
      OneOutcome(w, states, events, i, k - 1, j);
      OutcomeStaysAt(w, states, events, k - 1, j);
    }
  }

  /** No round trip ends for a job that already has its outcome. */
  lemma NoSecondReply(w: World, states: seq<State>, events: seq<Event>, i: nat)
    requires Lawful(w) && IsRun(w, states, events) && i < |events| && events[i].Replied?
    ensures events[i].job in states[i].requests && events[i].job !in states[i].outcomes
  {
    RunKeeps(w, states, events, i);
    assert StepAt(w, states, events, i);
    ReplyKeeps(w, states[i], events[i].job, events[i].trip, states[i + 1]);
  }

  lemma OutcomeStays(w: World, s: State, e: Event, s': State, j: nat)
    requires Lawful(w) && Inv(w, s) && Next(w, s, e, s') && j in s.outcomes
    ensures j in s'.outcomes && s'.outcomes[j] == s.outcomes[j]
  {
    if e.Replied? {
      ReplyKeeps(w, s, e.job, e.trip, s');
    }
  }

  /** Every Ok outcome of `s'` was there in `s`. */
  ghost predicate NoNewOk(s: State, s': State) {
    forall j | j in s'.outcomes && s'.outcomes[j].Ok? :: j in s.outcomes && s.outcomes[j] == s'.outcomes[j]
  }

  lemma FailedStep(w: World, s: State, e: Event, s': State)
    requires Next(w, s, e, s') && (Failed(s) || (e.Replied? && Ending(e.trip).Err?))
    ensures Failed(s') && NoNewOk(s, s') && (Failed(s) ==> !e.Replied?)
  {}

  lemma FailedStepAt(w: World, states: seq<State>, events: seq<Event>, i: nat)
    requires IsRun(w, states, events) && i < |events|
    requires Failed(states[i]) || (events[i].Replied? && Ending(events[i].trip).Err?)
    ensures Failed(states[i + 1]) && NoNewOk(states[i], states[i + 1]) && (Failed(states[i]) ==> !events[i].Replied?)
  {
    assert StepAt(w, states, events, i);
    FailedStep(w, states[i], events[i], states[i + 1]);
  }

  lemma {:induction false} StaysFailed(w: World, states: seq<State>, events: seq<Event>, i: nat, k: nat)
    requires IsRun(w, states, events) && i < k < |states|
    requires events[i].Replied? && Ending(events[i].trip).Err?
    ensures Failed(states[k]) && NoNewOk(states[i], states[k])
    decreases k
  {
    if k - 1 > i {
      StaysFailed(w, states, events, i, k - 1);
    }
    FailedStepAt(w, states, events, k - 1);
  }

  /** Fail-stop: after the first failed round trip no round trip ends again, so no job that had no
      outcome then ever gets Ok. */
  lemma NothingAfterFailure(w: World, states: seq<State>, events: seq<Event>, i: nat, k: nat)
    requires IsRun(w, states, events) && i < k < |states|
    requires events[i].Replied? && Ending(events[i].trip).Err?
    ensures Failed(states[k]) && NoNewOk(states[i], states[k])
    ensures k < |events| ==> !events[k].Replied?
  {
    StaysFailed(w, states, events, i, k);
    if k < |events| {
      FailedStepAt(w, states, events, k);
    }
  }

  /** Nobody is forgotten: once the thread has gone, every job still wanted has an outcome. */
  lemma NobodyForgotten(w: World, states: seq<State>, events: seq<Event>, i: nat, j: nat)
    requires Lawful(w) && IsRun(w, states, events) && i < |states|
    requires states[i].actor.Exited? && j in states[i].requests
    ensures j in states[i].outcomes || j in states[i].abandoned
  {
    RunKeeps(w, states, events, i);
    assert Pending(states[i]) == [];
  }

  // ----- the caller's view -------------------------------------------------

  /** `Oversized` is the protocol error for a request too large to send. */
  datatype SignError = Dead(failure: Failure) | Oversized | Protocol(reason: Bytes) | Rejected(message: Bytes) | Unexpected

  /** What `sign` makes of its job's outcome. */
  function SignResult(w: World, outcome: Outcome): Result<Bytes, SignError> {
    match outcome
    case Err(f) => Err(if f == TooLarge then Oversized else Dead(f))
    case Ok(bytes) =>
      match w.responseOf(bytes)
      case Err(e) => Err(Protocol(e))
      case Ok(Jwt(token)) => Ok(token)
      case Ok(Error(m)) => Err(Rejected(m))
      case Ok(Pong) => Err(Unexpected)
  }

  /** End to end: `sign(claims)` yields the key's own signature of those claims, or the key's own
      refusal capped, or reports the backend dead, or, for exactly the claims that do not fit a
      datagram, says so. Nothing else, in any run. */
  lemma SignIsTheKeys(w: World, states: seq<State>, events: seq<Event>, i: nat, j: nat)
    requires Lawful(w) && IsRun(w, states, events) && i < |states|
    requires j in states[i].requests && states[i].requests[j].SignJwt? && j in states[i].outcomes
    ensures var claims := states[i].requests[j].claims;
            var r := SignResult(w, states[i].outcomes[j]);
            || (r.Ok? && w.sign(claims) == Ok(r.value))
            || (r.Err? && w.sign(claims).Err? && r.error == Rejected(Cap(SIGN_PREFIX + w.sign(claims).error)))
            || (r.Err? && r.error.Dead?)
            || r == Err(Oversized)
    ensures SignResult(w, states[i].outcomes[j]) == Err(Oversized) <==> |w.requestBytes(states[i].requests[j])| > MAX_MESSAGE
  {
    RunKeeps(w, states, events, i);
  }
}
