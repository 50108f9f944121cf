/** The broker running (src/daemon.rs): any number of connections, turn by turn, interleaved with the
    registry's steps. A connection reads the tables once, when it looks its peer up, and its timeout
    may drop it in the middle of any turn. */
module BrokerRun {
  import opened Prelude
  import opened Identities
  import opened Noise
  import opened Transport
  import R = Registry
  import RegistrySafety
  import opened Connection
  import ConnectionSafety
  import SessionRun
  import SessionScript
  import SessionCorrect
  import RegistryLimits
  import Broker
  import Git = GitCredential

  /** One connection: its surroundings, the broker key and the peer's bytes; where its loop stands; and
      what it has done. `env.tables` are those it met at its lookup, once that has happened. */
  datatype Conn = Conn(env: Env, s: Secret, input: Wire, st: RState, rest: Wire, client: Option<Identity>, w: nat, trace: Trace)

  /** Connections are numbered as they are opened. */
  datatype State = State(registry: R.State, conns: map<nat, Conn>, count: nat)

  datatype Event =
    | Changed(e: R.Event)                              // a step of the registry
    | Opened(k: nat, env: Env, s: Secret, input: Wire)
    | Stepped(k: nat, did: Trace)                      // a turn of a connection's loop
    | TimedOut(k: nat, did: Trace)                     // dropped when a turn had got this far

  function EnvNow(s: State, c: Conn): Env {
    if c.st.RNeedPsk? then c.env.(tables := s.registry.tables) else c.env
  }

  function TurnOf(s: State, c: Conn): (Trace, After) {
    Turned(EnvNow(s, c), c.st, c.rest, c.client, c.w)
  }

  function Moved(s: State, c: Conn): Option<Conn> {
    var (did, after) := TurnOf(s, c);
    match after
    case Over => None
    case On(st, rest, client, w) => Some(Conn(EnvNow(s, c), c.s, c.input, st, rest, client, w, c.trace + did))
  }

  function NewConn(env: Env, s: Secret, input: Wire): Conn {
    Conn(env, s, input, RWantHsLen(ResponderNew(s)), input, None, 0, [])
  }

  ghost predicate Next(s: State, e: Event, s': State)
  {
    match e
    case Changed(e) =>
      && R.Next(s.registry, e, s'.registry) && s'.count == s.count
      && s'.conns == if e.Kill? || e.PowerLoss? then map[] else s.conns
    case Opened(k, env, key, input) =>
      k == s.count && s' == s.(conns := s.conns[k := NewConn(env, key, input)], count := k + 1)
    case Stepped(k, did) =>
      && k in s.conns && did == TurnOf(s, s.conns[k]).0
      && s' == s.(conns := match Moved(s, s.conns[k]) case None => s.conns - {k} case Some(c) => s.conns[k := c])
    case TimedOut(k, did) =>
      k in s.conns && did <= TurnOf(s, s.conns[k]).0 && s' == s.(conns := s.conns - {k})
  }

  /** Step `i` of a run. */
  ghost predicate StepAt(states: seq<State>, events: seq<Event>, i: int)
    requires 0 <= i < |events| < |states|
  {
    Next(states[i], events[i], states[i + 1])
  }

  ghost predicate IsRun(states: seq<State>, events: seq<Event>)
  {
    && |states| == |events| + 1
    && R.Init(states[0].registry) && states[0].conns == map[] && states[0].count == 0
    && forall i | 0 <= i < |events| :: StepAt(states, events, i)
  }

  /** Connection `k` does `x` in this step. */
  predicate Does(e: Event, k: nat, x: Connection.Event) {
    (e.Stepped? || e.TimedOut?) && e.k == k && x in e.did
  }

  // ----- a connection in a run is the connection on its own -----------------

  /** What it has done and what it would do from here is what it does alone, with the tables of its
      lookup: any tables while it has not looked. */
  ghost predicate RunsAs(c: Conn, t: R.Tables) {
    c.trace + Drive(c.env.(tables := t), c.st, c.rest, c.client, c.w) == Run(c.env.(tables := t), c.s, c.input)
  }

  predicate BeforeLookup(c: Conn) {
    Left(c.st) >= 11
  }

  ghost predicate Faithful(c: Conn) {
    if BeforeLookup(c) then c.client == None && forall t :: RunsAs(c, t) else RunsAs(c, c.env.tables)
  }

  /** Only the lookup reads the tables. */
  lemma TablesUnread(env: Env, st: RState, input: Wire, client: Option<Identity>, w: nat, t: R.Tables)
    requires !st.RNeedPsk?
    ensures Turned(env.(tables := t), st, input, client, w) == Turned(env, st, input, client, w)
  {}

  lemma MovedRunsAs(s: State, c: Conn, t: R.Tables)
    requires RunsAs(c, t) && Moved(s, c).Some? && (c.st.RNeedPsk? ==> t == s.registry.tables)
    ensures RunsAs(Moved(s, c).value, t)
  {
    var c', env := Moved(s, c).value, c.env.(tables := t);
    if !c.st.RNeedPsk? {
      TablesUnread(c.env, c.st, c.rest, c.client, c.w, t);
    }
    Broker.DriveIs(env, c.st, c.rest, c.client, c.w);
    Regrouped(c.trace, TurnOf(s, c).0, Drive(env, c'.st, c'.rest, c'.client, c'.w));
  }

  lemma LookupMoves(s: State, c: Conn)
    requires Moved(s, c).Some? && c.st.RNeedPsk?
    ensures !BeforeLookup(Moved(s, c).value) && Moved(s, c).value.env.tables == s.registry.tables
  {}

  lemma EarlyMoves(s: State, c: Conn)
    requires Moved(s, c).Some? && (c.st.RWantHsLen? || c.st.RWantHsBody?)
    ensures BeforeLookup(Moved(s, c).value)
  {}

  lemma ClientStays(s: State, c: Conn)
    requires Moved(s, c).Some? && !c.st.RNeedPsk?
    ensures Moved(s, c).value.client == c.client
  {}

  lemma OtherMoves(s: State, c: Conn)
    requires Moved(s, c).Some? && !c.st.RNeedPsk?
    ensures var c' := Moved(s, c).value; BeforeLookup(c') == BeforeLookup(c) && c'.client == c.client && c'.env == c.env
  {
    ClientStays(s, c);
    if BeforeLookup(c) {
      EarlyMoves(s, c);
    } else {
      assert Left(TurnOf(s, c).1.st) < Left(c.st);
    }
  }

  lemma FaithfulMoves(s: State, c: Conn)
    requires Faithful(c) && Moved(s, c).Some?
    ensures Faithful(Moved(s, c).value)
  {
    var c' := Moved(s, c).value;
    if c.st.RNeedPsk? {
      LookupMoves(s, c);
    } else {
      OtherMoves(s, c);
    }
    if BeforeLookup(c') {
      forall t ensures RunsAs(c', t) {
        MovedRunsAs(s, c, t);
      }
    } else {
      MovedRunsAs(s, c, c'.env.tables);
    }
  }

  lemma {:induction false} Numbered(states: seq<State>, events: seq<Event>, j: nat)
    requires IsRun(states, events) && j < |states|
    ensures forall k | k in states[j].conns :: k < states[j].count
  {
    if j > 0 {
      Numbered(states, events, j - 1);
      assert StepAt(states, events, j - 1);
    }
  }

  lemma {:induction false} RunFaithful(states: seq<State>, events: seq<Event>, j: nat, k: nat)
    requires IsRun(states, events) && j < |states| && k in states[j].conns
    ensures Faithful(states[j].conns[k])
  {
    if j > 0 {
      var (s, e, s') := (states[j - 1], events[j - 1], states[j]);
      assert StepAt(states, events, j - 1);
      Numbered(states, events, j - 1);
      if k in s.conns {
        RunFaithful(states, events, j - 1, k);
        if s'.conns[k] != s.conns[k] {
          FaithfulMoves(s, s.conns[k]);
        }
      }
    }
  }

  /** Whatever happens to the registry meanwhile and wherever a timeout strikes, what a connection has
      done is the beginning of what it would do alone against the tables of its lookup. */
  lemma ConnectionsRunAlone(states: seq<State>, events: seq<Event>, j: nat, k: nat)
    requires IsRun(states, events) && j < |states| && k in states[j].conns
    ensures var c := states[j].conns[k]; c.trace + TurnOf(states[j], c).0 <= Run(EnvNow(states[j], c), c.s, c.input)
  {
    RunFaithful(states, events, j, k);
    var (s, c) := (states[j], states[j].conns[k]);
    var env := EnvNow(s, c);
    assert RunsAs(c, env.tables);
    assert c.env.(tables := env.tables) == env;
    var (did, after) := TurnOf(s, c);
    assert did <= Drive(env, c.st, c.rest, c.client, c.w);
    assert c.trace + did <= c.trace + Drive(env, c.st, c.rest, c.client, c.w);
  }

  // ----- every mint has its lookup -----------------------------------------

  /** At `l` connection `k` found `id` in both tables, and `t` are the tables it met. */
  ghost predicate LookedAt(states: seq<State>, events: seq<Event>, l: int, k: nat, id: Identity, t: R.Tables) {
    && 0 <= l < |events| < |states|
    && Does(events[l], k, Looked(id, true)) && states[l].registry.tables == t && id in R.Authorised(t)
  }

  lemma LookupFinds(s: State, c: Conn, id: Identity)
    requires c.st.RNeedPsk? && Moved(s, c).Some? && Moved(s, c).value.client == Some(id)
    ensures Looked(id, true) in TurnOf(s, c).0 && id in R.Authorised(s.registry.tables)
  {
    assert TurnOf(s, c).0[0] == Looked(id, true);
  }

  lemma {:induction false} ClientsWereLookedUp(states: seq<State>, events: seq<Event>, j: nat, k: nat,
      id: Identity) returns (l: nat)
    requires IsRun(states, events) && j < |states| && k in states[j].conns && states[j].conns[k].client == Some(id)
    ensures l < j && LookedAt(states, events, l, k, id, states[j].conns[k].env.tables)
    decreases j
  {
    var (s, e, s') := (states[j - 1], events[j - 1], states[j]);
    assert StepAt(states, events, j - 1);
    var c := s.conns[k];
    if s'.conns[k] == c {
      l := ClientsWereLookedUp(states, events, j - 1, k, id);
    } else {
      if c.st.RNeedPsk? {
        LookupFinds(s, c, id);
        LookupMoves(s, c);
        l := j - 1;
      } else {
        OtherMoves(s, c);
        l := ClientsWereLookedUp(states, events, j - 1, k, id);
      }
    }
  }

  lemma MintTurn(s: State, c: Conn, id: Identity, path: Bytes)
    requires Minted(id, path) in TurnOf(s, c).0
    ensures c.client == Some(id) && !c.st.RNeedPsk?
  {}

  lemma MintIsInRun(states: seq<State>, events: seq<Event>, m: nat, k: nat, id: Identity, path: Bytes) returns (n: nat)
    requires IsRun(states, events) && m < |events| && k in states[m].conns && Minted(id, path) in TurnOf(states[m], states[m].conns[k]).0
    ensures var c := states[m].conns[k]; var t := Run(EnvNow(states[m], c), c.s, c.input); n < |t| && t[n] == Minted(id, path)
  {
    ConnectionsRunAlone(states, events, m, k);
    var c := states[m].conns[k];
    var did := TurnOf(states[m], c).0;
    var i :| 0 <= i < |did| && did[i] == Minted(id, path);
    n := |c.trace| + i;
    assert (c.trace + did)[n] == Minted(id, path);
  }

  /** Whatever the registry does meanwhile, a connection that mints for a client did, earlier and itself,
      find the client in both tables as they then were, and its peer sealed, for this connection and
      under the key those tables held, a request for that very path. */
  lemma MintHasItsLookup(states: seq<State>, events: seq<Event>, m: nat, k: nat, id: Identity, path: Bytes)
    returns (l: nat)
    requires IsRun(states, events) && m < |events| && Does(events[m], k, Minted(id, path))
    ensures k in states[m].conns && l < m
    ensures LookedAt(states, events, l, k, id, states[m].conns[k].env.tables)
    ensures var c := states[m].conns[k]; id in c.env.tables.psks && ConnectionSafety.PeerAsked(c.env, c.input, id, path)
  {
    assert StepAt(states, events, m);
    var c := states[m].conns[k];
    MintTurn(states[m], c, id, path);
    l := ClientsWereLookedUp(states, events, m, k, id);
    var n := MintIsInRun(states, events, m, k, id, path);
    ConnectionSafety.MintGate(c.env, c.s, c.input);
    assert Run(c.env, c.s, c.input)[n] == Minted(id, path);
  }

  // ----- at most one mint --------------------------------------------------

  lemma {:induction false} CountGrows(states: seq<State>, events: seq<Event>, i: nat, j: nat)
    requires IsRun(states, events) && i <= j < |states|
    ensures states[i].count <= states[j].count
    decreases j
  {
    if i < j {
      CountGrows(states, events, i, j - 1);
      assert StepAt(states, events, j - 1);
    }
  }

  lemma TraceStep(s: State, e: Event, s': State, k: nat)
    requires Next(s, e, s') && k < s.count && k in s'.conns
    ensures k in s.conns && s.conns[k].trace <= s'.conns[k].trace
    ensures forall x | Does(e, k, x) :: x in s'.conns[k].trace
  {}

  lemma DoesOpen(states: seq<State>, events: seq<Event>, m: nat, k: nat, x: Connection.Event)
    requires IsRun(states, events) && m < |events| && Does(events[m], k, x)
    ensures k in states[m].conns && k < states[m].count && x in TurnOf(states[m], states[m].conns[k]).0
  {
    Numbered(states, events, m);
    assert StepAt(states, events, m);
  }

  lemma TraceGrows(states: seq<State>, events: seq<Event>, i: nat, j: nat, k: nat)
    requires IsRun(states, events) && i <= j < |events| && k < states[i].count && k in states[j + 1].conns
    ensures k in states[j].conns && states[j].conns[k].trace <= states[j + 1].conns[k].trace
    ensures forall x | Does(events[j], k, x) :: x in states[j + 1].conns[k].trace
  {
    CountGrows(states, events, i, j);
    assert StepAt(states, events, j);
    TraceStep(states[j], events[j], states[j + 1], k);
  }

  /** What a connection did is in its trace as long as it lives. */
  lemma {:induction false} DoneIsTraced(states: seq<State>, events: seq<Event>, m: nat, j: nat, k: nat,
                                        x: Connection.Event)
    requires IsRun(states, events) && m < j < |states| && k < states[m].count && Does(events[m], k, x) && k in states[j].conns
    ensures x in states[j].conns[k].trace
    decreases j
  {
    TraceGrows(states, events, m, j - 1, k);
    if m < j - 1 {
      DoneIsTraced(states, events, m, j - 1, k, x);
    }
  }

  lemma {:induction false} TwoMints(t: Trace, a: nat, b: nat)
    requires a < b < |t| && t[a].Minted? && t[b].Minted?
    ensures ConnectionSafety.Mints(t) >= 2
  {
    if a == 0 {
      OneMint(t[1..], b - 1);
    } else {
      TwoMints(t[1..], a - 1, b - 1);
    }
  }

  lemma {:induction false} OneMint(t: Trace, a: nat)
    requires a < |t| && t[a].Minted?
    ensures ConnectionSafety.Mints(t) >= 1
  {
    if a > 0 {
      OneMint(t[1..], a - 1);
    }
  }

  lemma NoTwoMints(states: seq<State>, events: seq<Event>, n: nat, k: nat, a: nat, b: nat)
    requires IsRun(states, events) && n < |states| && k in states[n].conns
    requires var t := states[n].conns[k].trace + TurnOf(states[n], states[n].conns[k]).0; a < b < |t| && t[a].Minted?
    ensures var t := states[n].conns[k].trace + TurnOf(states[n], states[n].conns[k]).0; !t[b].Minted?
  {
    var c := states[n].conns[k];
    ConnectionsRunAlone(states, events, n, k);
    var t := Run(EnvNow(states[n], c), c.s, c.input);
    ConnectionSafety.MintGate(EnvNow(states[n], c), c.s, c.input);
    if t[b].Minted? {
      TwoMints(t, a, b);
    }
  }

  lemma BothAt(t: Trace, u: Trace, x: Connection.Event, y: Connection.Event)
    requires x in t && y in u && x.Minted? && y.Minted?
    ensures exists a, b :: 0 <= a < |t| <= b < |t + u| && (t + u)[a] == x && (t + u)[b] == y
  {
    var a :| 0 <= a < |t| && t[a] == x;
    var b :| 0 <= b < |u| && u[b] == y;
    assert (t + u)[a] == x && (t + u)[|t| + b] == y;
  }

  lemma NoMintTwice(states: seq<State>, events: seq<Event>, m: nat, n: nat, k: nat, x: Connection.Event,
                    y: Connection.Event)
    requires IsRun(states, events) && m < n < |states| && Does(events[m], k, x) && x.Minted? && y.Minted?
    requires k < states[m].count && k in states[n].conns
    ensures y !in TurnOf(states[n], states[n].conns[k]).0
  {
    DoneIsTraced(states, events, m, n, k, x);
    var (trace, did) := (states[n].conns[k].trace, TurnOf(states[n], states[n].conns[k]).0);
    if y in did {
      BothAt(trace, did, x, y);
      var a, b :| 0 <= a < |trace| <= b < |trace + did| && (trace + did)[a] == x && (trace + did)[b] == y;
      NoTwoMints(states, events, n, k, a, b);
    }
  }

  lemma OneMintATurn(states: seq<State>, events: seq<Event>, n: nat, k: nat, x: Connection.Event, y: Connection.Event)
    requires IsRun(states, events) && n < |states| && k in states[n].conns && x.Minted? && y.Minted?
    requires var did := TurnOf(states[n], states[n].conns[k]).0; x in did && y in did
    ensures x == y
  {
    var (trace, did) := (states[n].conns[k].trace, TurnOf(states[n], states[n].conns[k]).0);
    var a :| 0 <= a < |did| && did[a] == x;
    var b :| 0 <= b < |did| && did[b] == y;
    if a != b {
      var (lo, hi) := (|trace| + if a < b then a else b, |trace| + if a < b then b else a);
      assert (trace + did)[lo].Minted? && (trace + did)[hi].Minted?;
      NoTwoMints(states, events, n, k, lo, hi);
    }
  }

  /** Whatever is interleaved with it, a connection mints at most once. */
  lemma MintsOnce(states: seq<State>, events: seq<Event>, m: nat, n: nat, k: nat, x: Connection.Event,
                  y: Connection.Event)
    requires IsRun(states, events) && m <= n < |events| && x.Minted? && y.Minted?
    requires Does(events[m], k, x) && Does(events[n], k, y)
    ensures m == n && x == y
  {
    DoesOpen(states, events, m, k, x);
    DoesOpen(states, events, n, k, y);
    if m < n {
      NoMintTwice(states, events, m, n, k, x, y);
    } else {
      OneMintATurn(states, events, n, k, x, y);
    }
  }

  // ----- revocation --------------------------------------------------------

  /** The registry's own events in a run. */
  function Changes(events: seq<Event>): seq<R.Event> {
    if events == [] then []
    else Changes(events[..|events| - 1]) + if events[|events| - 1].Changed? then [events[|events| - 1].e] else []
  }

  lemma ChangesSnoc(events: seq<Event>, e: Event)
    ensures Changes(events + [e]) == Changes(events) + if e.Changed? then [e.e] else []
  {
    assert (events + [e])[..|events|] == events;
  }

  ghost predicate RegistryInv(s: R.State, before: seq<R.Event>) {
    RegistrySafety.Inv(s, R.Revoked(before), R.Enrolled(before))
  }

  lemma {:induction false} RegistryKeeps(states: seq<State>, events: seq<Event>, j: nat)
    requires IsRun(states, events) && j < |states|
    ensures RegistryInv(states[j].registry, Changes(events[..j]))
  {
    if j == 0 {
      assert events[..0] == [];
    } else {
      RegistryKeeps(states, events, j - 1);
      assert StepAt(states, events, j - 1);
      RegistryStep(states[j - 1], events[j - 1], states[j], Changes(events[..j - 1]));
      ChangesSnoc(events[..j - 1], events[j - 1]);
      assert events[..j] == events[..j - 1] + [events[j - 1]];
    }
  }

  lemma RegistryStep(s: State, e: Event, s': State, before: seq<R.Event>)
    requires Next(s, e, s') && RegistryInv(s.registry, before)
    ensures RegistryInv(s'.registry, before + if e.Changed? then [e.e] else [])
  {
    if e.Changed? {
      RegistrySafety.StepKeeps(s.registry, e.e, s'.registry, before);
    } else {
      assert before + [] == before;
    }
  }

  /** An enrol of `c` takes the mutex. */
  predicate Reenrols(e: Event, c: Identity) {
    e.Changed? && e.e.Lock? && e.e.op.Enroll? && e.e.op.client == c
  }

  lemma {:induction false} StaysRevoked(events: seq<Event>, i: nat, j: nat, op: nat, c: Identity)
    requires i < j <= |events| && events[i] == Changed(R.Return(op, R.Revoke(c)))
    requires forall n | i < n < j :: !Reenrols(events[n], c)
    ensures c in R.Revoked(Changes(events[..j]))
    decreases j
  {
    var (before, all, e) := (Changes(events[..j - 1]), Changes(events[..j]), events[j - 1]);
    assert events[..j][..j - 1] == events[..j - 1];
    if i < j - 1 {
      StaysRevoked(events, i, j - 1, op, c);
    }
    if e.Changed? {
      assert all == before + [e.e] && all[..|all| - 1] == before;
    } else {
      assert all == before;
    }
  }

  /** A revoke of `c` has made its first write and waits for its second. */
  predicate Halfway(s: R.State, op: nat, c: Identity) {
    s.mutex.Held? && s.mutex.id == op && s.mutex.op == R.Revoke(c) && s.mutex.phase.RevokePsks?
  }

  lemma HoldsOn(s: State, e: Event, s': State, op: nat, c: Identity)
    requires Next(s, e, s') && Halfway(s'.registry, op, c)
    ensures || (e == Changed(R.Wrote(op, R.Revoke(c))) && c !in s'.registry.tables.psks)
            || (Halfway(s.registry, op, c) && s.registry.tables == s'.registry.tables)
  {}

  lemma HoldsOnAt(states: seq<State>, events: seq<Event>, i: nat, op: nat, c: Identity)
    requires IsRun(states, events) && i < |events| && Halfway(states[i + 1].registry, op, c)
    ensures || (events[i] == Changed(R.Wrote(op, R.Revoke(c))) && c !in states[i + 1].registry.tables.psks)
            || (Halfway(states[i].registry, op, c) && states[i].registry.tables == states[i + 1].registry.tables)
  {
    assert StepAt(states, events, i);
    HoldsOn(states[i], events[i], states[i + 1], op, c);
  }

  /** A revoke waiting for its second write made its first at some `w`, and since then the client has
      had no key in memory. */
  lemma {:induction false} WroteBefore(states: seq<State>, events: seq<Event>, i: nat, op: nat, c: Identity)
    returns (w: nat)
    requires IsRun(states, events) && i < |states| && Halfway(states[i].registry, op, c)
    ensures w < i && events[w] == Changed(R.Wrote(op, R.Revoke(c)))
    ensures forall l | w < l <= i :: c !in states[l].registry.tables.psks
    decreases i
  {
    var e := events[i - 1];
    HoldsOnAt(states, events, i - 1, op, c);
    if e == Changed(R.Wrote(op, R.Revoke(c))) && c !in states[i].registry.tables.psks {
      w := i - 1;
    } else {
      w := WroteBefore(states, events, i - 1, op, c);
    }
  }

  /** From the first write of a revoke that goes on to return Ok, until an enrol of the client takes the
      mutex, nobody who looks finds it. */
  lemma NotFoundAfter(states: seq<State>, events: seq<Event>, i: nat, op: nat, c: Identity) returns (w: nat)
    requires IsRun(states, events) && i < |events| && events[i] == Changed(R.Return(op, R.Revoke(c)))
    ensures w < i && events[w] == Changed(R.Wrote(op, R.Revoke(c)))
    ensures forall l | w < l < |states| && (forall n | i < n < l :: !Reenrols(events[n], c)) ::
              c !in R.Authorised(states[l].registry.tables)
  {
    RegistryKeeps(states, events, i);
    assert StepAt(states, events, i);
    w := WroteBefore(states, events, i, op, c);
    forall l | w < l < |states| && (forall n | i < n < l :: !Reenrols(events[n], c))
      ensures c !in R.Authorised(states[l].registry.tables)
    {
      if i < l {
        RegistryKeeps(states, events, l);
        StaysRevoked(events, i, l, op, c);
      }
    }
  }

  /** A mint for a client whose revoke has returned Ok, with no enrol of it since, is the mint of a
      connection that had looked the client up before the revoke's first write was done. */
  lemma LateMintLookedEarlier(states: seq<State>, events: seq<Event>, i: nat, m: nat, op: nat, k: nat, c: Identity,
                              path: Bytes)
    returns (l: nat, w: nat)
    requires IsRun(states, events) && i < m < |events|
    requires events[i] == Changed(R.Return(op, R.Revoke(c))) && forall n | i < n < m :: !Reenrols(events[n], c)
    requires Does(events[m], k, Minted(c, path))
    ensures l < w < i && events[w] == Changed(R.Wrote(op, R.Revoke(c)))
    ensures Does(events[l], k, Looked(c, true)) && c in R.Authorised(states[l].registry.tables)
  {
    l := MintHasItsLookup(states, events, m, k, c, path);
    w := NotFoundAfter(states, events, i, op, c);
  }

  /** So a connection opened once the revoke's first write is done, whether or not it has returned yet,
      does not mint for the client, whatever its peer sends, until an enrol of it takes the mutex. */
  lemma RevokedNeverMints(states: seq<State>, events: seq<Event>, w: nat, i: nat, o: nat, m: nat, op: nat, k: nat,
                          c: Identity, path: Bytes)
    requires IsRun(states, events) && w < i < |events| && w <= o < |events| && m < |events|
    requires events[w] == Changed(R.Wrote(op, R.Revoke(c))) && events[i] == Changed(R.Return(op, R.Revoke(c)))
    requires forall n | w < n < i :: events[n] != Changed(R.Wrote(op, R.Revoke(c)))
    requires forall n | i < n < m :: !Reenrols(events[n], c)
    requires events[o].Opened? && events[o].k == k
    ensures !Does(events[m], k, Minted(c, path))
  {
    if Does(events[m], k, Minted(c, path)) {
      var l := MintHasItsLookup(states, events, m, k, c, path);
      var _ := NotFoundAfter(states, events, i, op, c);
      assert StepAt(states, events, o) && StepAt(states, events, l);
      Numbered(states, events, l);
      CountGrows(states, events, l, o);
      assert false;
    }
  }

  // ----- a late mint -------------------------------------------------------

  lemma Extend(states: seq<State>, events: seq<Event>, e: Event, s': State)
    requires IsRun(states, events) && Next(states[|events|], e, s')
    ensures IsRun(states + [s'], events + [e])
  {
    var (ss, es) := (states + [s'], events + [e]);
    forall i | 0 <= i < |es| ensures StepAt(ss, es, i) {
      if i < |events| {
        assert StepAt(states, events, i);
      }
    }
  }

  /** Connection 0 stands at `at`, with surroundings `env`, and the registry at `reg`. */
  ghost predicate Stands(s: State, env: Env, at: After, reg: R.State)
    requires at.On?
  {
    && s.registry == reg && 0 in s.conns
    && var c := s.conns[0];
       c.env == env && c.st == at.st && c.rest == at.rest && c.client == at.client && c.w == at.w
  }

  lemma Go(states: seq<State>, events: seq<Event>, env: Env, at: After, reg: R.State, did: Trace, next: After)
    returns (ss: seq<State>, es: seq<Event>)
    requires IsRun(states, events) && at.On? && next.On? && Stands(states[|events|], env, at, reg)
    requires (at.st.RNeedPsk? ==> env.tables == reg.tables) && Turned(env, at.st, at.rest, at.client, at.w) == (did, next)
    ensures IsRun(ss, es) && ss[0] == states[0] && es == events + [Stepped(0, did)] && Stands(ss[|es|], env, next, reg)
  {
    var s := states[|events|];
    assert EnvNow(s, s.conns[0]) == env;
    var s' := s.(conns := s.conns[0 := Moved(s, s.conns[0]).value]);
    Extend(states, events, Stepped(0, did), s');
    ss, es := states + [s'], events + [Stepped(0, did)];
  }

  lemma Change(states: seq<State>, events: seq<Event>, env: Env, at: After, reg: R.State, e: R.Event, reg': R.State)
    returns (ss: seq<State>, es: seq<Event>)
    requires IsRun(states, events) && at.On? && Stands(states[|events|], env, at, reg)
    requires R.Next(reg, e, reg') && !e.Kill? && !e.PowerLoss?
    ensures IsRun(ss, es) && ss[0] == states[0] && es == events + [Changed(e)] && Stands(ss[|es|], env, at, reg')
  {
    var s' := states[|events|].(registry := reg');
    Extend(states, events, Changed(e), s');
    ss, es := states + [s'], events + [Changed(e)];
  }

  /** An honest client's connection up to its lookup and the broker's answer. */
  lemma RunsToAnswer(env: Env, p: SessionRun.Params, c: SessionScript.Script, reg: R.State)
    returns (ss: seq<State>, es: seq<Event>)
    requires c == SessionCorrect.ScriptOf(p) && p.s == p.rs && p.er == env.er && env.writeOk(0)
    requires R.Init(reg) && env.tables == reg.tables && p.id in R.Authorised(env.tables) && env.tables.psks[p.id] == p.lookup(p.id)
    ensures IsRun(ss, es) && ss[0].registry == reg && |es| == 5
    ensures Stands(ss[5], env, On(RWantReqLen(Noise.Transport(c.chain, false, 0, 0)), c.f3, Some(p.id), 1), reg)
  {
    var (input, n) := (SessionScript.FromI(c), |c.f1| - 2);
    var hs := ResponderNew(p.s);
    Broker.FirstFrame(p);
    SessionCorrect.SuppliesPsk(p);
    var s := State.State(reg, map[], 0);
    var s' := s.(conns := s.conns[0 := NewConn(env, p.s, input)], count := 1);
    Extend([s], [], Opened(0, env, p.s, input), s');
    ss, es := [s, s'], [Opened(0, env, p.s, input)];
    Broker.TurnReads(env, RWantHsLen(hs), RWantHsBody(hs, n), input, None, 0, 2);
    ss, es := Go(ss, es, env, On(RWantHsLen(hs), input, None, 0), reg, [Read(2)], On(RWantHsBody(hs, n), input[2..],
        None, 0));
    Broker.TurnReads(env, RWantHsBody(hs, n), RNeedPsk(c.read1, p.id), input[2..], None, 0, n);
    ss, es := Go(ss, es, env, On(RWantHsBody(hs, n), input[2..], None, 0), reg, [Read(n)], On(RNeedPsk(c.read1,
        p.id), c.f3, None, 0));
    ss, es := RunsFromLookup(ss, es, env, p, c, reg);
  }

  lemma RunsFromLookup(states: seq<State>, events: seq<Event>, env: Env, p: SessionRun.Params,
                       c: SessionScript.Script, reg: R.State)
    returns (ss: seq<State>, es: seq<Event>)
    requires IsRun(states, events) && Stands(states[|events|], env, On(RNeedPsk(c.read1, p.id), c.f3, None, 0), reg)
    requires p.id in R.Authorised(env.tables) && env.tables == reg.tables && env.writeOk(0)
    requires RSetPsk(RAwaitingPsk(c.read1), env.tables.psks[p.id], env.er) == (RWriteHs(Finished(c.chain, false), c.f2), Ok(()))
    ensures IsRun(ss, es) && ss[0] == states[0] && |es| == |events| + 2
    ensures Stands(ss[|es|], env, On(RWantReqLen(Noise.Transport(c.chain, false, 0, 0)), c.f3, Some(p.id), 1), reg)
  {
    var done := Finished(c.chain, false);
    Broker.TurnLooks(env, c.read1, p.id, c.f3, done, c.f2);
    ss, es := Go(states, events, env, On(RNeedPsk(c.read1, p.id), c.f3, None, 0), reg, [Looked(p.id, true)],
                 On(RWriteHs(done, c.f2), c.f3, Some(p.id), 0));
    Broker.TurnWrites(env, c.chain, c.f2, c.f3, Some(p.id));
    ss, es := Go(ss, es, env, On(RWriteHs(done, c.f2), c.f3, Some(p.id), 0), reg, [Sent(|c.f2|)],
                 On(RWantReqLen(Noise.Transport(c.chain, false, 0, 0)), c.f3, Some(p.id), 1));
  }

  /** Then up to its request. */
  lemma RunsToRequest(states: seq<State>, events: seq<Event>, env: Env, p: SessionRun.Params,
                      c: SessionScript.Script, reg: R.State)
    returns (ss: seq<State>, es: seq<Event>)
    requires c == SessionCorrect.ScriptOf(p) && SessionCorrect.RequestFits(p) && IsRun(states, events)
    requires Stands(states[|events|], env, On(RWantReqLen(Noise.Transport(c.chain, false, 0, 0)), c.f3, Some(p.id), 1), reg)
    ensures IsRun(ss, es) && ss[0] == states[0] && |es| == |events| + 2
    ensures Stands(ss[|es|], env, On(RHaveRequest(Noise.Transport(c.chain, false, 0, 1), p.request), [], Some(p.id), 1), reg)
  {
    var (ts0, ts1, n) := (Noise.Transport(c.chain, false, 0, 0), Noise.Transport(c.chain, false, 0, 1), |c.f3| - 2);
    Broker.SecondFrame(p);
    Broker.TurnReads(env, RWantReqLen(ts0), RWantReqBody(ts0, n), c.f3, Some(p.id), 1, 2);
    ss, es := Go(states, events, env, On(RWantReqLen(ts0), c.f3, Some(p.id), 1), reg, [Read(2)], On(RWantReqBody(ts0,
        n), c.f3[2..], Some(p.id), 1));
    Broker.TurnReads(env, RWantReqBody(ts0, n), RHaveRequest(ts1, p.request), c.f3[2..], Some(p.id), 1, n);
    ss, es := Go(ss, es, env, On(RWantReqBody(ts0, n), c.f3[2..], Some(p.id), 1), reg, [Read(n)],
        On(RHaveRequest(ts1, p.request), [], Some(p.id), 1));
  }

  /** A revoke of `c` from beginning to end, while the connection waits. */
  lemma RevokesMeanwhile(states: seq<State>, events: seq<Event>, env: Env, at: After, reg: R.State, op: nat,
                         c: Identity)
    returns (ss: seq<State>, es: seq<Event>, reg': R.State)
    requires IsRun(states, events) && at.On? && Stands(states[|events|], env, at, reg) && R.Init(reg) && c in reg.tables.clients
    ensures IsRun(ss, es) && ss[0] == states[0] && |es| == |events| + 4 && Stands(ss[|es|], env, at, reg')
    ensures es[|events| + 3] == Changed(R.Return(op, R.Revoke(c)))
  {
    var o := R.Revoke(c);
    var r1, r2 := RegistryLimits.LockStep(reg, op, o);
    var r3 := RegistryLimits.WroteStep(r2, op, o);
    reg' := RegistryLimits.ReturnRevokeStep(r3, op, o);
    ss, es := Change(states, events, env, at, reg, R.Submit(op, o), r1);
    ss, es := Change(ss, es, env, at, r1, R.Lock(op, o), r2);
    ss, es := Change(ss, es, env, at, r2, R.Wrote(op, o), r3);
    ss, es := Change(ss, es, env, at, r3, R.Return(op, o), reg');
  }

  /** And the connection mints, whatever the registry has become. */
  lemma MintsNow(states: seq<State>, events: seq<Event>, env: Env, ts: Noise.Transport, id: Identity, request: Bytes,
                 r: Git.Request, reg: R.State)
    returns (ss: seq<State>, es: seq<Event>)
    requires IsRun(states, events) && Admitted(env, Some(id), request) == Some(r)
    requires Stands(states[|events|], env, On(RHaveRequest(ts, request), [], Some(id), 1), reg)
    ensures IsRun(ss, es) && ss[0] == states[0] && |es| == |events| + 1 && es[..|events|] == events
    ensures Does(es[|events|], 0, Minted(id, r.path))
  {
    Broker.TurnMints(env, ts, id, request, r);
    var last := states[|events|];
    var did := TurnOf(last, last.conns[0]).0;
    var s' := last.(conns := match Moved(last, last.conns[0]) case None => last.conns - {0} case Some(x) => last.conns[0 := x]);
    Extend(states, events, Stepped(0, did), s');
    ss, es := states + [s'], events + [Stepped(0, did)];
  }

  lemma LateMintFor(reg: R.State, env: Env, p: SessionRun.Params, c: SessionScript.Script, r: Git.Request, op: nat)
    returns (states: seq<State>, events: seq<Event>)
    requires R.Init(reg) && env.tables == reg.tables && p.id in R.Authorised(reg.tables) && reg.tables.psks[p.id] == p.lookup(p.id)
    requires c == SessionCorrect.ScriptOf(p) && p.s == p.rs && p.er == env.er && env.writeOk(0) && SessionCorrect.RequestFits(p)
    requires Admitted(env, Some(p.id), p.request) == Some(r)
    ensures IsRun(states, events) && states[0].registry == reg && |events| == 12
    ensures events[10] == Changed(R.Return(op, R.Revoke(p.id))) && Does(events[11], 0, Minted(p.id, r.path))
  {
    states, events := RunsToAnswer(env, p, c, reg);
    states, events := RunsToRequest(states, events, env, p, c, reg);
    var ts := Noise.Transport(c.chain, false, 0, 1);
    var reg';
    states, events, reg' := RevokesMeanwhile(states, events, env, On(RHaveRequest(ts, p.request), [], Some(p.id), 1),
        reg, op, p.id);
    states, events := MintsNow(states, events, env, ts, p.id, p.request, r, reg');
  }

  /** The lookup is all that is checked: from every start where a client is enrolled, there is a run in
      which its revoke returns Ok and a connection that had looked it up before then mints for it. */
  lemma LateMintExists(reg: R.State, env: Env, s: Secret, id: Identity, e: Secret, request: Bytes, r: Git.Request,
                       text: Bytes, op: nat)
    returns (states: seq<State>, events: seq<Event>)
    requires R.Init(reg) && env.tables == reg.tables && id in R.Authorised(reg.tables)
    requires Broker.InOrder(env, id, reg.tables.psks[id], request, r, text)
    ensures IsRun(states, events) && states[0].registry == reg && |events| == 12
    ensures events[10] == Changed(R.Return(op, R.Revoke(id))) && Does(events[11], 0, Minted(id, r.path))
  {
    var p := Broker.Client(env, s, id, reg.tables.psks[id], e, request, text);
    states, events := LateMintFor(reg, env, p, SessionCorrect.ScriptOf(p), r, op);
  }
}
