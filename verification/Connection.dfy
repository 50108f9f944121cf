/** One client connection (`handle_connection`, src/daemon.rs): the loop that drives a responder,
    looks the identity up in the registry, substitutes a random key for a stranger, and mints. */
module Connection {
  import opened Prelude
  import opened Identities
  import opened PskStores
  import opened Noise
  import opened Transport
  import opened Registry
  import opened Sessions
  import Git = GitCredential

  const WIRE_READ_BUDGET: nat := 8192

  /** What the connection meets: the registry when it looks, the random number generator, its
      ephemeral key, which of its writes go through, and what the providers do. */
  datatype Env = Env(tables: Tables, random: Option<Psk>, er: Secret, writeOk: nat -> bool,
                     hosts: set<Bytes>, mint: Bytes -> Option<Git.CheckedResponse>)

  datatype Event =
    | Read(n: nat)
    | Sent(n: nat)
    | Close
    | Looked(id: Identity, found: bool)
    | Asked
    | Minted(client: Identity, path: Bytes)

  type Trace = seq<Event>

  predicate IsVisible(e: Event) {
    e.Read? || e.Sent? || e.Close?
  }

  /** What the peer can tell: how much is read and written, and when the connection closes. */
  function Visible(t: Trace): Trace {
    if t == [] then [] else (if IsVisible(t[0]) then [t[0]] else []) + Visible(t[1..])
  }

  /** How many loop turns a responder can still take. */
  function Left(st: RState): nat {
    match st
    case RWantHsLen(_) => 13
    case RWantHsBody(_, _) => 12
    case RNeedPsk(_, _) => 11
    case RAwaitingPsk(_) => 10
    case RWriteHs(_, _) => 9
    case RWroteHsPending(_) => 8
    case RWantReqLen(_) => 7
    case RWantReqBody(_, _) => 6
    case RHaveRequest(_, _) => 5
    case RAwaitingResponse(_) => 4
    case RWriteResp(_) => 3
    case RWroteRespPending => 2
    case RDone => 1
    case RFailed => 0
  }

  /** A client is known when both tables have it; its stored key is then used, a random one
      otherwise. */
  function KeyFor(env: Env, id: Identity): Option<Psk> {
    if id in Authorised(env.tables) then Some(env.tables.psks[id]) else env.random
  }

  function ClientFor(env: Env, id: Identity): Option<Identity> {
    if id in Authorised(env.tables) then Some(id) else None
  }

  /** The request to act on, if the session is a known client's and the request passes. */
  function Admitted(env: Env, client: Option<Identity>, plaintext: Bytes): Option<Git.Request> {
    if client.None? || |plaintext| > WIRE_READ_BUDGET then None
    else
      match Git.ParseInput(plaintext)
      case Err(_) => None
      case Ok(r) => if r.host in env.hosts then Some(r) else None
  }

  /** The provider's answer in wire form. */
  function Answer(env: Env, r: Git.Request): Option<Bytes> {
    match env.mint(r.path)
    case None => None
    case Some(resp) => Some(Git.ResponseText(resp, r.authtype))
  }

  /** How a turn of the loop ends. */
  datatype After = Over | On(st: RState, rest: Wire, client: Option<Identity>, w: nat)

  /** One turn of the loop from responder state `st`, with `input` still to come from the peer and `w`
      writes done: what happens, and where it leads. */
  function Turned(env: Env, st: RState, input: Wire, client: Option<Identity>, w: nat): (r: (Trace, After))
    ensures r.1.On? ==> Left(r.1.st) < Left(st)
  {
    var (st1, got) := RStep(st);
    match got
    case Err(_) => ([Close], Over)
    case Ok(ReadExact(n)) =>
      if |input| < n then ([Read(n), Close], Over)
      else
        var (st2, ok) := RRecv(st1, input[..n]);
        if ok.Err? then ([Read(n), Close], Over) else ([Read(n)], On(st2, input[n..], client, w))
    case Ok(NeedPsk(id)) =>
      var found := id in Authorised(env.tables);
      (match KeyFor(env, id)
       case None => ([Looked(id, found), Close], Over)
       case Some(psk) =>
         var (st2, ok) := RSetPsk(st1, psk, env.er);
         if ok.Err? then ([Looked(id, found), Close], Over)
         else ([Looked(id, found)], On(st2, input, ClientFor(env, id), w)))
    case Ok(Write(bytes)) =>
      if !env.writeOk(w) then ([Close], Over)
      else
        var (st2, ok) := RWrote(st1);
        if ok.Err? then ([Sent(|bytes|), Close], Over) else ([Sent(|bytes|)], On(st2, input, client, w + 1))
    case Ok(Request(plaintext)) =>
      (match Admitted(env, client, plaintext)
       case None => ([Asked, Close], Over)
       case Some(r) =>
         match Answer(env, r)
         case None => ([Asked, Minted(client.value, r.path), Close], Over)
         case Some(text) =>
           var (st2, ok) := RSetResponse(st1, text);
           if ok.Err? then ([Asked, Minted(client.value, r.path), Close], Over)
           else ([Asked, Minted(client.value, r.path)], On(st2, input, client, w)))
    case Ok(Done) => ([Close], Over)
  }

  /** Everything that happens from responder state `st` on. */
  function Drive(env: Env, st: RState, input: Wire, client: Option<Identity>, w: nat): Trace
    decreases Left(st)
  {
    var (events, after) := Turned(env, st, input, client, w);
    match after
    case Over => events
    case On(st', rest, client', w') => events + Drive(env, st', rest, client', w')
  }

  /** The trace of a whole connection against the broker key `s`. */
  function Run(env: Env, s: Secret, input: Wire): Trace {
    Drive(env, RWantHsLen(ResponderNew(s)), input, None, 0)
  }

  /** Where the loop stands between turns. */
  datatype Turn = Turn(rest: Wire, client: Option<Identity>, w: nat)

  /** One turn's events, whether the connection is over, and where it stands if not. */
  ghost predicate Takes(env: Env, st: RState, t: Turn, events: Trace, over: bool, st': RState, t': Turn)
  {
    Turned(env, st, t.rest, t.client, t.w) == (events, if over then Over else On(st', t'.rest, t'.client, t'.w))
  }

  method TurnRead(env: Env, sess: Responder, t: Turn, n: nat, ghost st: RState)
    returns (events: Trace, over: bool, t': Turn)
    requires sess.Valid() && RStep(st) == (sess.state, Ok(ReadExact(n)))
    modifies sess, sess.scratch.cells
    ensures Takes(env, st, t, events, over, sess.state, t')
  {
    if |t.rest| < n {
      return [Read(n), Close], true, t;
    }
    var ok := sess.Recv(t.rest[..n]);
    if ok.Err? {
      return [Read(n), Close], true, t;
    }
    return [Read(n)], false, t.(rest := t.rest[n..]);
  }

  method TurnLookup(env: Env, sess: Responder, t: Turn, id: Identity, ghost st: RState)
    returns (events: Trace, over: bool, t': Turn)
    requires sess.Valid() && RStep(st) == (sess.state, Ok(NeedPsk(id)))
    modifies sess, sess.scratch.cells
    ensures Takes(env, st, t, events, over, sess.state, t')
  {
    var found := id in Authorised(env.tables);
    var psk := KeyFor(env, id);
    if psk.None? {
      return [Looked(id, found), Close], true, t;
    }
    var ok := sess.SetPsk(psk.value, env.er);
    if ok.Err? {
      return [Looked(id, found), Close], true, t;
    }
    return [Looked(id, found)], false, t.(client := ClientFor(env, id));
  }

  method TurnWrite(env: Env, sess: Responder, t: Turn, bytes: Wire, ghost st: RState)
    returns (events: Trace, over: bool, t': Turn)
    requires sess.Valid() && RStep(st) == (sess.state, Ok(Write(bytes)))
    modifies sess
    ensures Takes(env, st, t, events, over, sess.state, t')
  {
    if !env.writeOk(t.w) {
      return [Close], true, t;
    }
    var ok := sess.Wrote();
    if ok.Err? {
      return [Sent(|bytes|), Close], true, t;
    }
    return [Sent(|bytes|)], false, t.(w := t.w + 1);
  }

  method TurnRequest(env: Env, sess: Responder, t: Turn, plaintext: Bytes, ghost st: RState)
    returns (events: Trace, over: bool, t': Turn)
    requires sess.Valid() && RStep(st) == (sess.state, Ok(Request(plaintext)))
    modifies sess, sess.scratch.cells
    ensures Takes(env, st, t, events, over, sess.state, t')
  {
    var request := Admitted(env, t.client, plaintext);
    if request.None? {
      return [Asked, Close], true, t;
    }
    var minted := Minted(t.client.value, request.value.path);
    var answer := Answer(env, request.value);
    if answer.None? {
      return [Asked, minted, Close], true, t;
    }
    var ok := sess.SetResponse(answer.value);
    if ok.Err? {
      return [Asked, minted, Close], true, t;
    }
    return [Asked, minted], false, t;
  }

  method OneTurn(env: Env, sess: Responder, t: Turn) returns (events: Trace, over: bool, t': Turn)
    requires sess.Valid()
    modifies sess, sess.scratch.cells
    ensures Takes(env, old(sess.state), t, events, over, sess.state, t')
  {
    ghost var st := sess.state;
    var step := sess.Step();
    match step {
      case Err(_) => return [Close], true, t;
      case Ok(ReadExact(n)) => events, over, t' := TurnRead(env, sess, t, n, st);
      case Ok(NeedPsk(id)) => events, over, t' := TurnLookup(env, sess, t, id, st);
      case Ok(Write(bytes)) => events, over, t' := TurnWrite(env, sess, t, bytes, st);
      case Ok(Request(plaintext)) => events, over, t' := TurnRequest(env, sess, t, plaintext, st);
      case Ok(Done) => return [Close], true, t;
    }
  }

  /** What is left of the whole trace. */
  ghost function Remaining(env: Env, st: RState, t: Turn, over: bool): Trace {
    if over then [] else Drive(env, st, t.rest, t.client, t.w)
  }

  lemma TakesIs(env: Env, st: RState, t: Turn, events: Trace, over: bool, st': RState, t': Turn)
    requires Takes(env, st, t, events, over, st', t')
    ensures Remaining(env, st, t, false) == events + Remaining(env, st', t', over)
    ensures !over ==> Left(st') < Left(st)
  {}

  /** A trace cut off after `limit` events, if it has that many. */
  function CutAt(t: Trace, limit: Option<nat>): Trace {
    if limit.Some? && limit.value < |t| then t[..limit.value] else t
  }

  /** `handle_connection`: the loop over a live responder object. `limit` is where the per-connection
      timeout drops it, if it does. */
  method HandleConnection(env: Env, s: Secret, input: Wire, limit: Option<nat>) returns (trace: Trace)
    ensures trace == CutAt(Run(env, s, input), limit)
  {
    var sess := new Responder(s);
    var t, over := Turn(input, None, 0), false;
    trace := [];
    ghost var whole := Remaining(env, sess.state, t, over);
    while !over
      invariant sess.Valid() && fresh(sess) && fresh(sess.scratch.cells)
      invariant trace + Remaining(env, sess.state, t, over) == whole
      invariant limit.Some? ==> |trace| <= limit.value
      decreases if over then 0 else 1 + Left(sess.state)
    {
      ghost var st, before := sess.state, t;
      var events;
      events, over, t := OneTurn(env, sess, t);
      TakesIs(env, st, before, events, over, sess.state, t);
      assert trace + (events + Remaining(env, sess.state, t, over)) == trace + events + Remaining(env, sess.state, t, over);
      trace := trace + events;
      if limit.Some? && limit.value < |trace| {
        return trace[..limit.value];
      }
    }
  }
}
