/** The broker as a whole (src/daemon.rs): what the registry's promises come to for the connections
    that look a client up in it, at any point of any run and after any crash. */
module Broker {
  import opened Prelude
  import opened Identities
  import opened PskStores
  import opened Noise
  import opened Transport
  import opened Clients
  import Registry
  import RegistrySafety
  import SessionRun
  import SessionScript
  import SessionCorrect
  import opened Connection
  import ConnectionSafety
  import Git = GitCredential

  // ----- an honest client --------------------------------------------------

  /** A client of the broker with static key `s` that holds `psk` and wants `request`; `text` is the
      broker's answer. */
  function Client(env: Env, s: Secret, id: Identity, psk: Psk, e: Secret, request: Bytes,
                  text: Bytes): SessionRun.Params {
    SessionRun.Params(id, psk, s, e, request, s, env.er, _ => psk, _ => text)
  }

  /** The client is enrolled with the key it holds, its request is one the broker acts on, the provider
      answers, everything fits a frame and no write fails. */
  predicate InOrder(env: Env, id: Identity, psk: Psk, request: Bytes, r: Git.Request, text: Bytes) {
    && id in Registry.Authorised(env.tables) && Registry.Authorised(env.tables)[id] == psk
    && Admitted(env, Some(id), request) == Some(r) && Answer(env, r) == Some(text)
    && |request| + TAG_LEN <= MAX_MESSAGE_SIZE && |text| + TAG_LEN <= MAX_MESSAGE_SIZE
    && env.writeOk(0) && env.writeOk(1)
  }

  // Turns of the loop, and what each makes of the whole trace.

  /** A read of `n` bytes that the responder accepts. */
  lemma TurnReads(env: Env, st: RState, next: RState, input: Wire, client: Option<Identity>, w: nat, n: nat)
    requires RStep(st) == (st, Ok(ReadExact(n))) && n <= |input| && RRecv(st, input[..n]) == (next, Ok(()))
    ensures Turned(env, st, input, client, w) == ([Read(n)], On(next, input[n..], client, w))
  {}

  lemma TurnLooks(env: Env, hs: Handshake, id: Identity, input: Wire, done: Handshake, out: Wire)
    requires id in Registry.Authorised(env.tables)
    requires RSetPsk(RAwaitingPsk(hs), env.tables.psks[id], env.er) == (RWriteHs(done, out), Ok(()))
    ensures Turned(env, RNeedPsk(hs, id), input, None, 0) == ([Looked(id, true)], On(RWriteHs(done, out), input, Some(id), 0))
  {}

  lemma TurnWrites(env: Env, chain: Chain, out: Wire, input: Wire, client: Option<Identity>)
    requires env.writeOk(0)
    ensures Turned(env, RWriteHs(Finished(chain, false), out), input, client, 0)
         == ([Sent(|out|)], On(RWantReqLen(Noise.Transport(chain, false, 0, 0)), input, client, 1))
  {}

  lemma TurnMints(env: Env, ts: Noise.Transport, id: Identity, request: Bytes, r: Git.Request)
    requires Admitted(env, Some(id), request) == Some(r)
    ensures Minted(id, r.path) in Turned(env, RHaveRequest(ts, request), [], Some(id), 1).0
    ensures forall text, out | Answer(env, r) == Some(text) && RSetResponse(RAwaitingResponse(ts), text) == (RWriteResp(out), Ok(())) ::
              Turned(env, RHaveRequest(ts, request), [], Some(id), 1) == ([Asked, Minted(id, r.path)], On(RWriteResp(out), [], Some(id), 1))
  {
    assert Turned(env, RHaveRequest(ts, request), [], Some(id), 1).0[1] == Minted(id, r.path);
  }

  lemma DriveIs(env: Env, st: RState, input: Wire, client: Option<Identity>, w: nat)
    ensures var (did, after) := Turned(env, st, input, client, w);
            Drive(env, st, input, client, w)
            == did + if after.On? then Drive(env, after.st, after.rest, after.client, after.w) else []
  {}

  lemma Joined(t: Trace, t1: Trace, t2: Trace, t3: Trace, t4: Trace)
    requires |t| > |t1| > |t2| > |t3| > |t4| && t == t[..1] + t1 && t1 == t1[..1] + t2 && t2 == t2[..1] + t3 && t3 == t3[..1] + t4
    ensures t == [t[0], t1[0], t2[0], t3[0]] + t4
  {}

  /** What the responder makes of the client's first frame. */
  lemma FirstFrame(p: SessionRun.Params)
    requires p.s == p.rs
    ensures var c := SessionCorrect.ScriptOf(p);
            var (input, n) := (SessionScript.FromI(c), |c.f1| - 2);
            && 2 + n <= |input|
            && RRecv(RWantHsLen(ResponderNew(p.s)), input[..2]) == (RWantHsBody(ResponderNew(p.s), n), Ok(()))
            && RRecv(RWantHsBody(ResponderNew(p.s), n), input[2..][..n]) == (RNeedPsk(c.read1, p.id), Ok(()))
            && input[2..][n..] == c.f3
  {
    var c := SessionCorrect.ScriptOf(p);
    var input := SessionScript.FromI(c);
    SessionCorrect.ClientStream(p);
    SessionCorrect.ReadsIdentity(p);
    assert input[..2] == input[0..2] && input[2..][..|c.f1| - 2] == input[2..|c.f1|];
    assert input[2..][|c.f1| - 2..] == c.f3;
  }

  /** What it makes of the second. */
  lemma SecondFrame(p: SessionRun.Params)
    requires SessionCorrect.RequestFits(p)
    ensures var c := SessionCorrect.ScriptOf(p);
            var (ts0, ts1, n) := (Noise.Transport(c.chain, false, 0, 0), Noise.Transport(c.chain, false, 0, 1),
                |c.f3| - 2);
            && RRecv(RWantReqLen(ts0), c.f3[..2]) == (RWantReqBody(ts0, n), Ok(()))
            && RRecv(RWantReqBody(ts0, n), c.f3[2..][..n]) == (RHaveRequest(ts1, p.request), Ok(()))
            && c.f3[2..][n..] == []
  {
    var c := SessionCorrect.ScriptOf(p);
    SessionCorrect.HeadAndBody(SessionCorrect.Message3(p), [], []);
    assert [] + c.f3 + [] == c.f3;
    assert c.f3[0..2] == c.f3[..2] && c.f3[2..|c.f3|] == c.f3[2..];
    assert c.f3[2..][..|c.f3| - 2] == c.f3[2..];
    SessionCorrect.ReadsRequest(p);
  }

  /** Up to message 2, whatever the frame contained: read, recognised, answered. */
  lemma Greets(env: Env, s: Secret, id: Identity, input: Wire, n: nat, hs: Handshake, chain: Chain, out: Wire)
    requires 2 + n <= |input|
    requires RRecv(RWantHsLen(ResponderNew(s)), input[..2]) == (RWantHsBody(ResponderNew(s), n), Ok(()))
    requires RRecv(RWantHsBody(ResponderNew(s), n), input[2..][..n]) == (RNeedPsk(hs, id), Ok(()))
    requires id in Registry.Authorised(env.tables) && env.writeOk(0)
    requires RSetPsk(RAwaitingPsk(hs), env.tables.psks[id], env.er) == (RWriteHs(Finished(chain, false), out), Ok(()))
    ensures Run(env, s, input)
         == [Read(2), Read(n), Looked(id, true), Sent(|out|)]
            + Drive(env, RWantReqLen(Noise.Transport(chain, false, 0, 0)), input[2..][n..], Some(id), 1)
  {
    var (st1, st2, st3, st4) := (RWantHsBody(ResponderNew(s), n), RNeedPsk(hs, id), RWriteHs(Finished(chain, false), out),
                                 RWantReqLen(Noise.Transport(chain, false, 0, 0)));
    var rest := input[2..][n..];
    TurnReads(env, RWantHsLen(ResponderNew(s)), st1, input, None, 0, 2);
    DriveIs(env, RWantHsLen(ResponderNew(s)), input, None, 0);
    TurnReads(env, st1, st2, input[2..], None, 0, n);
    DriveIs(env, st1, input[2..], None, 0);
    TurnLooks(env, hs, id, rest, Finished(chain, false), out);
    DriveIs(env, st2, rest, None, 0);
    TurnWrites(env, chain, out, rest, Some(id));
    DriveIs(env, st3, rest, Some(id), 0);
    Joined(Run(env, s, input), Drive(env, st1, input[2..], None, 0), Drive(env, st2, rest, None, 0),
           Drive(env, st3, rest, Some(id), 0), Drive(env, st4, rest, Some(id), 1));
  }

  lemma TwoMore(x: Connection.Event, y: Connection.Event, t: Trace)
    ensures [x] + ([y] + t) == [x, y] + t
  {}

  lemma ReadsRequest(env: Env, ts0: Noise.Transport, next: RState, client: Option<Identity>, input: Wire, n: nat)
    requires 2 + n == |input|
    requires RRecv(RWantReqLen(ts0), input[..2]) == (RWantReqBody(ts0, n), Ok(()))
    requires RRecv(RWantReqBody(ts0, n), input[2..][..n]) == (next, Ok(()))
    ensures Drive(env, RWantReqLen(ts0), input, client, 1) == [Read(2), Read(n)] + Drive(env, next, [], client, 1)
  {
    TurnReads(env, RWantReqLen(ts0), RWantReqBody(ts0, n), input, client, 1, 2);
    DriveIs(env, RWantReqLen(ts0), input, client, 1);
    assert input[2..][n..] == [];
    TurnReads(env, RWantReqBody(ts0, n), next, input[2..], client, 1, n);
    DriveIs(env, RWantReqBody(ts0, n), input[2..], client, 1);
    TwoMore(Read(2), Read(n), Drive(env, next, [], client, 1));
  }

  /** From the decrypted request on: minted for, answered, closed. */
  lemma Serves(env: Env, ts: Noise.Transport, id: Identity, request: Bytes, r: Git.Request, text: Bytes, out: Wire)
    requires Admitted(env, Some(id), request) == Some(r) && Answer(env, r) == Some(text) && env.writeOk(1)
    requires RSetResponse(RAwaitingResponse(ts), text) == (RWriteResp(out), Ok(()))
    ensures Drive(env, RHaveRequest(ts, request), [], Some(id), 1) == [Asked, Minted(id, r.path), Sent(|out|), Close]
  {
    TurnMints(env, ts, id, request, r);
    DriveIs(env, RHaveRequest(ts, request), [], Some(id), 1);
    ConnectionSafety.WriteRespSilent(env, out, [], Some(id), 1);
  }

  lemma RequestServed(env: Env, p: SessionRun.Params, c: SessionScript.Script, r: Git.Request, text: Bytes)
    requires c == SessionCorrect.ScriptOf(p) && p.respond(p.request) == text && env.writeOk(1)
    requires SessionCorrect.RequestFits(p) && SessionCorrect.ResponseFits(p)
    requires Admitted(env, Some(p.id), p.request) == Some(r) && Answer(env, r) == Some(text)
    ensures Drive(env, RWantReqLen(Noise.Transport(c.chain, false, 0, 0)), c.f3, Some(p.id), 1)
         == [Read(2), Read(|c.f3| - 2)] + [Asked, Minted(p.id, r.path), Sent(|c.f4|), Close]
  {
    var ts0, ts1 := Noise.Transport(c.chain, false, 0, 0), Noise.Transport(c.chain, false, 0, 1);
    SecondFrame(p);
    ReadsRequest(env, ts0, RHaveRequest(ts1, p.request), Some(p.id), c.f3, |c.f3| - 2);
    SessionCorrect.SealsResponse(p);
    Serves(env, ts1, p.id, p.request, r, text, c.f4);
  }

  lemma ServedByScript(env: Env, p: SessionRun.Params, c: SessionScript.Script, r: Git.Request, text: Bytes)
    requires c == SessionCorrect.ScriptOf(p) && p.s == p.rs && p.er == env.er
    requires InOrder(env, p.id, p.lookup(p.id), p.request, r, text) && p.respond(p.request) == text
    ensures Run(env, p.s, SessionScript.FromI(c))
         == [Read(2), Read(|c.f1| - 2), Looked(p.id, true), Sent(|c.f2|)]
            + ([Read(2), Read(|c.f3| - 2)] + [Asked, Minted(p.id, r.path), Sent(|c.f4|), Close])
  {
    FirstFrame(p);
    SessionCorrect.SuppliesPsk(p);
    Greets(env, p.s, p.id, SessionScript.FromI(c), |c.f1| - 2, c.read1, c.chain, c.f2);
    RequestServed(env, p, c, r, text);
  }

  /** The other half of the mint gate: an enrolled client that holds its key and sends what the
      protocol asks of it, its frames being `c.f1` and `c.f3`, is recognised, minted for once, for the
      path it asked, and answered. */
  lemma EnrolledIsServed(env: Env, s: Secret, id: Identity, psk: Psk, e: Secret, request: Bytes, r: Git.Request,
                         text: Bytes,
                         c: SessionScript.Script)
    requires InOrder(env, id, psk, request, r, text)
    requires c == SessionCorrect.ScriptOf(Client(env, s, id, psk, e, request, text))
    ensures Run(env, s, c.f1 + c.f3)
         == [Read(2), Read(|c.f1| - 2), Looked(id, true), Sent(|c.f2|)]
            + ([Read(2), Read(|c.f3| - 2)] + [Asked, Minted(id, r.path), Sent(|c.f4|), Close])
  {
    ServedByScript(env, Client(env, s, id, psk, e, request, text), c, r, text);
  }

  // ----- the registry behind it --------------------------------------------

  /** The tables a connection may meet at point `j` of a registry run: those in memory, or those a start
      would load from any content a crash at that point may leave. */
  ghost predicate Met(t: Registry.Tables, state: Registry.State) {
    || t == state.tables
    || exists px, cx :: px in Registry.PsksLeft(state) && cx in Registry.ClientsLeft(state) && t == Registry.Loaded(px, cx)
  }

  lemma EnrolledIsMet(states: seq<Registry.State>, events: seq<Registry.Event>, i: nat, j: nat, op: nat,
                      id: Identity, psk: Psk, rec: ResolvedClient, t: Registry.Tables)
    requires Registry.IsRun(states, events) && i < j <= |events| && events[i] == Registry.Return(op, Registry.Enroll(id, psk, rec))
    requires forall k | i < k < j :: !(events[k].Lock? && events[k].op == Registry.Revoke(id))
    requires Met(t, states[j])
    ensures id in Registry.Authorised(t) && Registry.Authorised(t)[id] == psk
  {
    RegistrySafety.EnrolledStaysIn(states, events, i, j, op, id, psk, rec);
  }

  /** Enrolment takes effect: after an enrol returned Ok, and until a revoke of that client takes the mutex,
      the client is served with the key it was enrolled with, before or after a crash. */
  lemma EnrolledIsServedInRun(states: seq<Registry.State>, events: seq<Registry.Event>, i: nat, j: nat, op: nat,
                              id: Identity, psk: Psk, rec: ResolvedClient,
                              env: Env, s: Secret, e: Secret, request: Bytes, r: Git.Request, text: Bytes, c: SessionScript.Script)
    requires Registry.IsRun(states, events) && i < j <= |events| && events[i] == Registry.Return(op, Registry.Enroll(id, psk, rec))
    requires forall k | i < k < j :: !(events[k].Lock? && events[k].op == Registry.Revoke(id))
    requires Met(env.tables, states[j])
    requires Admitted(env, Some(id), request) == Some(r) && Answer(env, r) == Some(text)
    requires |request| + TAG_LEN <= MAX_MESSAGE_SIZE && |text| + TAG_LEN <= MAX_MESSAGE_SIZE && env.writeOk(0) && env.writeOk(1)
    requires c == SessionCorrect.ScriptOf(Client(env, s, id, psk, e, request, text))
    ensures Minted(id, r.path) in Run(env, s, c.f1 + c.f3) && Sent(|c.f4|) in Run(env, s, c.f1 + c.f3)
  {
    EnrolledIsMet(states, events, i, j, op, id, psk, rec, env.tables);
    EnrolledIsServed(env, s, id, psk, e, request, r, text, c);
    var t := Run(env, s, c.f1 + c.f3);
    assert t[7] == Minted(id, r.path) && t[8] == Sent(|c.f4|);
  }
}
