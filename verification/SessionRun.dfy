/** A whole session: `Responder` and `Initiator` (src/transport.rs), each behind a driver that
    reads exactly what it is asked to (src/daemon.rs, src/bin/git_credential_symbolon.rs), over two
    first-in first-out byte wires, interleaved in every possible way. */
module SessionRun {
  import opened Prelude
  import opened Identities
  import opened PskStores
  import opened Noise
  import opened Transport

  /** The client's identity, key, pinned broker key, ephemeral key and request; the broker's static
      key, ephemeral key, the key its driver supplies for an identity, and how it answers. */
  datatype Params = Params(id: Identity, psk: Psk, rs: Secret, e: Secret, request: Bytes,
                           s: Secret, er: Secret, lookup: Identity -> Psk, respond: Bytes -> Bytes)

  datatype RDriver =
    | RLoop
    | RReading(n: nat)
    | RLookup(identity: Identity)
    | RWriting(rest: Wire)
    | RHandling(request: Bytes)
    | RClosed
    | RBroken(error: SessionError)

  datatype IDriver =
    | ILoop
    | IReading(n: nat)
    | IWriting(rest: Wire)
    | IClosed(response: Bytes)
    | IBroken(error: SessionError)

  datatype Sys = Sys(r: RState, rd: RDriver, i: IState, id: IDriver, toR: Wire, toI: Wire, requests: seq<Bytes>)

  datatype Move = RAsk | RTake | RSupply | RPush(k: nat) | RAck | RAnswer | IAsk | ITake | IPush(k: nat) | IAck

  function AfterRStep(r: RState): (RState, RDriver) {
    var (r', got) := RStep(r);
    match got
    case Err(e) => (r', RBroken(e))
    case Ok(ReadExact(n)) => (r', RReading(n))
    case Ok(NeedPsk(id)) => (r', RLookup(id))
    case Ok(Write(bytes)) => (r', RWriting(bytes))
    case Ok(Request(q)) => (r', RHandling(q))
    case Ok(Done) => (r', RClosed)
  }

  function AfterRCall(reply: Reply<RState, ()>): (RState, RDriver) {
    (reply.0, if reply.1.Ok? then RLoop else RBroken(reply.1.error))
  }

  /** The client's loop takes the response out as soon as the machine is done; the two steps only a
      responder emits end it. */
  function AfterIStep(i: IState): (IState, IDriver) {
    var (i', got) := IStep(i);
    match got
    case Err(e) => (i', IBroken(e))
    case Ok(ReadExact(n)) => (i', IReading(n))
    case Ok(Write(bytes)) => (i', IWriting(bytes))
    case Ok(Done) =>
      (match ITakeResponse(i')
       case (i'', Ok(p)) => (i'', IClosed(p))
       case (i'', Err(e)) => (i'', IBroken(e)))
    case Ok(_) => (i', IBroken(WrongState(StepM)))
  }

  function AfterICall(reply: Reply<IState, ()>): (IState, IDriver) {
    (reply.0, if reply.1.Ok? then ILoop else IBroken(reply.1.error))
  }

  predicate Enabled(s: Sys, m: Move) {
    match m
    case RAsk => s.rd.RLoop?
    case RTake => s.rd.RReading? && |s.toR| >= s.rd.n
    case RSupply => s.rd.RLookup?
    case RPush(k) => s.rd.RWriting? && 1 <= k <= |s.rd.rest|
    case RAck => s.rd == RWriting([])
    case RAnswer => s.rd.RHandling?
    case IAsk => s.id.ILoop?
    case ITake => s.id.IReading? && |s.toI| >= s.id.n
    case IPush(k) => s.id.IWriting? && 1 <= k <= |s.id.rest|
    case IAck => s.id == IWriting([])
  }

  function Apply(p: Params, s: Sys, m: Move): Sys
    requires Enabled(s, m)
  {
    match m
    case RAsk =>
      var (r', rd') := AfterRStep(s.r);
      s.(r := r', rd := rd', requests := if rd'.RHandling? then s.requests + [rd'.request] else s.requests)
    case RTake =>
      var (r', rd') := AfterRCall(RRecv(s.r, s.toR[..s.rd.n]));
      s.(r := r', rd := rd', toR := s.toR[s.rd.n..])
    case RSupply =>
      var (r', rd') := AfterRCall(RSetPsk(s.r, p.lookup(s.rd.identity), p.er));
      s.(r := r', rd := rd')
    case RPush(k) => s.(toI := s.toI + s.rd.rest[..k], rd := RWriting(s.rd.rest[k..]))
    case RAck =>
      var (r', rd') := AfterRCall(RWrote(s.r));
      s.(r := r', rd := rd')
    case RAnswer =>
      var (r', rd') := AfterRCall(RSetResponse(s.r, p.respond(s.rd.request)));
      s.(r := r', rd := rd')
    case IAsk =>
      var (i', id') := AfterIStep(s.i);
      s.(i := i', id := id')
    case ITake =>
      var (i', id') := AfterICall(IRecv(s.i, s.toI[..s.id.n]));
      s.(i := i', id := id', toI := s.toI[s.id.n..])
    case IPush(k) => s.(toR := s.toR + s.id.rest[..k], id := IWriting(s.id.rest[k..]))
    case IAck =>
      var (i', id') := AfterICall(IWrote(s.i));
      s.(i := i', id := id')
  }

  /** Message 1 is small enough to build whatever the parameters. */
  function Message1(p: Params): (Handshake, Wire) {
    WriteHandshake(InitiatorNew(p.psk, p.rs), EncodeTlv(p.id), p.e).value
  }

  function Start(p: Params): Sys {
    var (hs, msg1) := Message1(p);
    Sys(RWantHsLen(ResponderNew(p.s)), RLoop, IWriteHs1(hs, Frame(msg1).value, p.request), ILoop, [], [], [])
  }

  lemma StartIsNew(p: Params)
    ensures INew(p.id, p.psk, p.rs, p.request, p.e) == Ok(Start(p).i)
  {}

  ghost predicate IsRun(p: Params, states: seq<Sys>, moves: seq<Move>)
  {
    && |states| == |moves| + 1 && states[0] == Start(p)
    && forall i | 0 <= i < |moves| :: Enabled(states[i], moves[i]) && states[i + 1] == Apply(p, states[i], moves[i])
  }

  // ----- drivers and machines never misunderstand each other ----------------

  ghost predicate RDisciplined(r: RState, rd: RDriver)
  {
    match rd
    case RLoop => RStep(r).1.Ok?
    case RReading(n) => RStep(r).1 == Ok(ReadExact(n))
    case RLookup(_) => r.RAwaitingPsk?
    case RWriting(_) => r.RWroteHsPending? || r.RWroteRespPending?
    case RHandling(_) => r.RAwaitingResponse?
    case RClosed => r.RDone?
    case RBroken(e) => !IsMisuse(e)
  }

  ghost predicate IDisciplined(i: IState, id: IDriver)
  {
    match id
    case ILoop => IStep(i).1.Ok?
    case IReading(n) => IStep(i).1 == Ok(ReadExact(n))
    case IWriting(_) => i.IWroteHs1Pending? || i.IWroteReqPending?
    case IClosed(_) => i.IDrained?
    case IBroken(e) => !IsMisuse(e)
  }

  predicate IsBrokers(m: Move) {
    m.RAsk? || m.RTake? || m.RSupply? || m.RPush? || m.RAck? || m.RAnswer?
  }

  lemma BrokerMoveDisciplined(p: Params, s: Sys, m: Move)
    requires RDisciplined(s.r, s.rd) && Enabled(s, m) && IsBrokers(m)
    ensures RDisciplined(Apply(p, s, m).r, Apply(p, s, m).rd)
    ensures (Apply(p, s, m).i, Apply(p, s, m).id) == (s.i, s.id)
  {}

  lemma ClientMoveDisciplined(p: Params, s: Sys, m: Move)
    requires IDisciplined(s.i, s.id) && Enabled(s, m) && !IsBrokers(m)
    ensures IDisciplined(Apply(p, s, m).i, Apply(p, s, m).id)
    ensures (Apply(p, s, m).r, Apply(p, s, m).rd) == (s.r, s.rd)
  {}

  /** Whatever is on the wires, one more move keeps both pairings in step: no `RecvLen`, no
      `WrongState`, against any peer. */
  lemma MoveKeepsDiscipline(p: Params, s: Sys, m: Move)
    requires RDisciplined(s.r, s.rd) && IDisciplined(s.i, s.id) && Enabled(s, m)
    ensures RDisciplined(Apply(p, s, m).r, Apply(p, s, m).rd) && IDisciplined(Apply(p, s, m).i, Apply(p, s, m).id)
  {
    if IsBrokers(m) {
      BrokerMoveDisciplined(p, s, m);
    } else {
      ClientMoveDisciplined(p, s, m);
    }
  }

  lemma {:induction false} NoMisuse(p: Params, states: seq<Sys>, moves: seq<Move>, j: nat)
    requires IsRun(p, states, moves) && j < |states|
    ensures RDisciplined(states[j].r, states[j].rd) && IDisciplined(states[j].i, states[j].id)
    ensures states[j].rd.RBroken? ==> !IsMisuse(states[j].rd.error)
    ensures states[j].id.IBroken? ==> !IsMisuse(states[j].id.error)
  {
    if j > 0 {
      NoMisuse(p, states, moves, j - 1);
      MoveKeepsDiscipline(p, states[j - 1], moves[j - 1]);
    }
  }
}
