/** What every interleaving of a session achieves (src/transport.rs): the machines follow their
    scripts, so with matching keys the run cannot get stuck and delivers request and response
    unchanged, and without them the broker never sees a request. */
module SessionCorrect {
  import opened Prelude
  import opened Noise
  import opened Transport
  import opened SessionRun
  import opened SessionScript

  /** The broker holds the pinned static key, and both ends the same pre-shared key. */
  predicate Matches(p: Params) {
    p.s == p.rs && p.lookup(p.id) == p.psk
  }

  predicate RequestFits(p: Params) {
    |p.request| + TAG_LEN <= MAX_MESSAGE_SIZE
  }

  predicate ResponseFits(p: Params) {
    |p.respond(p.request)| + TAG_LEN <= MAX_MESSAGE_SIZE
  }

  function RChain(p: Params): Chain {
    ResponderChain(p.s, PublicKey(p.e), p.er, p.lookup(p.id))
  }

  function Read1(p: Params): Handshake {
    ResponderRead(p.s, PublicKey(p.e), Seal(InitiatorFirst(p.rs, p.e), EncodeTlv(p.id)), None)
  }

  function Message2(p: Params): Wire {
    PublicKey(p.er) + Seal(Second(p.s, Read1(p).ct1, RChain(p)), [])
  }

  function Message3(p: Params): Wire {
    Seal(Traffic(RChain(p), true, 0), p.request)
  }

  function Message4(p: Params): Wire {
    Seal(Traffic(RChain(p), false, 0), p.respond(p.request))
  }

  /** A message too long to frame is never sent; its place in the script is not reached. */
  function Framed(msg: Wire): (w: Wire)
    ensures |w| >= 2
    ensures |msg| <= MAX_MESSAGE_SIZE ==> Frame(msg) == Ok(w) && |w| == |msg| + 2
  {
    if |msg| <= MAX_MESSAGE_SIZE then Frame(msg).value else [Raw(0), Raw(0)]
  }

  function ScriptOf(p: Params): (c: Script)
    ensures WellFormed(c)
  {
    var (hs, msg1) := Message1(p);
    Script(p.s, p.id, hs, Read1(p), RChain(p), p.request, p.respond(p.request),
           Framed(msg1), Framed(Message2(p)), Framed(Message3(p)), Framed(Message4(p)),
           p.s == p.rs, p.lookup(p.id) == p.psk, RequestFits(p), ResponseFits(p))
  }

  // ----- the streams -------------------------------------------------------

  lemma HeadAndBody(msg: Wire, before: Wire, after: Wire)
    requires |msg| <= MAX_MESSAGE_SIZE
    ensures var w := before + Framed(msg) + after;
            && FrameLength(w[|before|..|before| + 2]) == |msg|
            && w[|before| + 2..|before| + 2 + |msg|] == msg
  {}

  lemma ClientStream(p: Params)
    ensures var c := ScriptOf(p); var w := FromI(c);
            && |Message1(p).1| <= MAX_MESSAGE_SIZE
            && FrameLength(w[0..2]) == |c.f1| - 2 && w[2..|c.f1|] == Message1(p).1
            && (RequestFits(p) ==> && FrameLength(w[|c.f1|..|c.f1| + 2]) == |c.f3| - 2
                                   && w[|c.f1| + 2..|c.f1| + |c.f3|] == Message3(p))
  {}

  lemma BrokerStream(p: Params)
    ensures var c := ScriptOf(p); var w := FromR(c);
            && |Message2(p)| <= MAX_MESSAGE_SIZE
            && FrameLength(w[0..2]) == |c.f2| - 2 && w[2..|c.f2|] == Message2(p)
            && (ResponseFits(p) ==> && FrameLength(w[|c.f2|..|c.f2| + 2]) == |c.f4| - 2
                                    && w[|c.f2| + 2..|c.f2| + |c.f4|] == Message4(p))
  {}

  // ----- what each machine makes of its stream ------------------------------

  /** Reading message 1: the identity comes out if and only if the broker holds the pinned key. */
  lemma ReadsIdentity(p: Params)
    ensures ReadIdentity(ResponderNew(p.s), Message1(p).1)
         == if p.s == p.rs then Ok((Read1(p), p.id)) else Err(HandshakeRead(Decrypt))
  {
    MessageOne(p.psk, p.rs, p.s, p.e, EncodeTlv(p.id));
    TlvCanonical([], p.id);
    assert EncodeTlv(p.id) + [] == EncodeTlv(p.id);
  }

  lemma SuppliesPsk(p: Params)
    ensures RSetPsk(RAwaitingPsk(Read1(p)), p.lookup(p.id), p.er)
         == (RWriteHs(Finished(RChain(p), false), Framed(Message2(p))), Ok(()))
  {}

  /** Reading message 2: accepted if and only if the pre-shared keys agree. */
  lemma FinishesHandshake(p: Params)
    requires p.s == p.rs
    ensures FinishHandshake(Message1(p).0, Message2(p), p.request)
         == if !Matches(p) then Err(HandshakeRead(Decrypt))
            else if RequestFits(p) then Ok((Noise.Transport(RChain(p), true, 1, 0), Framed(Message3(p))))
            else Err(TransportWrite(Input))
  {
    MessageTwo(p.psk, p.lookup(p.id), p.rs, p.e, p.er, Read1(p).ct1);
    assert Message1(p).0 == InitiatorSent(p.psk, p.rs, p.e, Read1(p).ct1);
  }

  lemma ReadsRequest(p: Params)
    requires RequestFits(p)
    ensures ReadTransport(Noise.Transport(RChain(p), false, 0, 0), Message3(p))
         == Ok((Noise.Transport(RChain(p), false, 0, 1), p.request))
  {
    TransportRoundTrip(Noise.Transport(RChain(p), true, 0, 0), Noise.Transport(RChain(p), false, 0, 0), p.request);
  }

  lemma ReadsResponse(p: Params)
    requires ResponseFits(p)
    ensures ReadTransport(Noise.Transport(RChain(p), true, 1, 0), Message4(p))
         == Ok((Noise.Transport(RChain(p), true, 1, 1), p.respond(p.request)))
  {
    TransportRoundTrip(Noise.Transport(RChain(p), false, 0, 1), Noise.Transport(RChain(p), true, 1, 0),
        p.respond(p.request));
  }

  /** The response is sealed and framed, unless it does not fit. */
  lemma SealsResponse(p: Params)
    ensures var ts := Noise.Transport(RChain(p), false, 0, 1);
            var (st, ok) := RSetResponse(RAwaitingResponse(ts), p.respond(p.request));
            if ResponseFits(p) then (st, ok) == (RWriteResp(Framed(Message4(p))), Ok(())) else ok.Err? && !IsMisuse(ok.error)
  {}

  /** What the broker's machine makes of the bytes the script gives it at a reading place. */
  function RReply(p: Params, at: Place): (RState, RDriver)
    requires RPlace(ScriptOf(p), at) && at.k in {1, 3, 9, 11} && RRead(ScriptOf(p), Place(at.k + 1, 0)) <= |FromI(ScriptOf(p))|
  {
    var c := ScriptOf(p);
    AfterRCall(RRecv(RConf(c, at).0, FromI(c)[RRead(c, at)..RRead(c, Place(at.k + 1, 0))]))
  }

  lemma RReceivesLength(p: Params, at: Place)
    requires RPlace(ScriptOf(p), at) && at.k in {1, 9} && (at.k == 9 ==> Matches(p) && RequestFits(p))
    ensures var c := ScriptOf(p); var next := Place(at.k + 1, 0); RPlace(c, next) && RReply(p, at) == RConf(c, next)
  {
    ClientStream(p);
  }

  lemma RReceivesIdentity(p: Params, at: Place)
    requires RPlace(ScriptOf(p), at) && at.k == 3
    ensures var c := ScriptOf(p); var next := Place(4, 0);
            if p.s != p.rs then RReply(p, at).1.RBroken? else RPlace(c, next) && RReply(p, at) == RConf(c, next)
  {
    ClientStream(p);
    ReadsIdentity(p);
  }

  lemma RReceivesRequest(p: Params, at: Place)
    requires RPlace(ScriptOf(p), at) && at.k == 11 && Matches(p) && RequestFits(p)
    ensures var c := ScriptOf(p); var next := Place(12, 0); RPlace(c, next) && RReply(p, at) == RConf(c, next)
  {
    ClientStream(p);
    ReadsRequest(p);
  }

  /** The broker's reads: each lands on the next place of the script, except that a broker without
      the pinned key fails on message 1. */
  lemma RReceives(p: Params, at: Place)
    requires RPlace(ScriptOf(p), at) && at.k in {1, 3, 9, 11} && (at.k >= 9 ==> Matches(p) && RequestFits(p))
    ensures var c := ScriptOf(p); var next := Place(at.k + 1, 0);
            if at.k == 3 && p.s != p.rs then RReply(p, at).1.RBroken? else RPlace(c, next) && RReply(p, at) == RConf(c, next)
  {
    if at.k == 3 {
      RReceivesIdentity(p, at);
    } else if at.k == 11 {
      RReceivesRequest(p, at);
    } else {
      RReceivesLength(p, at);
    }
  }

  /** The client's reads: it fails on message 2 unless the pre-shared keys agree. */
  lemma IReceives(p: Params, at: Place)
    requires IPlace(ScriptOf(p), at) && at.k in {3, 5, 9, 11} && p.s == p.rs && (at.k >= 9 ==> ResponseFits(p))
    ensures var c := ScriptOf(p); var next := Place(at.k + 1, 0);
            var reply := AfterICall(IRecv(IConf(c, at).0, FromR(c)[IRead(c, at)..IRead(c, next)]));
            if at.k == 5 && !(Matches(p) && RequestFits(p)) then reply.1.IBroken? else IPlace(c, next) && reply == IConf(c, next)
  {
    BrokerStream(p);
    if at.k == 5 {
      FinishesHandshake(p);
    } else if at.k == 11 {
      ReadsResponse(p);
    }
  }

  lemma RSteps(p: Params, at: Place)
    requires RPlace(ScriptOf(p), at)
    ensures var c := ScriptOf(p);
            RConf(c, at).1.RLoop? ==>
              && at.k in {0, 2, 4, 6, 8, 10, 12, 14, 16} && RPlace(c, Place(at.k + 1, 0))
              && AfterRStep(RConf(c, at).0) == RConf(c, Place(at.k + 1, 0))
  {
    var c := ScriptOf(p);
    assert c.f2[0..] == c.f2 && c.f4[0..] == c.f4;
  }

  lemma ISteps(p: Params, at: Place)
    requires IPlace(ScriptOf(p), at)
    ensures var c := ScriptOf(p);
            IConf(c, at).1.ILoop? ==>
              && at.k in {0, 2, 4, 6, 8, 10, 12} && IPlace(c, Place(at.k + 1, 0))
              && AfterIStep(IConf(c, at).0) == IConf(c, Place(at.k + 1, 0))
  {}

  // ----- one move ----------------------------------------------------------

  /** A move either breaks a side, which takes mismatched keys or an oversized body, or carries the
      run further along. */
  ghost predicate Progress(p: Params, s': Sys, ra: Place, ia: Place, ra': Place, ia': Place)
  {
    var c := ScriptOf(p);
    && Inv(c, s', ra', ia')
    && (Rank(c, ra', ia') > Rank(c, ra, ia) || !(Matches(p) && RequestFits(p) && ResponseFits(p)))
  }

  /** No side is broken in a session whose keys match and whose bodies fit. */
  ghost predicate Intact(p: Params, s: Sys) {
    Matches(p) && RequestFits(p) && ResponseFits(p) ==> !s.rd.RBroken? && !s.id.IBroken?
  }

  lemma RTakeMove(p: Params, s: Sys, ra: Place, ia: Place) returns (ra': Place)
    requires Inv(ScriptOf(p), s, ra, ia) && Enabled(s, RTake) && Intact(p, s)
    ensures Progress(p, Apply(p, s, RTake), ra, ia, ra', ia) && Intact(p, Apply(p, s, RTake))
  {
    var c := ScriptOf(p);
    RTakeKeeps(c, p, s, ra, ia);
    RReceives(p, ra);
    ra' := if ra.k == 3 && p.s != p.rs then ra else Place(ra.k + 1, 0);
    assert RSent(c, Place(ra.k + 1, 0)) == RSent(c, ra);
  }

  lemma ITakeMove(p: Params, s: Sys, ra: Place, ia: Place) returns (ia': Place)
    requires Inv(ScriptOf(p), s, ra, ia) && Enabled(s, ITake) && Intact(p, s)
    ensures Progress(p, Apply(p, s, ITake), ra, ia, ra, ia') && Intact(p, Apply(p, s, ITake))
  {
    var c := ScriptOf(p);
    ITakeKeeps(c, p, s, ra, ia);
    IReceives(p, ia);
    ia' := if ia.k == 5 && !(Matches(p) && RequestFits(p)) then ia else Place(ia.k + 1, 0);
    assert ISent(c, Place(ia.k + 1, 0)) == ISent(c, ia);
  }

  lemma RAskMove(p: Params, s: Sys, ra: Place, ia: Place) returns (ra': Place)
    requires Inv(ScriptOf(p), s, ra, ia) && Enabled(s, RAsk) && Intact(p, s)
    ensures Progress(p, Apply(p, s, RAsk), ra, ia, ra', ia) && Intact(p, Apply(p, s, RAsk))
  {
    RSteps(p, ra);
    RStays(ScriptOf(p), ra);
    ra' := Place(ra.k + 1, 0);
    assert (ra'.k == 13) == RConf(ScriptOf(p), ra').1.RHandling?;
  }

  lemma IAskMove(p: Params, s: Sys, ra: Place, ia: Place) returns (ia': Place)
    requires Inv(ScriptOf(p), s, ra, ia) && Enabled(s, IAsk) && Intact(p, s)
    ensures Progress(p, Apply(p, s, IAsk), ra, ia, ra, ia') && Intact(p, Apply(p, s, IAsk))
  {
    ISteps(p, ia);
    IStays(ScriptOf(p), ia);
    ia' := Place(ia.k + 1, 0);
  }

  lemma RSupplyMove(p: Params, s: Sys, ra: Place, ia: Place) returns (ra': Place)
    requires Inv(ScriptOf(p), s, ra, ia) && Enabled(s, RSupply) && Intact(p, s)
    ensures Progress(p, Apply(p, s, RSupply), ra, ia, ra', ia) && Intact(p, Apply(p, s, RSupply))
  {
    assert ra.k == 5;
    SuppliesPsk(p);
    ra' := Place(6, 0);
  }

  lemma RAckMove(p: Params, s: Sys, ra: Place, ia: Place) returns (ra': Place)
    requires Inv(ScriptOf(p), s, ra, ia) && Enabled(s, RAck) && Intact(p, s)
    ensures Progress(p, Apply(p, s, RAck), ra, ia, ra', ia) && Intact(p, Apply(p, s, RAck))
  {
    var c := ScriptOf(p);
    RKinds(c, ra);
    assert |RFrame(c, ra.k)[ra.w..]| == 0;
    RStays(c, ra);
    ra' := Place(ra.k + 1, 0);
  }

  lemma IAckMove(p: Params, s: Sys, ra: Place, ia: Place) returns (ia': Place)
    requires Inv(ScriptOf(p), s, ra, ia) && Enabled(s, IAck) && Intact(p, s)
    ensures Progress(p, Apply(p, s, IAck), ra, ia, ra, ia') && Intact(p, Apply(p, s, IAck))
  {
    var c := ScriptOf(p);
    IKinds(c, ia);
    assert |IFrame(c, ia.k)[ia.w..]| == 0;
    IStays(c, ia);
    ia' := Place(ia.k + 1, 0);
  }

  lemma RAnswerMove(p: Params, s: Sys, ra: Place, ia: Place) returns (ra': Place)
    requires Inv(ScriptOf(p), s, ra, ia) && Enabled(s, RAnswer) && Intact(p, s)
    ensures Progress(p, Apply(p, s, RAnswer), ra, ia, ra', ia) && Intact(p, Apply(p, s, RAnswer))
  {
    assert ra.k == 13;
    SealsResponse(p);
    ra' := if ResponseFits(p) then Place(14, 0) else ra;
    var (c, s') := (ScriptOf(p), Apply(p, s, RAnswer));
    assert (s'.r, s'.rd) == AfterRCall(RSetResponse(RAwaitingResponse(Noise.Transport(c.chain, false, 0, 1)), c.response));
    RMoved(c, s, ra, ia, s'.r, s'.rd, s.toR, ra');
  }

  lemma MoveKeeps(p: Params, s: Sys, ra: Place, ia: Place, m: Move) returns (ra': Place, ia': Place)
    requires Inv(ScriptOf(p), s, ra, ia) && Enabled(s, m) && Intact(p, s)
    ensures Progress(p, Apply(p, s, m), ra, ia, ra', ia') && Intact(p, Apply(p, s, m))
  {
    ra', ia' := ra, ia;
    match m
    case RAsk => ra' := RAskMove(p, s, ra, ia);
    case RTake => ra' := RTakeMove(p, s, ra, ia);
    case RSupply => ra' := RSupplyMove(p, s, ra, ia);
    case RPush(k) => ra' := RPushKeeps(ScriptOf(p), p, s, ra, ia, k);
    case RAck => ra' := RAckMove(p, s, ra, ia);
    case RAnswer => ra' := RAnswerMove(p, s, ra, ia);
    case IAsk => ia' := IAskMove(p, s, ra, ia);
    case ITake => ia' := ITakeMove(p, s, ra, ia);
    case IPush(k) => ia' := IPushKeeps(ScriptOf(p), p, s, ra, ia, k);
    case IAck => ia' := IAckMove(p, s, ra, ia);
  }

  // ----- whole runs --------------------------------------------------------

  predicate Goes(p: Params) {
    Matches(p) && RequestFits(p) && ResponseFits(p)
  }

  lemma StartHolds(p: Params)
    ensures Inv(ScriptOf(p), Start(p), Place(0, 0), Place(0, 0))
  {}

  lemma {:induction false} RunPlaces(p: Params, states: seq<Sys>, moves: seq<Move>, j: nat)
    returns (ra: Place, ia: Place)
    requires IsRun(p, states, moves) && j < |states|
    ensures Inv(ScriptOf(p), states[j], ra, ia) && Intact(p, states[j])
    ensures Goes(p) ==> Rank(ScriptOf(p), ra, ia) >= j
  {
    if j == 0 {
      StartHolds(p);
      ra, ia := Place(0, 0), Place(0, 0);
    } else {
      var ra0, ia0 := RunPlaces(p, states, moves, j - 1);
      ra, ia := MoveKeeps(p, states[j - 1], ra0, ia0, moves[j - 1]);
    }
  }

  /** The broker sees a request only from a client that pinned its static key and used the very key
      its driver supplied for that identity; it then sees that client's request, once, unchanged. */
  lemma RequestIsAuthentic(p: Params, states: seq<Sys>, moves: seq<Move>, j: nat)
    requires IsRun(p, states, moves) && j < |states|
    ensures states[j].requests != [] ==> Matches(p) && states[j].requests == [p.request]
  {
    var ra, ia := RunPlaces(p, states, moves, j);
  }

  /** A client that ends with a response got the broker's answer to its own request. */
  lemma ResponseIsAuthentic(p: Params, states: seq<Sys>, moves: seq<Move>, j: nat)
    requires IsRun(p, states, moves) && j < |states| && states[j].id.IClosed?
    ensures Matches(p) && states[j].id.response == p.respond(p.request) && states[j].requests == [p.request]
  {
    var ra, ia := RunPlaces(p, states, moves, j);
    var c := ScriptOf(p);
    assert ia.k == 13;
    assert IRead(c, ia) == |c.f2| + |c.f4|;
  }

  lemma RankIsBounded(c: Script, ra: Place, ia: Place)
    requires WellFormed(c) && RPlace(c, ra) && IPlace(c, ia)
    ensures Rank(c, ra, ia) <= RankBound(c)
  {}

  /** With matching keys and bodies that fit, every run is finite, however it is scheduled and into
      whatever pieces the writes are cut. */
  lemma RunsAreBounded(p: Params, states: seq<Sys>, moves: seq<Move>)
    requires IsRun(p, states, moves) && Goes(p)
    ensures |moves| <= RankBound(ScriptOf(p))
  {
    var ra, ia := RunPlaces(p, states, moves, |moves|);
    RankIsBounded(ScriptOf(p), ra, ia);
  }

  /** A driver that is neither finished nor waiting for bytes can always go on. */
  lemma RCanGo(s: Sys)
    requires !s.rd.RClosed? && !s.rd.RBroken? && !s.rd.RReading?
    ensures exists m :: Enabled(s, m)
  {
    match s.rd
    case RLoop => assert Enabled(s, RAsk);
    case RLookup(_) => assert Enabled(s, RSupply);
    case RWriting(rest) => assert Enabled(s, if rest == [] then RAck else RPush(1));
    case RHandling(_) => assert Enabled(s, RAnswer);
  }

  lemma ICanGo(s: Sys)
    requires !s.id.IClosed? && !s.id.IBroken? && !s.id.IReading?
    ensures exists m :: Enabled(s, m)
  {
    match s.id
    case ILoop => assert Enabled(s, IAsk);
    case IWriting(rest) => assert Enabled(s, if rest == [] then IAck else IPush(1));
  }

  /** Never are both sides waiting for bytes the other has not sent. */
  lemma NoDeadlock(c: Script, s: Sys, ra: Place, ia: Place)
    requires Inv(c, s, ra, ia) && !s.rd.RBroken? && !s.id.IBroken?
    ensures (s.rd.RClosed? && s.id.IClosed?) || exists m :: Enabled(s, m)
  {
    RKinds(c, ra);
    IKinds(c, ia);
    if !s.rd.RClosed? && !s.rd.RReading? {
      RCanGo(s);
    } else if !s.id.IClosed? && !s.id.IReading? {
      ICanGo(s);
    } else if s.rd.RReading? && s.rd.n <= |s.toR| {
      assert Enabled(s, RTake);
    } else if s.id.IReading? && s.id.n <= |s.toI| {
      assert Enabled(s, ITake);
    }
  }

  lemma BothClosed(c: Script, s: Sys, ra: Place, ia: Place)
    requires Inv(c, s, ra, ia) && s.rd.RClosed? && s.id.IClosed?
    ensures s.r == RDone && s.requests == [c.request] && s.id == IClosed(c.response) && s.toR == [] && s.toI == []
  {
    assert ra.k == 17 && ia.k == 13;
  }

  /** A run that can go no further is a completed session: both ends are done, the broker saw
      exactly the client's request, and the client holds exactly the broker's answer. */
  lemma SessionCompletes(p: Params, states: seq<Sys>, moves: seq<Move>)
    requires IsRun(p, states, moves) && Goes(p)
    ensures var s := states[|moves|];
            || (exists m :: Enabled(s, m))
            || (&& s.rd == RClosed && s.r == RDone && s.requests == [p.request]
                && s.id == IClosed(p.respond(p.request)) && s.toR == [] && s.toI == [])
  {
    var ra, ia := RunPlaces(p, states, moves, |moves|);
    var c, s := ScriptOf(p), states[|moves|];
    NoDeadlock(c, s, ra, ia);
    if s.rd.RClosed? && s.id.IClosed? {
      BothClosed(c, s, ra, ia);
    }
  }
}
