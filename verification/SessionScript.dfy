/** The two sides of a session as scripts over fixed streams (src/transport.rs). A side's place in
    its script fixes its machine, its driver, and how much of either stream it has sent or read; a
    wire holds exactly the part of a stream between the two places. Nothing here depends on what
    the frames contain. */
module SessionScript {
  import opened Prelude
  import opened Identities
  import opened Noise
  import opened Transport
  import opened SessionRun

  /** `f1`..`f4` are the four frames of a session; the flags say how far it can get. */
  datatype Script = Script(
    s: Secret, id: Identity, hs: Handshake, read1: Handshake, chain: Chain, request: Bytes, response: Bytes,
    f1: Wire, f2: Wire, f3: Wire, f4: Wire,
    keyOk: bool, pskOk: bool, requestFits: bool, responseFits: bool)

  predicate WellFormed(c: Script) {
    |c.f1| >= 2 && |c.f2| >= 2 && |c.f3| >= 2 && |c.f4| >= 2
  }

  /** All the client ever sends, and all the broker ever sends. */
  function FromI(c: Script): Wire { c.f1 + c.f3 }

  function FromR(c: Script): Wire { c.f2 + c.f4 }

  /** The step of a script, and how much of the frame being written is out. */
  datatype Place = Place(k: nat, w: nat)

  predicate RPlace(c: Script, at: Place) {
    && at.k <= 17
    && (if at.k == 7 then at.w <= |c.f2| else if at.k == 15 then at.w <= |c.f4| else at.w == 0)
    && (at.k >= 4 ==> c.keyOk)
    && (at.k >= 10 ==> c.pskOk && c.requestFits)
    && (at.k >= 14 ==> c.responseFits)
  }

  predicate IPlace(c: Script, at: Place) {
    && at.k <= 13
    && (if at.k == 1 then at.w <= |c.f1| else if at.k == 7 then at.w <= |c.f3| else at.w == 0)
    && (at.k >= 4 ==> c.keyOk)
    && (at.k >= 6 ==> c.pskOk && c.requestFits)
    && (at.k >= 10 ==> c.responseFits)
  }

  function RConf(c: Script, at: Place): (RState, RDriver)
    requires WellFormed(c) && RPlace(c, at)
  {
    var ts0 := Noise.Transport(c.chain, false, 0, 0);
    var ts1 := Noise.Transport(c.chain, false, 0, 1);
    match at.k
    case 0 => (RWantHsLen(ResponderNew(c.s)), RLoop)
    case 1 => (RWantHsLen(ResponderNew(c.s)), RReading(2))
    case 2 => (RWantHsBody(ResponderNew(c.s), |c.f1| - 2), RLoop)
    case 3 => (RWantHsBody(ResponderNew(c.s), |c.f1| - 2), RReading(|c.f1| - 2))
    case 4 => (RNeedPsk(c.read1, c.id), RLoop)
    case 5 => (RAwaitingPsk(c.read1), RLookup(c.id))
    case 6 => (RWriteHs(Finished(c.chain, false), c.f2), RLoop)
    case 7 => (RWroteHsPending(Finished(c.chain, false)), RWriting(c.f2[at.w..]))
    case 8 => (RWantReqLen(ts0), RLoop)
    case 9 => (RWantReqLen(ts0), RReading(2))
    case 10 => (RWantReqBody(ts0, |c.f3| - 2), RLoop)
    case 11 => (RWantReqBody(ts0, |c.f3| - 2), RReading(|c.f3| - 2))
    case 12 => (RHaveRequest(ts1, c.request), RLoop)
    case 13 => (RAwaitingResponse(ts1), RHandling(c.request))
    case 14 => (RWriteResp(c.f4), RLoop)
    case 15 => (RWroteRespPending, RWriting(c.f4[at.w..]))
    case 16 => (RDone, RLoop)
    case _ => (RDone, RClosed)
  }

  function IConf(c: Script, at: Place): (IState, IDriver)
    requires WellFormed(c) && IPlace(c, at)
  {
    var ts := Noise.Transport(c.chain, true, 1, 0);
    match at.k
    case 0 => (IWriteHs1(c.hs, c.f1, c.request), ILoop)
    case 1 => (IWroteHs1Pending(c.hs, c.request), IWriting(c.f1[at.w..]))
    case 2 => (IWantHs2Len(c.hs, c.request), ILoop)
    case 3 => (IWantHs2Len(c.hs, c.request), IReading(2))
    case 4 => (IWantHs2Body(c.hs, |c.f2| - 2, c.request), ILoop)
    case 5 => (IWantHs2Body(c.hs, |c.f2| - 2, c.request), IReading(|c.f2| - 2))
    case 6 => (IWriteReq(ts, c.f3), ILoop)
    case 7 => (IWroteReqPending(ts), IWriting(c.f3[at.w..]))
    case 8 => (IWantRespLen(ts), ILoop)
    case 9 => (IWantRespLen(ts), IReading(2))
    case 10 => (IWantRespBody(ts, |c.f4| - 2), ILoop)
    case 11 => (IWantRespBody(ts, |c.f4| - 2), IReading(|c.f4| - 2))
    case 12 => (IDone(c.response), ILoop)
    case _ => (IDrained, IClosed(c.response))
  }

  function RRead(c: Script, at: Place): nat {
    if at.k < 2 then 0 else if at.k < 4 then 2 else if at.k < 10 then |c.f1|
    else if at.k < 12 then |c.f1| + 2 else |c.f1| + |c.f3|
  }

  function RSent(c: Script, at: Place): nat {
    if at.k < 7 then 0 else if at.k == 7 then at.w else if at.k < 15 then |c.f2|
    else if at.k == 15 then |c.f2| + at.w else |c.f2| + |c.f4|
  }

  function IRead(c: Script, at: Place): nat {
    if at.k < 4 then 0 else if at.k < 6 then 2 else if at.k < 10 then |c.f2|
    else if at.k < 12 then |c.f2| + 2 else |c.f2| + |c.f4|
  }

  function ISent(c: Script, at: Place): nat {
    if at.k < 1 then 0 else if at.k == 1 then at.w else if at.k < 7 then |c.f1|
    else if at.k == 7 then |c.f1| + at.w else |c.f1| + |c.f3|
  }

  ghost predicate RSide(c: Script, r: RState, rd: RDriver, at: Place) {
    WellFormed(c) && RPlace(c, at) && (rd.RBroken? || (r, rd) == RConf(c, at))
  }

  ghost predicate ISide(c: Script, i: IState, id: IDriver, at: Place) {
    WellFormed(c) && IPlace(c, at) && (id.IBroken? || (i, id) == IConf(c, at))
  }

  /** A wire between a reader that has read `read` bytes of the stream and a writer that has sent
      `sent`; nobody reads it once the reader is broken. */
  ghost predicate Between(stream: Wire, wire: Wire, read: nat, sent: nat, broken: bool) {
    read <= sent <= |stream| && (broken || wire == stream[read..sent])
  }

  /** A broken side stays where it was. */
  ghost predicate Inv(c: Script, s: Sys, ra: Place, ia: Place)
  {
    && RSide(c, s.r, s.rd, ra) && ISide(c, s.i, s.id, ia)
    && Between(FromI(c), s.toR, RRead(c, ra), ISent(c, ia), s.rd.RBroken?)
    && Between(FromR(c), s.toI, IRead(c, ia), RSent(c, ra), s.id.IBroken?)
    && s.requests == (if ra.k >= 13 then [c.request] else [])
  }

  /** How far a run has come: script steps taken plus bytes sent. */
  function Rank(c: Script, ra: Place, ia: Place): nat {
    ra.k + ia.k + RSent(c, ra) + ISent(c, ia)
  }

  function RankBound(c: Script): nat {
    30 + |FromI(c)| + |FromR(c)|
  }

  // ----- places ------------------------------------------------------------

  function RFrame(c: Script, k: nat): Wire { if k == 7 then c.f2 else c.f4 }

  function IFrame(c: Script, k: nat): Wire { if k == 1 then c.f1 else c.f3 }

  function RBefore(c: Script, k: nat): nat { if k == 7 then 0 else |c.f2| }

  function IBefore(c: Script, k: nat): nat { if k == 1 then 0 else |c.f1| }

  /** Which places read, which write, and what. */
  lemma RKinds(c: Script, at: Place)
    requires WellFormed(c) && RPlace(c, at)
    ensures RConf(c, at).1.RReading? <==> at.k in {1, 3, 9, 11}
    ensures at.k in {1, 3, 9, 11} ==> RConf(c, at).1 == RReading(RRead(c, Place(at.k + 1, 0)) - RRead(c, at))
    ensures RConf(c, at).1.RWriting? <==> at.k in {7, 15}
    ensures at.k in {7, 15} ==>
              && at.w <= |RFrame(c, at.k)| && RConf(c, at).1.rest == RFrame(c, at.k)[at.w..]
              && RSent(c, at) == RBefore(c, at.k) + at.w
  {}

  lemma IKinds(c: Script, at: Place)
    requires WellFormed(c) && IPlace(c, at)
    ensures IConf(c, at).1.IReading? <==> at.k in {3, 5, 9, 11}
    ensures at.k in {3, 5, 9, 11} ==> IConf(c, at).1 == IReading(IRead(c, Place(at.k + 1, 0)) - IRead(c, at))
    ensures IConf(c, at).1.IWriting? <==> at.k in {1, 7}
    ensures at.k in {1, 7} ==>
              && at.w <= |IFrame(c, at.k)| && IConf(c, at).1.rest == IFrame(c, at.k)[at.w..]
              && ISent(c, at) == IBefore(c, at.k) + at.w
  {}

  lemma RPushed(c: Script, at: Place, k: nat)
    requires WellFormed(c) && RPlace(c, at) && at.k in {7, 15} && at.w + k <= |RFrame(c, at.k)|
    ensures var next := Place(at.k, at.w + k);
            && RPlace(c, next) && RConf(c, next) == (RConf(c, at).0, RWriting(RFrame(c, at.k)[at.w + k..]))
            && RRead(c, next) == RRead(c, at) && RSent(c, next) == RBefore(c, at.k) + (at.w + k)
  {}

  lemma IPushed(c: Script, at: Place, k: nat)
    requires WellFormed(c) && IPlace(c, at) && at.k in {1, 7} && at.w + k <= |IFrame(c, at.k)|
    ensures var next := Place(at.k, at.w + k);
            && IPlace(c, next) && IConf(c, next) == (IConf(c, at).0, IWriting(IFrame(c, at.k)[at.w + k..]))
            && IRead(c, next) == IRead(c, at) && ISent(c, next) == IBefore(c, at.k) + (at.w + k)
  {}

  // ----- pushing -----------------------------------------------------------

  lemma RPushWire(c: Script, at: Place, toI: Wire, read: nat, k: nat, broken: bool)
    requires WellFormed(c) && RPlace(c, at) && at.k in {7, 15} && at.w + k <= |RFrame(c, at.k)|
    requires Between(FromR(c), toI, read, RSent(c, at), broken)
    ensures var rest := RFrame(c, at.k)[at.w..];
            && Between(FromR(c), toI + rest[..k], read, RSent(c, Place(at.k, at.w + k)), broken)
            && rest[k..] == RFrame(c, at.k)[at.w + k..]
  {}

  lemma IPushWire(c: Script, at: Place, toR: Wire, read: nat, k: nat, broken: bool)
    requires WellFormed(c) && IPlace(c, at) && at.k in {1, 7} && at.w + k <= |IFrame(c, at.k)|
    requires Between(FromI(c), toR, read, ISent(c, at), broken)
    ensures var rest := IFrame(c, at.k)[at.w..];
            && Between(FromI(c), toR + rest[..k], read, ISent(c, Place(at.k, at.w + k)), broken)
            && rest[k..] == IFrame(c, at.k)[at.w + k..]
  {}

  lemma RPushKeeps(c: Script, p: Params, s: Sys, ra: Place, ia: Place, k: nat) returns (ra': Place)
    requires Inv(c, s, ra, ia) && Enabled(s, RPush(k))
    ensures Inv(c, Apply(p, s, RPush(k)), ra', ia) && Rank(c, ra', ia) > Rank(c, ra, ia)
  {
    RKinds(c, ra);
    RPushed(c, ra, k);
    RPushWire(c, ra, s.toI, IRead(c, ia), k, s.id.IBroken?);
    ra' := Place(ra.k, ra.w + k);
  }

  lemma IPushKeeps(c: Script, p: Params, s: Sys, ra: Place, ia: Place, k: nat) returns (ia': Place)
    requires Inv(c, s, ra, ia) && Enabled(s, IPush(k))
    ensures Inv(c, Apply(p, s, IPush(k)), ra, ia') && Rank(c, ra, ia') > Rank(c, ra, ia)
  {
    IKinds(c, ia);
    IPushed(c, ia, k);
    IPushWire(c, ia, s.toR, RRead(c, ra), k, s.rd.RBroken?);
    ia' := Place(ia.k, ia.w + k);
  }

  // ----- taking ------------------------------------------------------------

  lemma Takes(stream: Wire, wire: Wire, read: nat, sent: nat, n: nat)
    requires Between(stream, wire, read, sent, false) && n <= |wire|
    ensures wire[..n] == stream[read..read + n] && Between(stream, wire[n..], read + n, sent, false)
  {}

  /** What a reading place is about to take, and where that leaves the wire. */
  lemma RTaken(c: Script, s: Sys, ra: Place, ia: Place)
    requires Inv(c, s, ra, ia) && Enabled(s, RTake)
    ensures ra.k in {1, 3, 9, 11} && RRead(c, ra) <= RRead(c, Place(ra.k + 1, 0)) <= |FromI(c)|
    ensures ra.k >= 9 ==> c.pskOk && c.requestFits
    ensures var next := Place(ra.k + 1, 0);
            && s.toR[..s.rd.n] == FromI(c)[RRead(c, ra)..RRead(c, next)]
            && Between(FromI(c), s.toR[s.rd.n..], RRead(c, next), ISent(c, ia), false)
            && RSent(c, next) == RSent(c, ra)
  {
    RKinds(c, ra);
    Takes(FromI(c), s.toR, RRead(c, ra), ISent(c, ia), s.rd.n);
  }

  lemma ITaken(c: Script, s: Sys, ra: Place, ia: Place)
    requires Inv(c, s, ra, ia) && Enabled(s, ITake)
    ensures ia.k in {3, 5, 9, 11} && IRead(c, ia) <= IRead(c, Place(ia.k + 1, 0)) <= |FromR(c)| && c.keyOk
    ensures ia.k >= 9 ==> c.responseFits
    ensures var next := Place(ia.k + 1, 0);
            && s.toI[..s.id.n] == FromR(c)[IRead(c, ia)..IRead(c, next)]
            && Between(FromR(c), s.toI[s.id.n..], IRead(c, next), RSent(c, ra), false)
            && ISent(c, next) == ISent(c, ia)
  {}

  lemma RMoved(c: Script, s: Sys, ra: Place, ia: Place, r': RState, rd': RDriver, toR': Wire, at: Place)
    requires Inv(c, s, ra, ia) && RSide(c, r', rd', at) && RSent(c, at) == RSent(c, ra) && (at.k >= 13 <==> ra.k >= 13)
    requires Between(FromI(c), toR', RRead(c, at), ISent(c, ia), rd'.RBroken?)
    ensures Inv(c, s.(r := r', rd := rd', toR := toR'), at, ia)
  {}

  lemma IMoved(c: Script, s: Sys, ra: Place, ia: Place, i': IState, id': IDriver, toI': Wire, at: Place)
    requires Inv(c, s, ra, ia) && ISide(c, i', id', at) && ISent(c, at) == ISent(c, ia)
    requires Between(FromR(c), toI', IRead(c, at), RSent(c, ra), id'.IBroken?)
    ensures Inv(c, s.(i := i', id := id', toI := toI'), ra, at)
  {}

  /** Enough bytes on the wire let a reading place move on, if the machine accepts them. */
  lemma RTakeKeeps(c: Script, p: Params, s: Sys, ra: Place, ia: Place)
    requires Inv(c, s, ra, ia) && Enabled(s, RTake)
    ensures ra.k in {1, 3, 9, 11} && RRead(c, Place(ra.k + 1, 0)) <= |FromI(c)|
    ensures ra.k >= 9 ==> c.pskOk && c.requestFits
    ensures var next := Place(ra.k + 1, 0);
            var s' := Apply(p, s, RTake);
            var reply := AfterRCall(RRecv(s.r, FromI(c)[RRead(c, ra)..RRead(c, next)]));
            && (RPlace(c, next) && reply == RConf(c, next) ==> Inv(c, s', next, ia) && !s'.rd.RBroken?)
            && (reply.1.RBroken? ==> Inv(c, s', ra, ia) && s'.rd == reply.1)
  {
    RTaken(c, s, ra, ia);
    var next := Place(ra.k + 1, 0);
    var s' := Apply(p, s, RTake);
    assert (s'.r, s'.rd) == AfterRCall(RRecv(s.r, FromI(c)[RRead(c, ra)..RRead(c, next)]));
    if RPlace(c, next) && (s'.r, s'.rd) == RConf(c, next) {
      RKinds(c, next);
      RMoved(c, s, ra, ia, s'.r, s'.rd, s'.toR, next);
    } else if s'.rd.RBroken? {
      RMoved(c, s, ra, ia, s'.r, s'.rd, s'.toR, ra);
    }
  }

  lemma ITakeKeeps(c: Script, p: Params, s: Sys, ra: Place, ia: Place)
    requires Inv(c, s, ra, ia) && Enabled(s, ITake)
    ensures ia.k in {3, 5, 9, 11} && IRead(c, Place(ia.k + 1, 0)) <= |FromR(c)| && c.keyOk
    ensures ia.k >= 9 ==> c.responseFits
    ensures var next := Place(ia.k + 1, 0);
            var s' := Apply(p, s, ITake);
            var reply := AfterICall(IRecv(s.i, FromR(c)[IRead(c, ia)..IRead(c, next)]));
            && (IPlace(c, next) && reply == IConf(c, next) ==> Inv(c, s', ra, next) && !s'.id.IBroken?)
            && (reply.1.IBroken? ==> Inv(c, s', ra, ia) && s'.id == reply.1)
  {
    ITaken(c, s, ra, ia);
    var next := Place(ia.k + 1, 0);
    var s' := Apply(p, s, ITake);
    assert (s'.i, s'.id) == AfterICall(IRecv(s.i, FromR(c)[IRead(c, ia)..IRead(c, next)]));
    if IPlace(c, next) && (s'.i, s'.id) == IConf(c, next) {
      IKinds(c, next);
      IMoved(c, s, ra, ia, s'.i, s'.id, s'.toI, next);
    } else if s'.id.IBroken? {
      IMoved(c, s, ra, ia, s'.i, s'.id, s'.toI, ia);
    }
  }

  // ----- calls that leave the wires alone -----------------------------------

  lemma RStays(c: Script, at: Place)
    requires WellFormed(c) && RPlace(c, at) && at.k <= 16 && at.k !in {1, 3, 9, 11}
    requires at.k == 7 ==> at.w == |c.f2|
    requires at.k == 15 ==> at.w == |c.f4|
    ensures RRead(c, Place(at.k + 1, 0)) == RRead(c, at) && RSent(c, Place(at.k + 1, 0)) == RSent(c, at)
  {}

  lemma IStays(c: Script, at: Place)
    requires WellFormed(c) && IPlace(c, at) && at.k <= 12 && at.k !in {3, 5, 9, 11}
    requires at.k == 1 ==> at.w == |c.f1|
    requires at.k == 7 ==> at.w == |c.f3|
    ensures IRead(c, Place(at.k + 1, 0)) == IRead(c, at) && ISent(c, Place(at.k + 1, 0)) == ISent(c, at)
  {}
}
