/** The wire layer of src/transport.rs: identity TLV, length-prefixed frames, and the two sans-IO
    session machines as functions on their states. */
module Transport {
  import opened Prelude
  import opened Identities
  import opened PskStores
  import opened Utf8
  import opened Noise

  // ----- identity TLV ------------------------------------------------------

  const TLV_MAGIC: Bytes := [83, 66, 76, 78]
  const TLV_VERSION: byte := 2

  datatype TlvError =
    | Incomplete(needed: nat)
    | BadMagic(got: Bytes)
    | BadVersion(version: byte)
    | BadIdentityLen(len: byte)
    | InvalidCharset(offset: nat, bad: byte)

  function EncodeTlv(id: Identity): (w: Bytes)
    ensures |w| == 6 + |id|
  {
    TLV_MAGIC + [TLV_VERSION] + [|id|] + id
  }

  /** The 6-byte head: magic, then version, then a length in 1..=64. */
  function ParseHead(head: Bytes): (r: Result<byte, TlvError>)
    requires |head| == 6
    ensures r.Ok? <==> head[..4] == TLV_MAGIC && head[4] == TLV_VERSION && 1 <= head[5] <= MAX_LEN
    ensures r.Ok? ==> r.value == head[5]
  {
    if head[..4] != TLV_MAGIC then Err(BadMagic(head[..4]))
    else if head[4] != TLV_VERSION then Err(BadVersion(head[4]))
    else if head[5] == 0 || head[5] > MAX_LEN then Err(BadIdentityLen(head[5]))
    else Ok(head[5])
  }

  /** Bytes that are not UTF-8 are reported where the UTF-8 breaks, which need not be the first
      byte outside the charset; the byte reported is always one the charset excludes. */
  function ParseBody(body: Bytes): (r: Result<Identity, TlvError>)
    ensures r.Ok? <==> IsIdentity(body)
    ensures r.Ok? ==> r.value == body
    ensures r.Err? ==> r.error.BadIdentityLen? || r.error.InvalidCharset?
    ensures r.Err? && r.error.InvalidCharset? ==>
              && r.error.offset < |body| && r.error.bad == body[r.error.offset] && !IsIdentityByte(r.error.bad)
  {
    IdentityIsUtf8(body);
    if IsUtf8(body) then
      match Parse(body)
      case Ok(id) => Ok(id)
      case Err(BadLen(got)) => Err(BadIdentityLen(if got < 255 then got else 255))
      case Err(BadCharset(offset, b)) => Err(InvalidCharset(offset, b))
    else
      Err(InvalidCharset(ValidUpTo(body), body[ValidUpTo(body)]))
  }

  /** For a body that is not UTF-8 the decoder names the byte `Identity::parse` would name exactly when
      everything before the break is in the alphabet. */
  lemma BreakIsFirstBadIff(body: Bytes)
    requires !IsUtf8(body) && |body| <= MAX_LEN
    ensures ParseBody(body).Err? && ParseBody(body).error.InvalidCharset? && Parse(body).Err? && Parse(body).error.BadCharset?
    ensures ParseBody(body).error.offset == Parse(body).error.offset
       <==> (forall i | 0 <= i < ValidUpTo(body) :: IsIdentityByte(body[i]))
  {}

  /** A space before the break is enough to differ. */
  lemma SpaceBeforeBreak()
    ensures ParseBody([0x20, 0xFF]) == Err(InvalidCharset(1, 0xFF)) && Parse([0x20, 0xFF]) == Err(BadCharset(0, 0x20))
  {}

  lemma IdentityIsUtf8(s: Bytes)
    ensures IsIdentity(s) ==> IsUtf8(s)
  {}

  function ParseTlv(input: Bytes): (r: Result<(Identity, nat), TlvError>)
  {
    if |input| < 6 then Err(Incomplete(6 - |input|))
    else
      match ParseHead(input[..6])
      case Err(e) => Err(e)
      case Ok(len) =>
        if |input| < 6 + len then Err(Incomplete(6 + len - |input|))
        else
          match ParseBody(input[6..6 + len])
          case Err(e) => Err(e)
          case Ok(id) => Ok((id, 6 + len))
  }

  /** Decoding inverts encoding whatever follows, and a successful decode consumed exactly the
      encoding of what it returned: the encoding is canonical. */
  lemma TlvCanonical(input: Bytes, id: Identity)
    ensures ParseTlv(EncodeTlv(id) + input) == Ok((id, 6 + |id|))
    ensures ParseTlv(input).Ok? ==>
              var (got, used) := ParseTlv(input).value; used <= |input| && input[..used] == EncodeTlv(got)
  {}

  // ----- frames ------------------------------------------------------------

  /** A cell standing where a length byte is expected. */
  function Octet(c: Cell): byte {
    if c.Raw? then c.b else 0
  }

  datatype FrameError = OversizedFrame(got: nat)

  function Frame(payload: Wire): (r: Result<Wire, FrameError>)
    ensures r.Ok? <==> |payload| <= MAX_MESSAGE_SIZE
    ensures r.Ok? ==> |r.value| == 2 + |payload| && r.value[2..] == payload
  {
    if |payload| > MAX_MESSAGE_SIZE then Err(OversizedFrame(|payload|))
    else Ok([Raw(|payload| / 256), Raw(|payload| % 256)] + payload)
  }

  /** The 16-bit length cannot exceed the limit, so the source's check never fires. */
  function FrameLength(head: Wire): (n: nat)
    requires |head| == 2
    ensures n <= MAX_MESSAGE_SIZE
  {
    256 * Octet(head[0]) + Octet(head[1])
  }

  /** The prefix of a frame announces exactly the bytes that follow it. */
  lemma FrameAnnounces(payload: Wire, rest: Wire)
    requires |payload| <= MAX_MESSAGE_SIZE
    ensures var w := Frame(payload).value + rest;
            FrameLength(w[..2]) == |payload| && w[2..2 + |payload|] == payload
  {}

  // ----- session machines --------------------------------------------------

  datatype Step =
    | ReadExact(n: nat)
    | NeedPsk(identity: Identity)
    | Write(bytes: Wire)
    | Request(plaintext: Bytes)
    | Done

  datatype Method = StepM | RecvM | SetPskM | WroteM | SetResponseM | TakeResponseM

  datatype SessionError =
    | Tlv(tlv: TlvError)
    | TlvTrailingBytes(extra: nat)
    | HandshakeRead(cause: NoiseError)
    | HandshakeWrite(cause: NoiseError)
    | IntoTransportFailed(cause: NoiseError)
    | TransportRead(cause: NoiseError)
    | TransportWrite(cause: NoiseError)
    | FrameTooBig(got: nat)
    | RecvLen(expected: nat, received: nat)
    | WrongState(which: Method)

  predicate IsMisuse(e: SessionError) {
    e.RecvLen? || e.WrongState?
  }

  datatype RState =
    | RFailed
    | RNeedPsk(hs: Handshake, identity: Identity)
    | RAwaitingPsk(hs: Handshake)
    | RWantHsLen(hs: Handshake)
    | RWantHsBody(hs: Handshake, bodyLen: nat)
    | RWriteHs(hs: Handshake, out: Wire)
    | RWroteHsPending(hs: Handshake)
    | RWantReqLen(ts: Noise.Transport)
    | RWantReqBody(ts: Noise.Transport, bodyLen: nat)
    | RHaveRequest(ts: Noise.Transport, plaintext: Bytes)
    | RAwaitingResponse(ts: Noise.Transport)
    | RWriteResp(out: Wire)
    | RWroteRespPending
    | RDone

  type Reply<S, T> = (S, Result<T, SessionError>)

  function RStep(st: RState): Reply<RState, Step> {
    match st
    case RNeedPsk(hs, id) => (RAwaitingPsk(hs), Ok(NeedPsk(id)))
    case RWantHsLen(_) => (st, Ok(ReadExact(2)))
    case RWantHsBody(_, n) => (st, Ok(ReadExact(n)))
    case RWriteHs(hs, out) => (RWroteHsPending(hs), Ok(Write(out)))
    case RWantReqLen(_) => (st, Ok(ReadExact(2)))
    case RWantReqBody(_, n) => (st, Ok(ReadExact(n)))
    case RHaveRequest(ts, p) => (RAwaitingResponse(ts), Ok(Request(p)))
    case RWriteResp(out) => (RWroteRespPending, Ok(Write(out)))
    case RDone => (st, Ok(Done))
    case _ => (st, Err(WrongState(StepM)))
  }

  /** Asking twice is asking once exactly in the states that only read, have ended or refuse: handing
      over an identity, a frame or a request moves on. */
  lemma StepTwiceIff(st: RState)
    ensures RStep(RStep(st).0) == RStep(st) <==> !(st.RNeedPsk? || st.RWriteHs? || st.RHaveRequest? || st.RWriteResp?)
  {}

  /** Decrypt message 1 and require its payload to be exactly one identity TLV. */
  function ReadIdentity(hs: Handshake, bytes: Wire): (r: Result<(Handshake, Identity), SessionError>) {
    match ReadHandshake(hs, bytes)
    case Err(e) => Err(HandshakeRead(e))
    case Ok((hs', payload)) =>
      match ParseTlv(payload)
      case Err(e) => Err(Tlv(e))
      case Ok((id, used)) =>
        if used != |payload| then Err(TlvTrailingBytes(|payload| - used)) else Ok((hs', id))
  }

  function RRecv(st: RState, bytes: Wire): Reply<RState, ()> {
    match st
    case RWantHsLen(hs) =>
      if |bytes| != 2 then (RFailed, Err(RecvLen(2, |bytes|))) else (RWantHsBody(hs, FrameLength(bytes)), Ok(()))
    case RWantHsBody(hs, n) =>
      if |bytes| != n then (RFailed, Err(RecvLen(n, |bytes|)))
      else
        (match ReadIdentity(hs, bytes)
         case Err(e) => (RFailed, Err(e))
         case Ok((hs', id)) => (RNeedPsk(hs', id), Ok(())))
    case RWantReqLen(ts) =>
      if |bytes| != 2 then (RFailed, Err(RecvLen(2, |bytes|))) else (RWantReqBody(ts, FrameLength(bytes)), Ok(()))
    case RWantReqBody(ts, n) =>
      if |bytes| != n then (RFailed, Err(RecvLen(n, |bytes|)))
      else
        (match ReadTransport(ts, bytes)
         case Err(e) => (RFailed, Err(TransportRead(e)))
         case Ok((ts', p)) => (RHaveRequest(ts', p), Ok(())))
    case _ => (st, Err(WrongState(RecvM)))
  }

  /** The handshake message carrying no payload, framed. */
  function FramedHandshake(hs: Handshake, payload: Bytes, e: Secret): (r: Result<(Handshake, Wire), SessionError>) {
    match WriteHandshake(hs, payload, e)
    case Err(x) => Err(HandshakeWrite(x))
    case Ok((hs', msg)) =>
      match Frame(msg)
      case Err(x) => Err(FrameTooBig(x.got))
      case Ok(out) => Ok((hs', out))
  }

  function FramedTransport(ts: Noise.Transport, payload: Bytes): (r: Result<(Noise.Transport, Wire), SessionError>) {
    match WriteTransport(ts, payload)
    case Err(x) => Err(TransportWrite(x))
    case Ok((ts', msg)) =>
      match Frame(msg)
      case Err(x) => Err(FrameTooBig(x.got))
      case Ok(out) => Ok((ts', out))
  }

  /** `e` is the ephemeral key drawn for message 2. */
  function RSetPsk(st: RState, psk: Psk, e: Secret): Reply<RState, ()> {
    match st
    case RAwaitingPsk(hs) =>
      (match SetPsk(hs, psk)
       case Err(x) => (RFailed, Err(HandshakeWrite(x)))
       case Ok(hs') =>
         match FramedHandshake(hs', [], e)
         case Err(x) => (RFailed, Err(x))
         case Ok((hs'', out)) => (RWriteHs(hs'', out), Ok(())))
    case _ => (st, Err(WrongState(SetPskM)))
  }

  function RWrote(st: RState): Reply<RState, ()> {
    match st
    case RWroteHsPending(hs) =>
      (match IntoTransport(hs)
       case Err(x) => (RFailed, Err(IntoTransportFailed(x)))
       case Ok(ts) => (RWantReqLen(ts), Ok(())))
    case RWroteRespPending => (RDone, Ok(()))
    case _ => (st, Err(WrongState(WroteM)))
  }

  function RSetResponse(st: RState, plaintext: Bytes): Reply<RState, ()> {
    match st
    case RAwaitingResponse(ts) =>
      (match FramedTransport(ts, plaintext)
       case Err(x) => (RFailed, Err(x))
       case Ok((_, out)) => (RWriteResp(out), Ok(())))
    case _ => (st, Err(WrongState(SetResponseM)))
  }

  datatype IState =
    | IFailed
    | IWriteHs1(hs: Handshake, msg1: Wire, request: Bytes)
    | IWroteHs1Pending(hs: Handshake, request: Bytes)
    | IWantHs2Len(hs: Handshake, request: Bytes)
    | IWantHs2Body(hs: Handshake, bodyLen: nat, request: Bytes)
    | IWriteReq(ts: Noise.Transport, out: Wire)
    | IWroteReqPending(ts: Noise.Transport)
    | IWantRespLen(ts: Noise.Transport)
    | IWantRespBody(ts: Noise.Transport, bodyLen: nat)
    | IDone(plaintext: Bytes)
    | IDrained

  function INew(id: Identity, psk: Psk, rs: Secret, request: Bytes, e: Secret): (r: Result<IState, SessionError>) {
    match FramedHandshake(InitiatorNew(psk, rs), EncodeTlv(id), e)
    case Err(x) => Err(x)
    case Ok((hs, msg1)) => Ok(IWriteHs1(hs, msg1, request))
  }

  function IStep(st: IState): Reply<IState, Step> {
    match st
    case IWriteHs1(hs, msg1, request) => (IWroteHs1Pending(hs, request), Ok(Write(msg1)))
    case IWantHs2Len(_, _) => (st, Ok(ReadExact(2)))
    case IWantHs2Body(_, n, _) => (st, Ok(ReadExact(n)))
    case IWriteReq(ts, out) => (IWroteReqPending(ts), Ok(Write(out)))
    case IWantRespLen(_) => (st, Ok(ReadExact(2)))
    case IWantRespBody(_, n) => (st, Ok(ReadExact(n)))
    case IDone(_) => (st, Ok(Done))
    case _ => (st, Err(WrongState(StepM)))
  }

  /** Read message 2, enter transport mode, and encrypt the request. */
  function FinishHandshake(hs: Handshake, bytes: Wire, request: Bytes): (r: Result<(Noise.Transport, Wire),
                           SessionError>) {
    match ReadHandshake(hs, bytes)
    case Err(x) => Err(HandshakeRead(x))
    case Ok((hs', _)) =>
      match IntoTransport(hs')
      case Err(x) => Err(IntoTransportFailed(x))
      case Ok(ts) => FramedTransport(ts, request)
  }

  function IRecv(st: IState, bytes: Wire): Reply<IState, ()> {
    match st
    case IWantHs2Len(hs, request) =>
      if |bytes| != 2 then (IFailed, Err(RecvLen(2, |bytes|))) else (IWantHs2Body(hs, FrameLength(bytes), request), Ok(()))
    case IWantHs2Body(hs, n, request) =>
      if |bytes| != n then (IFailed, Err(RecvLen(n, |bytes|)))
      else
        (match FinishHandshake(hs, bytes, request)
         case Err(x) => (IFailed, Err(x))
         case Ok((ts, out)) => (IWriteReq(ts, out), Ok(())))
    case IWantRespLen(ts) =>
      if |bytes| != 2 then (IFailed, Err(RecvLen(2, |bytes|))) else (IWantRespBody(ts, FrameLength(bytes)), Ok(()))
    case IWantRespBody(ts, n) =>
      if |bytes| != n then (IFailed, Err(RecvLen(n, |bytes|)))
      else
        (match ReadTransport(ts, bytes)
         case Err(x) => (IFailed, Err(TransportRead(x)))
         case Ok((_, p)) => (IDone(p), Ok(())))
    case _ => (st, Err(WrongState(RecvM)))
  }

  function IWrote(st: IState): Reply<IState, ()> {
    match st
    case IWroteHs1Pending(hs, request) => (IWantHs2Len(hs, request), Ok(()))
    case IWroteReqPending(ts) => (IWantRespLen(ts), Ok(()))
    case _ => (st, Err(WrongState(WroteM)))
  }

  function ITakeResponse(st: IState): Reply<IState, Bytes> {
    match st
    case IDone(p) => (IDrained, Ok(p))
    case _ => (st, Err(WrongState(TakeResponseM)))
  }
}
