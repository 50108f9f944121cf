/** `Responder` and `Initiator` (src/transport.rs) as objects. Every method first leaves `Failed`
    in the state field and puts a live state back only on the paths that keep the session going;
    plaintext and ciphertext pass through one scratch buffer that is never cleared. What was written
    into the buffer always fits a frame, so framing cannot fail here. */
module Sessions {
  import opened Prelude
  import opened Identities
  import opened PskStores
  import opened Noise
  import opened Transport

  class Scratch {
    const cells: array<Cell>

    constructor ()
      ensures fresh(cells) && cells.Length == MAX_MESSAGE_SIZE
    {
      cells := new Cell[MAX_MESSAGE_SIZE](_ => Raw(0));
    }

    method PutText(text: Bytes) returns (n: nat)
      requires |text| <= cells.Length
      modifies cells
      ensures n == |text| && forall i | 0 <= i < n :: cells[i] == Raw(text[i])
    {
      forall i | 0 <= i < |text| {
        cells[i] := Raw(text[i]);
      }
      n := |text|;
    }

    method PutWire(w: Wire) returns (n: nat)
      requires |w| <= cells.Length
      modifies cells
      ensures n == |w| && cells[..n] == w
    {
      forall i | 0 <= i < |w| {
        cells[i] := w[i];
      }
      n := |w|;
    }

    /** The plaintext in the first `n` cells; what lies beyond them is left over from earlier. */
    method Text(n: nat, ghost text: Bytes) returns (t: Bytes)
      requires n == |text| <= cells.Length && forall i | 0 <= i < n :: cells[i] == Raw(text[i])
      ensures t == text
    {
      t := seq(n, i requires 0 <= i < n <= cells.Length reads cells => Octet(cells[i]));
    }
  }

  class Responder {
    var state: RState
    const scratch: Scratch

    constructor (s: Secret)
      ensures Valid() && fresh(scratch) && fresh(scratch.cells) && state == RWantHsLen(ResponderNew(s))
    {
      scratch := new Scratch();
      state := RWantHsLen(ResponderNew(s));
    }

    predicate Valid() {
      scratch.cells.Length == MAX_MESSAGE_SIZE
    }

    method Step() returns (r: Result<Transport.Step, SessionError>)
      modifies this
      ensures (state, r) == RStep(old(state))
    {
      var taken := state;
      state := RFailed;
      match taken
      case RNeedPsk(hs, id) => state := RAwaitingPsk(hs); r := Ok(NeedPsk(id));
      case RWantHsLen(_) => state := taken; r := Ok(ReadExact(2));
      case RWantHsBody(_, n) => state := taken; r := Ok(ReadExact(n));
      case RWriteHs(hs, out) => state := RWroteHsPending(hs); r := Ok(Write(out));
      case RWantReqLen(_) => state := taken; r := Ok(ReadExact(2));
      case RWantReqBody(_, n) => state := taken; r := Ok(ReadExact(n));
      case RHaveRequest(ts, p) => state := RAwaitingResponse(ts); r := Ok(Request(p));
      case RWriteResp(out) => state := RWroteRespPending; r := Ok(Write(out));
      case RDone => state := RDone; r := Ok(Done);
      case _ => state := taken; r := Err(WrongState(StepM));
    }

    method Recv(bytes: Wire) returns (r: Result<(), SessionError>)
      requires Valid()
      modifies this, scratch.cells
      ensures (state, r) == RRecv(old(state), bytes)
    {
      var taken := state;
      state := RFailed;
      match taken {
      case RWantHsLen(hs) =>
        if |bytes| != 2 { return Err(RecvLen(2, |bytes|)); }
        state := RWantHsBody(hs, FrameLength(bytes));
      case RWantHsBody(hs, n) =>
        if |bytes| != n { return Err(RecvLen(n, |bytes|)); }
        var read := ReadHandshake(hs, bytes);
        if read.Err? { return Err(HandshakeRead(read.error)); }
        var len := scratch.PutText(read.value.1);
        var payload := scratch.Text(len, read.value.1);
        var tlv := ParseTlv(payload);
        if tlv.Err? { return Err(Tlv(tlv.error)); }
        if tlv.value.1 != len { return Err(TlvTrailingBytes(len - tlv.value.1)); }
        state := RNeedPsk(read.value.0, tlv.value.0);
      case RWantReqLen(ts) =>
        if |bytes| != 2 { return Err(RecvLen(2, |bytes|)); }
        state := RWantReqBody(ts, FrameLength(bytes));
      case RWantReqBody(ts, n) =>
        if |bytes| != n { return Err(RecvLen(n, |bytes|)); }
        var read := ReadTransport(ts, bytes);
        if read.Err? { return Err(TransportRead(read.error)); }
        var len := scratch.PutText(read.value.1);
        var plaintext := scratch.Text(len, read.value.1);
        state := RHaveRequest(read.value.0, plaintext);
      case _ =>
        state := taken;
        return Err(WrongState(RecvM));
      }
      return Ok(());
    }

    method SetPsk(psk: Psk, e: Secret) returns (r: Result<(), SessionError>)
      requires Valid()
      modifies this, scratch.cells
      ensures (state, r) == RSetPsk(old(state), psk, e)
    {
      var taken := state;
      if !taken.RAwaitingPsk? { return Err(WrongState(SetPskM)); }
      state := RFailed;
      var hs := Noise.SetPsk(taken.hs, psk);
      if hs.Err? { return Err(HandshakeWrite(hs.error)); }
      var written := WriteHandshake(hs.value, [], e);
      if written.Err? { return Err(HandshakeWrite(written.error)); }
      var len := scratch.PutWire(written.value.1);
      var out := Frame(scratch.cells[..len]);
      state := RWriteHs(written.value.0, out.value);
      return Ok(());
    }

    method Wrote() returns (r: Result<(), SessionError>)
      modifies this
      ensures (state, r) == RWrote(old(state))
    {
      var taken := state;
      state := RFailed;
      match taken {
      case RWroteHsPending(hs) =>
        var ts := IntoTransport(hs);
        if ts.Err? { return Err(IntoTransportFailed(ts.error)); }
        state := RWantReqLen(ts.value);
      case RWroteRespPending => state := RDone;
      case _ =>
        state := taken;
        return Err(WrongState(WroteM));
      }
      return Ok(());
    }

    method SetResponse(plaintext: Bytes) returns (r: Result<(), SessionError>)
      requires Valid()
      modifies this, scratch.cells
      ensures (state, r) == RSetResponse(old(state), plaintext)
    {
      var taken := state;
      if !taken.RAwaitingResponse? { return Err(WrongState(SetResponseM)); }
      state := RFailed;
      var written := WriteTransport(taken.ts, plaintext);
      if written.Err? { return Err(TransportWrite(written.error)); }
      var len := scratch.PutWire(written.value.1);
      var out := Frame(scratch.cells[..len]);
      state := RWriteResp(out.value);
      return Ok(());
    }
  }

  class Initiator {
    var state: IState
    const scratch: Scratch

    /** `Initiator::new`; an identity always fits message 1, so it does not fail. */
    constructor (id: Identity, psk: Psk, rs: Secret, request: Bytes, e: Secret)
      ensures Valid() && fresh(scratch) && fresh(scratch.cells)
      ensures INew(id, psk, rs, request, e) == Ok(state)
    {
      scratch := new Scratch();
      var written := WriteHandshake(InitiatorNew(psk, rs), EncodeTlv(id), e);
      var msg1 := Frame(written.value.1);
      state := IWriteHs1(written.value.0, msg1.value, request);
    }

    predicate Valid() {
      scratch.cells.Length == MAX_MESSAGE_SIZE
    }

    method Step() returns (r: Result<Transport.Step, SessionError>)
      modifies this
      ensures (state, r) == IStep(old(state))
    {
      var taken := state;
      state := IFailed;
      match taken
      case IWriteHs1(hs, msg1, request) => state := IWroteHs1Pending(hs, request); r := Ok(Write(msg1));
      case IWantHs2Len(_, _) => state := taken; r := Ok(ReadExact(2));
      case IWantHs2Body(_, n, _) => state := taken; r := Ok(ReadExact(n));
      case IWriteReq(ts, out) => state := IWroteReqPending(ts); r := Ok(Write(out));
      case IWantRespLen(_) => state := taken; r := Ok(ReadExact(2));
      case IWantRespBody(_, n) => state := taken; r := Ok(ReadExact(n));
      case IDone(_) => state := taken; r := Ok(Done);
      case _ => state := taken; r := Err(WrongState(StepM));
    }

    method Recv(bytes: Wire) returns (r: Result<(), SessionError>)
      requires Valid()
      modifies this, scratch.cells
      ensures (state, r) == IRecv(old(state), bytes)
    {
      var taken := state;
      state := IFailed;
      match taken {
      case IWantHs2Len(hs, request) =>
        if |bytes| != 2 { return Err(RecvLen(2, |bytes|)); }
        state := IWantHs2Body(hs, FrameLength(bytes), request);
      case IWantHs2Body(hs, n, request) =>
        if |bytes| != n { return Err(RecvLen(n, |bytes|)); }
        var read := ReadHandshake(hs, bytes);
        if read.Err? { return Err(HandshakeRead(read.error)); }
        var ts := IntoTransport(read.value.0);
        if ts.Err? { return Err(IntoTransportFailed(ts.error)); }
        var written := WriteTransport(ts.value, request);
        if written.Err? { return Err(TransportWrite(written.error)); }
        var len := scratch.PutWire(written.value.1);
        var out := Frame(scratch.cells[..len]);
        state := IWriteReq(written.value.0, out.value);
      case IWantRespLen(ts) =>
        if |bytes| != 2 { return Err(RecvLen(2, |bytes|)); }
        state := IWantRespBody(ts, FrameLength(bytes));
      case IWantRespBody(ts, n) =>
        if |bytes| != n { return Err(RecvLen(n, |bytes|)); }
        var read := ReadTransport(ts, bytes);
        if read.Err? { return Err(TransportRead(read.error)); }
        var len := scratch.PutText(read.value.1);
        var plaintext := scratch.Text(len, read.value.1);
        state := IDone(plaintext);
      case _ =>
        state := taken;
        return Err(WrongState(RecvM));
      }
      return Ok(());
    }

    method Wrote() returns (r: Result<(), SessionError>)
      modifies this
      ensures (state, r) == IWrote(old(state))
    {
      var taken := state;
      state := IFailed;
      match taken {
      case IWroteHs1Pending(hs, request) => state := IWantHs2Len(hs, request);
      case IWroteReqPending(ts) => state := IWantRespLen(ts);
      case _ =>
        state := taken;
        return Err(WrongState(WroteM));
      }
      return Ok(());
    }
  }
}
