/** The Noise handshake `NKpsk2` and its transport mode, as src/transport.rs uses the `snow` crate
    (Noise Protocol Framework revision 34, sections 3, 7.5 and 9).

    Cryptography is ideal and symbolic. A wire byte is a cell: a plain byte, a piece of a public
    key, or a byte made by encryption and tagged with the whole context it was made in. Only the
    holder of that context reads it back; lengths are those of the real protocol. */
module Noise {
  import opened Prelude

  const MAX_MESSAGE_SIZE: nat := 65535
  const DH_LEN: nat := 32
  const TAG_LEN: nat := 16

  type Secret = nat

  /** A Diffie-Hellman result: two key pairs in either order, or a peer value that is no key of
      this model. */
  datatype Shared = Pair(both: set<Secret>) | Odd(own: Secret, peer: seq<Cell>)

  /** Everything mixed into the chaining key by the end of message 2. */
  datatype Chain = Chain(ei: seq<Cell>, es: Shared, er: seq<Cell>, ee: Shared, psk: Bytes)

  /** Key, nonce and associated data of one encryption. */
  datatype Context =
    | First(rs: Secret, ei: seq<Cell>, es: Shared)
    | Second(rs: Secret, ct1: seq<Cell>, chain: Chain)
    | Traffic(chain: Chain, toResponder: bool, nonce: nat)

  datatype Cell =
    | Raw(b: byte)
    | Pub(owner: Secret, i: nat)
    | Enc(context: Context, b: byte)
    | Tag(context: Context, text: Bytes, i: nat)

  type Wire = seq<Cell>

  function PublicKey(s: Secret): (w: Wire)
    ensures |w| == DH_LEN
  {
    seq(DH_LEN, (i: nat) => Pub(s, i))
  }

  function Dh(own: Secret, peer: Wire): Shared {
    if peer != [] && peer[0].Pub? && peer == PublicKey(peer[0].owner) then Pair({own, peer[0].owner})
    else Odd(own, peer)
  }

  function Seal(c: Context, text: Bytes): (w: Wire)
    ensures |w| == |text| + TAG_LEN
  {
    seq(|text|, i requires 0 <= i < |text| => Enc(c, text[i])) + seq(TAG_LEN, (i: nat) => Tag(c, text, i))
  }

  /** Authenticated decryption: succeeds on exactly what `Seal` made in the same context. */
  function Open(c: Context, w: Wire): (r: Option<Bytes>)
    ensures r.Some? <==> exists text :: w == Seal(c, text)
    ensures r.Some? ==> w == Seal(c, r.value) && |w| == |r.value| + TAG_LEN
  {
    if |w| < TAG_LEN then None
    else
      var text := seq(|w| - TAG_LEN, i requires 0 <= i < |w| - TAG_LEN => if w[i].Enc? then w[i].b else 0);
      SealReads(c, w, text);
      if w == Seal(c, text) then Some(text) else None
  }

  lemma SealReads(c: Context, w: Wire, guess: Bytes)
    requires |w| == |guess| + TAG_LEN
    requires forall i | 0 <= i < |guess| :: guess[i] == if w[i].Enc? then w[i].b else 0
    ensures forall text | w == Seal(c, text) :: text == guess
  {}

  /** Reading inverts writing, in the same context and only there. */
  lemma OpenSeal(c: Context, d: Context, text: Bytes)
    ensures Open(d, Seal(c, text)) == if c == d then Some(text) else None
  {
    var w := Seal(c, text);
    assert w[|text|] == Tag(c, text, 0);
    var r := Open(d, w);
    if c == d {
      assert w == Seal(d, text);
    }
    if r.Some? {
      assert Seal(d, r.value)[|r.value|] == Tag(d, r.value, 0);
    }
  }

  // ----- handshake ---------------------------------------------------------

  datatype NoiseError = Input | Decrypt | MissingPsk | State

  datatype Handshake =
    | InitiatorNew(psk: Bytes, rs: Secret)
    | InitiatorSent(psk: Bytes, rs: Secret, e: Secret, ct1: Wire)
    | ResponderNew(s: Secret)
    | ResponderRead(s: Secret, ei: Wire, ct1: Wire, injected: Option<Bytes>)
    | Finished(chain: Chain, initiator: bool)

  /** Context of message 1 as the initiator with ephemeral `e` computes it. */
  function InitiatorFirst(rs: Secret, e: Secret): Context {
    First(rs, PublicKey(e), Dh(e, PublicKey(rs)))
  }

  function ResponderFirst(s: Secret, ei: Wire): Context {
    First(s, ei, Dh(s, ei))
  }

  function InitiatorChain(psk: Bytes, rs: Secret, e: Secret, er: Wire): Chain {
    Chain(PublicKey(e), Dh(e, PublicKey(rs)), er, Dh(e, er), psk)
  }

  function ResponderChain(s: Secret, ei: Wire, er: Secret, psk: Bytes): Chain {
    Chain(ei, Dh(s, ei), PublicKey(er), Dh(er, ei), psk)
  }

  /** `write_message`; `e` is the ephemeral key drawn for it. */
  function WriteHandshake(hs: Handshake, payload: Bytes, e: Secret): (r: Result<(Handshake, Wire), NoiseError>)
    ensures r.Ok? ==> |r.value.1| == |payload| + DH_LEN + TAG_LEN <= MAX_MESSAGE_SIZE
  {
    if |payload| + DH_LEN + TAG_LEN > MAX_MESSAGE_SIZE then Err(Input)
    else
      match hs
      case InitiatorNew(psk, rs) =>
        var ct := Seal(InitiatorFirst(rs, e), payload);
        Ok((InitiatorSent(psk, rs, e, ct), PublicKey(e) + ct))
      case ResponderRead(s, ei, ct1, psk) =>
        if psk.None? then Err(MissingPsk)
        else
          var chain := ResponderChain(s, ei, e, psk.value);
          Ok((Finished(chain, false), PublicKey(e) + Seal(Second(s, ct1, chain), payload)))
      case _ => Err(State)
  }

  /** `read_message`. */
  function ReadHandshake(hs: Handshake, msg: Wire): (r: Result<(Handshake, Bytes), NoiseError>)
    ensures r.Ok? ==> |msg| == |r.value.1| + DH_LEN + TAG_LEN <= MAX_MESSAGE_SIZE
  {
    if |msg| < DH_LEN + TAG_LEN || |msg| > MAX_MESSAGE_SIZE then Err(Input)
    else
      var e, ct := msg[..DH_LEN], msg[DH_LEN..];
      match hs
      case ResponderNew(s) =>
        (match Open(ResponderFirst(s, e), ct)
         case None => Err(Decrypt)
         case Some(payload) => Ok((ResponderRead(s, e, ct, None), payload)))
      case InitiatorSent(psk, rs, own, ct1) =>
        var chain := InitiatorChain(psk, rs, own, e);
        (match Open(Second(rs, ct1, chain), ct)
         case None => Err(Decrypt)
         case Some(payload) => Ok((Finished(chain, true), payload)))
      case _ => Err(State)
  }

  function SetPsk(hs: Handshake, psk: Bytes): (r: Result<Handshake, NoiseError>) {
    if hs.ResponderRead? then Ok(hs.(injected := Some(psk))) else Err(Input)
  }

  datatype Transport = Transport(chain: Chain, initiator: bool, sent: nat, received: nat)

  function IntoTransport(hs: Handshake): (r: Result<Transport, NoiseError>)
    ensures r.Ok? <==> hs.Finished?
  {
    if hs.Finished? then Ok(Transport(hs.chain, hs.initiator, 0, 0)) else Err(State)
  }

  function WriteTransport(ts: Transport, payload: Bytes): (r: Result<(Transport, Wire), NoiseError>)
    ensures r.Ok? <==> |payload| + TAG_LEN <= MAX_MESSAGE_SIZE
    ensures r.Ok? ==> |r.value.1| == |payload| + TAG_LEN
  {
    if |payload| + TAG_LEN > MAX_MESSAGE_SIZE then Err(Input)
    else Ok((ts.(sent := ts.sent + 1), Seal(Traffic(ts.chain, ts.initiator, ts.sent), payload)))
  }

  function ReadTransport(ts: Transport, msg: Wire): (r: Result<(Transport, Bytes), NoiseError>)
    ensures r.Ok? ==> |msg| == |r.value.1| + TAG_LEN <= MAX_MESSAGE_SIZE
  {
    if |msg| > MAX_MESSAGE_SIZE then Err(Input)
    else
      match Open(Traffic(ts.chain, !ts.initiator, ts.received), msg)
      case None => Err(Decrypt)
      case Some(payload) => Ok((ts.(received := ts.received + 1), payload))
  }

  // ----- what the session machines rely on ---------------------------------

  lemma DhAgrees(a: Secret, b: Secret)
    ensures Dh(a, PublicKey(b)) == Dh(b, PublicKey(a)) == Pair({a, b})
  {}

  /** The broker that owns the pinned static key, and no other, reads message 1. */
  lemma MessageOne(psk: Bytes, rs: Secret, s: Secret, e: Secret, payload: Bytes)
    requires |payload| + DH_LEN + TAG_LEN <= MAX_MESSAGE_SIZE
    ensures var (hs, msg) := WriteHandshake(InitiatorNew(psk, rs), payload, e).value;
            && hs.InitiatorSent?
            && ReadHandshake(ResponderNew(s), msg)
               == if s == rs then Ok((ResponderRead(s, PublicKey(e), hs.ct1, None), payload)) else Err(Decrypt)
  {
    var (hs, msg) := WriteHandshake(InitiatorNew(psk, rs), payload, e).value;
    assert msg[..DH_LEN] == PublicKey(e) && msg[DH_LEN..] == hs.ct1;
    DhAgrees(e, rs);
    OpenSeal(InitiatorFirst(rs, e), ResponderFirst(s, PublicKey(e)), payload);
  }

  /** Both sides compute the same chain exactly when their pre-shared keys are the same. */
  lemma ChainsAgree(psk: Bytes, psk': Bytes, rs: Secret, e: Secret, er: Secret)
    ensures InitiatorChain(psk, rs, e, PublicKey(er)) == ResponderChain(rs, PublicKey(e), er, psk') <==> psk == psk'
  {
    DhAgrees(e, rs);
    DhAgrees(e, er);
  }

  /** The initiator accepts message 2 exactly when the pre-shared keys agree, and then both ends
      hold the same chain. */
  lemma MessageTwo(psk: Bytes, psk': Bytes, rs: Secret, e: Secret, er: Secret, ct1: Wire)
    ensures WriteHandshake(ResponderRead(rs, PublicKey(e), ct1, Some(psk')), [], er).Ok?
    ensures var (hs, msg) := WriteHandshake(ResponderRead(rs, PublicKey(e), ct1, Some(psk')), [], er).value;
            && hs == Finished(ResponderChain(rs, PublicKey(e), er, psk'), false)
            && ReadHandshake(InitiatorSent(psk, rs, e, ct1), msg)
               == if psk == psk' then Ok((Finished(hs.chain, true), [])) else Err(Decrypt)
  {
    var chain := ResponderChain(rs, PublicKey(e), er, psk');
    var msg := PublicKey(er) + Seal(Second(rs, ct1, chain), []);
    assert msg[..DH_LEN] == PublicKey(er) && msg[DH_LEN..] == Seal(Second(rs, ct1, chain), []);
    ChainsAgree(psk, psk', rs, e, er);
    OpenSeal(Second(rs, ct1, chain), Second(rs, ct1, InitiatorChain(psk, rs, e, PublicKey(er))), []);
  }

  /** A transport message is read by the other end at the matching position. */
  lemma TransportRoundTrip(from: Transport, to: Transport, payload: Bytes)
    requires |payload| + TAG_LEN <= MAX_MESSAGE_SIZE
    requires from.chain == to.chain && from.initiator != to.initiator && from.sent == to.received
    ensures ReadTransport(to, WriteTransport(from, payload).value.1)
         == Ok((to.(received := to.received + 1), payload))
  {
    OpenSeal(Traffic(from.chain, from.initiator, from.sent), Traffic(to.chain, !to.initiator, to.received), payload);
  }
}
