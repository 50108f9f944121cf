/** What a peer can learn from a connection, and what a connection must have shown before it mints
    (src/daemon.rs, src/transport.rs). */
module ConnectionSafety {
  import opened Prelude
  import opened Identities
  import opened PskStores
  import opened Noise
  import opened Transport
  import opened Registry
  import opened Connection

  // ----- enrolled and unknown look the same ---------------------------------

  /** Two responders that have treated the peer alike: the same until a key was supplied, the same
      shape and lengths after. */
  predicate Alike(a: RState, b: RState)
  {
    match a
    case RWantHsLen(hs) => a == b && hs.ResponderNew?
    case RWantHsBody(hs, _) => a == b && hs.ResponderNew?
    case RNeedPsk(hs, _) => a == b && hs.ResponderRead?
    case RWriteHs(hs, out) => b.RWriteHs? && hs.Finished? && b.hs.Finished? && |out| == |b.out|
    case RWantReqLen(_) => b.RWantReqLen?
    case RWantReqBody(_, n) => b.RWantReqBody? && b.bodyLen == n
    case _ => false
  }

  /** The peer's transport frame never decrypted. */
  predicate Quiet(t: Trace) {
    Asked !in t
  }

  lemma QuietBody(env: Env, ts: Noise.Transport, n: nat, input: Wire, client: Option<Identity>, w: nat)
    requires Quiet(Drive(env, RWantReqBody(ts, n), input, client, w))
    ensures Drive(env, RWantReqBody(ts, n), input, client, w) == [Read(n), Close]
  {}

  // One turn of the loop, as the peer sees it.

  lemma SeeRead(env: Env, st: RState, n: nat, input: Wire, c: Option<Identity>, w: nat)
    requires RStep(st) == (st, Ok(ReadExact(n))) && n <= |input| && RRecv(st, input[..n]).1.Ok?
    ensures var rest := Drive(env, RRecv(st, input[..n]).0, input[n..], c, w);
            var t := Drive(env, st, input, c, w);
            Visible(t) == [Read(n)] + Visible(rest) && (Quiet(t) <==> Quiet(rest))
  {}

  lemma SeeLookup(env: Env, hs: Handshake, id: Identity, input: Wire, c: Option<Identity>, w: nat)
    requires hs.ResponderRead? && env.random.Some?
    ensures var next := RSetPsk(RAwaitingPsk(hs), KeyFor(env, id).value, env.er).0;
            var rest := Drive(env, next, input, ClientFor(env, id), w);
            var t := Drive(env, RNeedPsk(hs, id), input, c, w);
            && next.RWriteHs? && next.hs.Finished? && |next.out| == 50
            && Visible(t) == Visible(rest) && (Quiet(t) <==> Quiet(rest))
  {}

  lemma SeeSend(env: Env, hs: Handshake, out: Wire, input: Wire, c: Option<Identity>, w: nat)
    requires hs.Finished? && env.writeOk(w)
    ensures var next := RWrote(RWroteHsPending(hs)).0;
            var rest := Drive(env, next, input, c, w + 1);
            var t := Drive(env, RWriteHs(hs, out), input, c, w);
            && next.RWantReqLen?
            && Visible(t) == [Sent(|out|)] + Visible(rest) && (Quiet(t) <==> Quiet(rest))
  {}

  lemma {:induction false} TwoRuns(env: Env, env': Env, a: RState, b: RState, input: Wire, c: Option<Identity>,
                                   c': Option<Identity>, w: nat)
    requires Alike(a, b) && env.writeOk == env'.writeOk && env.random.Some? && env'.random.Some?
    requires Quiet(Drive(env, a, input, c, w)) && Quiet(Drive(env', b, input, c', w))
    ensures Visible(Drive(env, a, input, c, w)) == Visible(Drive(env', b, input, c', w))
    decreases Left(a)
  {
    if a.RNeedPsk? {
      var hs, id := a.hs, a.identity;
      SeeLookup(env, hs, id, input, c, w);
      SeeLookup(env', hs, id, input, c', w);
      TwoRuns(env, env', RSetPsk(RAwaitingPsk(hs), KeyFor(env, id).value, env.er).0,
              RSetPsk(RAwaitingPsk(hs), KeyFor(env', id).value, env'.er).0,
              input, ClientFor(env, id), ClientFor(env', id), w);
    } else if a.RWriteHs? {
      if env.writeOk(w) {
        SeeSend(env, a.hs, a.out, input, c, w);
        SeeSend(env', b.hs, b.out, input, c', w);
        TwoRuns(env, env', RWrote(RWroteHsPending(a.hs)).0, RWrote(RWroteHsPending(b.hs)).0, input, c, c', w + 1);
      }
    } else if a.RWantReqBody? {
      QuietBody(env, a.ts, a.bodyLen, input, c, w);
      QuietBody(env', b.ts, a.bodyLen, input, c', w);
    } else {
      ReadingAlike(a, b, input);
      var n := RStep(a).1.value.n;
      if n <= |input| && RRecv(a, input[..n]).1.Ok? {
        SeeRead(env, a, n, input, c, w);
        SeeRead(env', b, n, input, c', w);
        TwoRuns(env, env', RRecv(a, input[..n]).0, RRecv(b, input[..n]).0, input[n..], c, c', w);
      }
    }
  }

  /** Alike responders ask for the same bytes and, before the request body, take them alike. */
  lemma ReadingAlike(a: RState, b: RState, input: Wire)
    requires Alike(a, b) && (a.RWantHsLen? || a.RWantHsBody? || a.RWantReqLen?)
    ensures RStep(a).1.Ok? && RStep(a).1.value.ReadExact?
    ensures var n := RStep(a).1.value.n;
            && RStep(a) == (a, Ok(ReadExact(n))) && RStep(b) == (b, Ok(ReadExact(n)))
            && (n <= |input| ==>
                  && RRecv(a, input[..n]).1.Ok? == RRecv(b, input[..n]).1.Ok?
                  && (RRecv(a, input[..n]).1.Ok? ==> Alike(RRecv(a, input[..n]).0, RRecv(b, input[..n]).0)
                                                     && Left(RRecv(a, input[..n]).0) < Left(a)))
  {}

  /** Enrolment is not observable: whatever the two registries hold, and whatever the peer sends, as
      long as its transport frame decrypts in neither run and random numbers are to be had, both
      runs read and write the same amounts and close at the same point. */
  lemma EnrolmentInvisible(env: Env, env': Env, s: Secret, input: Wire)
    requires env.writeOk == env'.writeOk && env.random.Some? && env'.random.Some?
    requires Quiet(Run(env, s, input)) && Quiet(Run(env', s, input))
    ensures Visible(Run(env, s, input)) == Visible(Run(env', s, input))
  {
    var st := RWantHsLen(ResponderNew(s));
    TwoRuns(env, env', st, st, input, None, None, 0);
  }

  /** Without random numbers it is: once message 1 has been read, message 2 is written exactly when
      the identity is enrolled or a random key can be drawn. */
  lemma AnswerNeedsKey(env: Env, hs: Handshake, id: Identity, input: Wire, w: nat)
    requires hs.ResponderRead? && env.writeOk(w)
    ensures Sent(50) in Drive(env, RNeedPsk(hs, id), input, None, w)
       <==> id in Authorised(env.tables) || env.random.Some?
  {}

  // ----- the mint gate -----------------------------------------------------

  function Mints(t: Trace): nat {
    if t == [] then 0 else (if t[0].Minted? then 1 else 0) + Mints(t[1..])
  }

  /** From `i` on the input carries `text`, sealed as a client's first message under `chain`. */
  ghost predicate SealedAt(input: Wire, i: int, chain: Chain, text: Bytes) {
    0 <= i <= |input| && Seal(Traffic(chain, true, 0), text) <= input[i..]
  }

  /** The peer sealed `text` for this connection: under a chain that holds the key `psk` and the
      ephemeral the broker drew for it, so a message recorded elsewhere will not do. */
  ghost predicate PeerSealed(input: Wire, er: Secret, psk: Psk, text: Bytes) {
    exists i, chain :: SealedAt(input, i, chain, text) && chain.psk == psk && chain.er == PublicKey(er)
  }

  /** The peer asked, on this connection and under `client`'s stored key, for `path`. */
  ghost predicate PeerAsked(env: Env, input: Wire, client: Identity, path: Bytes)
    requires client in env.tables.psks
  {
    exists text ::
      && PeerSealed(input, env.er, env.tables.psks[client], text)
      && Admitted(env, Some(client), text).Some? && Admitted(env, Some(client), text).value.path == path
  }

  ghost predicate Ours(env: Env, chain: Chain, client: Identity)
    requires client in env.tables.psks
  {
    chain.psk == env.tables.psks[client] && chain.er == PublicKey(env.er)
  }

  /** A session that carries a client's name runs on that client's stored key and this connection's
      ephemeral, and has read nothing under them yet. */
  ghost predicate Keyed(env: Env, st: RState, client: Option<Identity>) {
    client.Some? ==>
      && client.value in Authorised(env.tables)
      && (st.RWriteHs? || st.RWroteHsPending? ==> st.hs.Finished? && !st.hs.initiator && Ours(env, st.hs.chain, client.value))
      && (st.RWantReqLen? || st.RWantReqBody? ==> !st.ts.initiator && st.ts.received == 0 && Ours(env, st.ts.chain, client.value))
      && !(st.RWantHsLen? || st.RWantHsBody? || st.RNeedPsk?)
  }

  /** Every mint in the trace is for `client`, or for one the trace accepted earlier. */
  ghost predicate Gated(env: Env, t: Trace, client: Option<Identity>) {
    forall j | 0 <= j < |t| :: t[j].Minted? ==>
      && t[j].client in Authorised(env.tables)
      && (client == Some(t[j].client) || exists i | 0 <= i < j :: t[i] == Looked(t[j].client, true))
  }

  lemma GatedHead(env: Env, e: Connection.Event, t: Trace, client: Option<Identity>, client': Option<Identity>)
    requires Gated(env, t, client') && !e.Minted?
    requires client' == client || (client'.Some? && e == Looked(client'.value, true)) || client' == None
    ensures Gated(env, [e] + t, client) && Mints([e] + t) == Mints(t)
  {
    var all := [e] + t;
    assert all[1..] == t;
    forall j | 0 <= j < |all| && all[j].Minted?
      ensures all[j].client in Authorised(env.tables)
      ensures client == Some(all[j].client) || exists i | 0 <= i < j :: all[i] == Looked(all[j].client, true)
    {
      assert all[j] == t[j - 1];
      if client' == Some(all[j].client) {
        if client' != client {
          assert all[0] == Looked(all[j].client, true);
        }
      } else {
        var i :| 0 <= i < j - 1 && t[i] == Looked(all[j].client, true);
        assert all[i + 1] == t[i];
      }
    }
  }

  /** All a trace from this point on may show about minting. */
  ghost predicate Safe(env: Env, st: RState, input: Wire, client: Option<Identity>, t: Trace)
  {
    && Gated(env, t, client)
    && Mints(t) <= (if Left(st) >= 5 then 1 else 0)
    && (Left(st) >= 6 ==> forall j | 0 <= j < |t| && t[j].Minted? && t[j].client in env.tables.psks ::
          PeerAsked(env, input, t[j].client, t[j].path))
  }

  lemma SafeShort(env: Env, st: RState, input: Wire, client: Option<Identity>, t: Trace)
    requires forall e | e in t :: !e.Minted?
    ensures Safe(env, st, input, client, t)
  {
    forall j | 0 <= j < |t| ensures !t[j].Minted? {
      assert t[j] in t;
    }
    NoMints(t);
  }

  lemma {:induction false} NoMints(t: Trace)
    requires forall j | 0 <= j < |t| :: !t[j].Minted?
    ensures Mints(t) == 0
  {
    if t != [] {
      NoMints(t[1..]);
    }
  }

  lemma AskedEarlier(env: Env, input: Wire, n: nat, client: Identity, path: Bytes)
    requires n <= |input| && client in env.tables.psks && PeerAsked(env, input[n..], client, path)
    ensures PeerAsked(env, input, client, path)
  {
    var text :| PeerSealed(input[n..], env.er, env.tables.psks[client], text)
      && Admitted(env, Some(client), text).Some? && Admitted(env, Some(client), text).value.path == path;
    var i, chain :| SealedAt(input[n..], i, chain, text) && chain.psk == env.tables.psks[client] && chain.er == PublicKey(env.er);
    assert input[n..][i..] == input[n + i..];
    assert SealedAt(input, n + i, chain, text);
  }

  /** Putting an event in front of a safe trace. */
  lemma SafeHead(env: Env, st: RState, st': RState, input: Wire, input': Wire, client: Option<Identity>,
                 client': Option<Identity>,
                 e: Connection.Event, t: Trace)
    requires Safe(env, st', input', client', t) && !e.Minted? && Left(st') < Left(st)
    requires client' == client || (client'.Some? && e == Looked(client'.value, true)) || client' == None
    requires Left(st) >= 6 ==> Left(st') >= 6 && exists n :: 0 <= n <= |input| && input' == input[n..]
    ensures Safe(env, st, input, client, [e] + t)
  {
    GatedHead(env, e, t, client, client');
    var all := [e] + t;
    assert all[1..] == t;
    if Left(st) >= 6 {
      var n :| 0 <= n <= |input| && input' == input[n..];
      forall j | 0 <= j < |all| && all[j].Minted? && all[j].client in env.tables.psks
        ensures PeerAsked(env, input, all[j].client, all[j].path)
      {
        assert all[j] == t[j - 1];
        AskedEarlier(env, input, n, all[j].client, all[j].path);
      }
    }
  }

  /** A first transport frame that decrypts was sealed under the session's own chain. */
  lemma DecryptedWasSealed(env: Env, ts: Noise.Transport, input: Wire, n: nat, client: Identity, text: Bytes)
    requires n <= |input| && ReadTransport(ts, input[..n]).Ok? && ReadTransport(ts, input[..n]).value.1 == text
    requires client in env.tables.psks && !ts.initiator && ts.received == 0 && Ours(env, ts.chain, client)
    ensures PeerSealed(input, env.er, env.tables.psks[client], text)
  {
    assert input[..n] == Seal(Traffic(ts.chain, true, 0), text);
    assert input[0..] == input;
    assert SealedAt(input, 0, ts.chain, text);
  }

  lemma {:induction false} Gate(env: Env, st: RState, input: Wire, client: Option<Identity>, w: nat)
    requires Keyed(env, st, client)
    ensures Safe(env, st, input, client, Drive(env, st, input, client, w))
    decreases Left(st), 1
  {
    var t := Drive(env, st, input, client, w);
    match RStep(st).1
    case Err(_) => SafeShort(env, st, input, client, t);
    case Ok(ReadExact(n)) =>
      if |input| < n || RRecv(st, input[..n]).1.Err? {
        SafeShort(env, st, input, client, t);
      } else if st.RWantReqBody? {
        GateBody(env, st, input, client, w, n);
      } else {
        GateRead(env, st, input, client, w, n);
      }
    case Ok(NeedPsk(id)) => GateLookup(env, st, input, client, w);
    case Ok(Write(bytes)) => GateWrite(env, st, input, client, w);
    case Ok(Request(plaintext)) => GateRequest(env, st, input, client, w, plaintext);
    case Ok(Done) => SafeShort(env, st, input, client, t);
  }

  lemma {:induction false} GateRead(env: Env, st: RState, input: Wire, client: Option<Identity>, w: nat, n: nat)
    requires Keyed(env, st, client) && RStep(st).1 == Ok(ReadExact(n)) && !st.RWantReqBody?
    requires n <= |input| && RRecv(st, input[..n]).1.Ok?
    ensures Safe(env, st, input, client, Drive(env, st, input, client, w))
    decreases Left(st), 0
  {
    var (st2, _) := RRecv(st, input[..n]);
    Gate(env, st2, input[n..], client, w);
    SafeHead(env, st, st2, input, input[n..], client, client, Read(n), Drive(env, st2, input[n..], client, w));
  }

  lemma {:induction false} GateLookup(env: Env, st: RState, input: Wire, client: Option<Identity>, w: nat)
    requires Keyed(env, st, client) && st.RNeedPsk?
    ensures Safe(env, st, input, client, Drive(env, st, input, client, w))
    decreases Left(st), 0
  {
    var (id, st1) := (st.identity, RAwaitingPsk(st.hs));
    var key := KeyFor(env, id);
    if key.None? || RSetPsk(st1, key.value, env.er).1.Err? {
      SafeShort(env, st, input, client, Drive(env, st, input, client, w));
    } else {
      var (st2, _) := RSetPsk(st1, key.value, env.er);
      Gate(env, st2, input, ClientFor(env, id), w);
      assert input[0..] == input;
      SafeHead(env, st, st2, input, input, client, ClientFor(env, id), Looked(id, id in Authorised(env.tables)),
               Drive(env, st2, input, ClientFor(env, id), w));
    }
  }

  lemma {:induction false} GateWrite(env: Env, st: RState, input: Wire, client: Option<Identity>, w: nat)
    requires Keyed(env, st, client) && (st.RWriteHs? || st.RWriteResp?)
    ensures Safe(env, st, input, client, Drive(env, st, input, client, w))
    decreases Left(st), 0
  {
    if st.RWriteResp? {
      WriteRespSilent(env, st.out, input, client, w);
      SafeShort(env, st, input, client, Drive(env, st, input, client, w));
    } else if !env.writeOk(w) || RWrote(RWroteHsPending(st.hs)).1.Err? {
      SafeShort(env, st, input, client, Drive(env, st, input, client, w));
    } else {
      var (st2, _) := RWrote(RWroteHsPending(st.hs));
      Gate(env, st2, input, client, w + 1);
      assert input[0..] == input;
      SafeHead(env, st, st2, input, input, client, client, Sent(|st.out|), Drive(env, st2, input, client, w + 1));
    }
  }

  lemma {:induction false} GateBody(env: Env, st: RState, input: Wire, client: Option<Identity>, w: nat, n: nat)
    requires Keyed(env, st, client) && st.RWantReqBody? && st.bodyLen == n <= |input| && RRecv(st, input[..n]).1.Ok?
    ensures Safe(env, st, input, client, Drive(env, st, input, client, w))
    decreases Left(st), 0
  {
    var (st2, _) := RRecv(st, input[..n]);
    var rest := Drive(env, st2, input[n..], client, w);
    Gate(env, st2, input[n..], client, w);
    GatedHead(env, Read(n), rest, client, client);
    var all := [Read(n)] + rest;
    assert all == Drive(env, st, input, client, w);
    forall j | 0 <= j < |all| && all[j].Minted? && all[j].client in env.tables.psks
      ensures PeerAsked(env, input, all[j].client, all[j].path)
    {
      assert all[j] == rest[j - 1];
      OnlyOwnMint(env, st2, input[n..], client, w, j - 1);
      DecryptedWasSealed(env, st.ts, input, n, client.value, st2.plaintext);
    }
  }

  /** Once the request is in, only the session's own client can be minted for, and only what it asked. */
  lemma OnlyOwnMint(env: Env, st: RState, input: Wire, client: Option<Identity>, w: nat, j: nat)
    requires st.RHaveRequest? && j < |Drive(env, st, input, client, w)| && Drive(env, st, input, client, w)[j].Minted?
    ensures client == Some(Drive(env, st, input, client, w)[j].client) && Admitted(env, client, st.plaintext).Some?
    ensures Admitted(env, client, st.plaintext).value.path == Drive(env, st, input, client, w)[j].path
  {
    TailSilent(env, st.ts, st.plaintext, input, client, w);
  }

  lemma TailSilent(env: Env, ts: Noise.Transport, plaintext: Bytes, input: Wire, client: Option<Identity>, w: nat)
    ensures var t := Drive(env, RHaveRequest(ts, plaintext), input, client, w);
            && t[0] == Asked
            && (forall j | 0 <= j < |t| :: t[j].Minted? ==> j == 1 && client == Some(t[1].client))
            && (Admitted(env, client, plaintext).Some? <==> |t| > 1 && t[1].Minted?)
            && (|t| > 1 && t[1].Minted? ==> t[1].path == Admitted(env, client, plaintext).value.path)
  {
    var a := Admitted(env, client, plaintext);
    if a.Some? && Answer(env, a.value).Some? {
      var (st2, ok) := RSetResponse(RAwaitingResponse(ts), Answer(env, a.value).value);
      if ok.Ok? {
        WriteRespSilent(env, st2.out, input, client, w);
      }
    }
  }

  lemma WriteRespSilent(env: Env, out: Wire, input: Wire, client: Option<Identity>, w: nat)
    ensures Drive(env, RWriteResp(out), input, client, w) == if env.writeOk(w) then [Sent(|out|), Close] else [Close]
  {
    assert Turned(env, RDone, input, client, w + 1) == ([Close], Over);
    assert Turned(env, RWriteResp(out), input, client, w)
        == if env.writeOk(w) then ([Sent(|out|)], On(RDone, input, client, w + 1)) else ([Close], Over);
  }

  lemma GateRequest(env: Env, st: RState, input: Wire, client: Option<Identity>, w: nat, plaintext: Bytes)
    requires Keyed(env, st, client) && st.RHaveRequest? && st.plaintext == plaintext
    ensures Safe(env, st, input, client, Drive(env, st, input, client, w))
  {
    var t := Drive(env, st, input, client, w);
    TailSilent(env, st.ts, plaintext, input, client, w);
    assert t[1..] == t[1..1 + (|t| - 1)];
    if |t| > 1 {
      var rest := t[1..];
      assert rest[1..] == t[2..];
      forall j | 0 <= j < |t[2..]| ensures !t[2..][j].Minted? {
        assert t[2..][j] == t[j + 2];
      }
      NoMints(t[2..]);
      assert Mints(rest) == (if t[1].Minted? then 1 else 0);
    }
  }

  /** On every connection, whatever the peer sends: at most one mint; only for a client found in both
      tables by this connection's own earlier lookup; and only for the path in a request that the peer
      sealed for this connection, under that client's stored key and the broker's ephemeral. */
  lemma MintGate(env: Env, s: Secret, input: Wire)
    ensures var t := Run(env, s, input);
            && Mints(t) <= 1
            && forall j | 0 <= j < |t| && t[j].Minted? ::
                 && t[j].client in Authorised(env.tables)
                 && (exists i | 0 <= i < j :: t[i] == Looked(t[j].client, true))
                 && PeerAsked(env, input, t[j].client, t[j].path)
  {
    Gate(env, RWantHsLen(ResponderNew(s)), input, None, 0);
  }
}
