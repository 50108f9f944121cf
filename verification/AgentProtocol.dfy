/** The messages between the broker and its signing agent (src/providers/agent_protocol.rs) and the
    agent's answer to each (`handle`, src/providers/agent.rs). */
module AgentProtocol {
  import opened Prelude
  import opened Utf8

  const MAX_MESSAGE := 8192
  const MAX_ERROR_LEN := 1024

  datatype Claims = Claims(iss: Bytes, iat: int, exp: int)
  datatype Request = SignJwt(claims: Claims) | Ping
  datatype Response = Jwt(token: Bytes) | Pong | Error(message: Bytes)

  // ----- capping an error message ------------------------------------------

  predicate IsBoundary(s: Bytes, i: nat)
    requires i <= |s|
  {
    i == 0 || i == |s| || !(0x80 <= s[i] <= 0xBF)
  }

  /** The last character boundary at or before `end`. */
  function Floor(s: Bytes, end: nat): (n: nat)
    requires end <= |s|
    ensures n <= end && IsBoundary(s, n)
    ensures forall i | n < i <= end :: !IsBoundary(s, i)
  {
    if IsBoundary(s, end) then end else Floor(s, end - 1)
  }

  function Cap(s: Bytes): Bytes {
    if |s| > MAX_ERROR_LEN then s[..Floor(s, MAX_ERROR_LEN)] else s
  }

  method CapError(msg: Bytes) returns (r: Bytes)
    ensures r == Cap(msg)
  {
    r := msg;
    if |msg| > MAX_ERROR_LEN {
      var end := MAX_ERROR_LEN;
      while !IsBoundary(msg, end)
        invariant 0 <= end <= MAX_ERROR_LEN && Floor(msg, end) == Floor(msg, MAX_ERROR_LEN)
        decreases end
      {
        end := end - 1;
      }
      r := msg[..end];
    }
  }

  lemma CharsAreTails(s: Bytes, i: nat)
    requires s != [] && 0 < i < CharLen(s)
    ensures 0x80 <= s[i] <= 0xBF
  {}

  lemma CharLenOfPrefix(s: Bytes, end: nat)
    requires s != [] && 0 < CharLen(s) <= end <= |s|
    ensures CharLen(s[..end]) == CharLen(s)
  {}

  lemma {:induction false} CutAtBoundary(s: Bytes, end: nat)
    requires IsUtf8(s) && end <= |s| && IsBoundary(s, end)
    ensures IsUtf8(s[..end])
    decreases |s|
  {
    if end > 0 {
      var n := CharLen(s);
      assert n <= end by {
        if end < n { CharsAreTails(s, end); }
      }
      CharLenOfPrefix(s, end);
      CutAtBoundary(s[n..], end - n);
      assert s[..end][n..] == s[n..][..end - n];
    }
  }

  lemma {:induction false} FloorIsNear(s: Bytes, end: nat)
    requires IsUtf8(s) && end <= |s|
    ensures end - Floor(s, end) <= 3
    decreases |s|
  {
    if s != [] {
      var n := CharLen(s);
      assert n <= 4;
      if n <= end {
        FloorIsNear(s[n..], end - n);
        var m := Floor(s[n..], end - n);
        if m > 0 || n == |s| {
          assert IsBoundary(s, n + m);
        } else {
          HeadIsBoundary(s[n..]);
          assert IsBoundary(s, n);
        }
      }
    }
  }

  lemma HeadIsBoundary(s: Bytes)
    requires IsUtf8(s) && s != []
    ensures !(0x80 <= s[0] <= 0xBF)
  {}

  /** Capping keeps a message well-formed UTF-8, a prefix, within the limit, and gives up at most
      three bytes to get there. */
  lemma CapIsTight(s: Bytes)
    requires IsUtf8(s)
    ensures IsUtf8(Cap(s)) && Cap(s) <= s && |Cap(s)| <= MAX_ERROR_LEN
    ensures |s| <= MAX_ERROR_LEN ==> Cap(s) == s
    ensures |s| > MAX_ERROR_LEN ==> |Cap(s)| >= MAX_ERROR_LEN - 3
  {
    if |s| > MAX_ERROR_LEN {
      CutAtBoundary(s, Floor(s, MAX_ERROR_LEN));
      FloorIsNear(s, MAX_ERROR_LEN);
    }
  }

  // ----- codec and signer --------------------------------------------------

  /** The JSON codec and the signing key, which this model does not look into. */
  datatype World = World(
    requestBytes: Request -> Bytes, requestOf: Bytes -> Result<Request, Bytes>,
    responseBytes: Response -> Bytes, responseOf: Bytes -> Result<Response, Bytes>,
    sign: Claims -> Result<Bytes, Bytes>)

  /** What is asked of the codec: it round-trips, no message is empty, and escaping makes a byte at
      most six. */
  ghost predicate Lawful(w: World) {
    && (forall r :: w.requestOf(w.requestBytes(r)) == Ok(r) && w.requestBytes(r) != [])
    && (forall r :: w.responseOf(w.responseBytes(r)) == Ok(r) && w.responseBytes(r) != [])
    && (forall m :: |w.responseBytes(Error(m))| <= 6 * |m| + 12)
  }

  // A lawful world exists: numbers in unary, one tag byte a message.

  function Unary(n: int): (b: Bytes)
    ensures b != []
  {
    [if n < 0 then 1 else 0] + seq(if n < 0 then -n else n, _ => 0) + [1]
  }

  /** The number at the head of `b` and what follows it. */
  function FromUnary(b: Bytes): (r: Option<(int, Bytes)>) {
    if b == [] then None
    else
      var p: int := IndexOf(b[1..], 1);
      if p == |b[1..]| then None else Some((if b[0] == 1 then -p else p, b[p + 2..]))
  }

  lemma UnaryReads(n: int, rest: Bytes)
    ensures FromUnary(Unary(n) + rest) == Some((n, rest))
  {
    var b, k := Unary(n) + rest, if n < 0 then -n else n;
    assert b[1..] == seq(k, _ => 0) + [1] + rest;
    IndexOfUnique(b[1..], 1, k);
    assert b[k + 2..] == rest;
  }

  function PlainRequest(r: Request): Bytes {
    match r
    case Ping => [0]
    case SignJwt(c) => [1] + (Unary(c.iat) + (Unary(c.exp) + c.iss))
  }

  function ReadRequest(b: Bytes): Result<Request, Bytes> {
    if b == [0] then Ok(Ping)
    else if b == [] then Err([])
    else
      match FromUnary(b[1..])
      case None => Err([])
      case Some((iat, rest)) =>
        match FromUnary(rest)
        case None => Err([])
        case Some((exp, iss)) => Ok(SignJwt(Claims(iss, iat, exp)))
  }

  function PlainResponse(r: Response): Bytes {
    match r
    case Pong => [0]
    case Jwt(t) => [1] + t
    case Error(m) => [2] + m
  }

  function ReadResponse(b: Bytes): Result<Response, Bytes> {
    if b == [] then Err([]) else if b[0] == 0 then Ok(Pong) else if b[0] == 1 then Ok(Jwt(b[1..])) else Ok(Error(b[1..]))
  }

  lemma LawfulExists(sign: Claims -> Result<Bytes, Bytes>)
    ensures Lawful(World(PlainRequest, ReadRequest, PlainResponse, ReadResponse, sign))
  {
    forall r: Request ensures ReadRequest(PlainRequest(r)) == Ok(r) {
      if r.SignJwt? {
        var c := r.claims;
        UnaryReads(c.iat, Unary(c.exp) + c.iss);
        UnaryReads(c.exp, c.iss);
        assert PlainRequest(r)[1..] == Unary(c.iat) + (Unary(c.exp) + c.iss);
      }
    }
  }

  const SIGN_PREFIX: Bytes := [0x73, 0x69, 0x67, 0x6E, 0x3A, 0x20]  // "sign: "

  function Handle(w: World, datagram: Bytes): Response {
    match w.requestOf(datagram)
    case Err(e) => Error(Cap(e))
    case Ok(Ping) => Pong
    case Ok(SignJwt(claims)) =>
      match w.sign(claims)
      case Ok(token) => Jwt(token)
      case Err(e) => Error(Cap(SIGN_PREFIX + e))
  }

  /** An error response always fits a datagram, so the agent never dies for want of room to refuse. */
  lemma ErrorsFit(w: World, datagram: Bytes)
    requires Lawful(w) && Handle(w, datagram).Error?
    ensures |w.responseBytes(Handle(w, datagram))| <= MAX_MESSAGE
  {}
}
