/** The git-credential block parser and printer (src/git_credential.rs): a loop over lines that
    fills optional slots, proved equal to a declarative grammar. */
module GitCredential {
  import opened Prelude
  import opened Utf8

  const MAX_VALUE_BYTES: nat := 4096
  const PARSER_HARD_MAX: nat := 65536
  const EQUALS: byte := 61

  const PROTOCOL: Bytes := [112, 114, 111, 116, 111, 99, 111, 108] // protocol
  const HOST: Bytes := [104, 111, 115, 116] // host
  const PATH: Bytes := [112, 97, 116, 104] // path
  const CAPABILITY: Bytes := [99, 97, 112, 97, 98, 105, 108, 105, 116, 121, 91, 93] // capability[]
  const AUTHTYPE: Bytes := [97, 117, 116, 104, 116, 121, 112, 101] // authtype
  const DOT_GIT: Bytes := [46, 103, 105, 116] // .git

  datatype Request = Request(protocol: Bytes, host: Bytes, path: Bytes, authtype: bool)

  datatype Key = ProtocolKey | HostKey | PathKey

  datatype CredentialError =
    | RequestTooLarge
    | TrailingBytes
    | UnterminatedBlock
    | ControlByteInLine(line: nat, offset: nat, bad: byte)
    | MissingSeparator(line: nat)
    | EmptyKey(line: nat)
    | DuplicateKey(key: Key)
    | ValueTooLong(key: Key)
    | EmptyValue(key: Key)
    | InvalidUtf8(key: Key)
    | MissingRequiredKey(key: Key)
    | ResponseControlByte(password: bool)
    | PreEpochExpiry

  // ----- lines -------------------------------------------------------------

  /** `split(|c| c == b'\n')`: always at least one piece. */
  function Split(s: Bytes): (ls: seq<Bytes>)
    ensures ls != []
    decreases |s|
  {
    var p := IndexOf(s, LF);
    if p == |s| then [s] else [s[..p]] + Split(s[p + 1..])
  }

  lemma SplitCons(l: Bytes, rest: Bytes)
    requires LF !in l
    ensures Split(l + [LF] + rest) == [l] + Split(rest)
  {
    var s := l + [LF] + rest;
    assert forall i | 0 <= i < |l| :: s[i] == l[i] && s[i] in l;
    IndexOfUnique(s, LF, |l|);
    assert s[..|l|] == l && s[|l| + 1..] == rest;
  }

  /** Where the first blank line starts, or `|s|`. */
  function FirstBlank(s: Bytes): (p: nat)
    ensures p <= |s|
    ensures p < |s| ==> p + 1 < |s| && s[p] == LF && s[p + 1] == LF
    ensures forall i | 0 <= i < p && i + 1 < |s| :: !(s[i] == LF && s[i + 1] == LF)
  {
    if |s| < 2 then |s|
    else if s[0] == LF && s[1] == LF then 0
    else
      1 + FirstBlank(s[1..])
  }

  /** Offset of the first NUL or CR, or `|s|`. */
  function FirstControl(s: Bytes): (p: nat)
    ensures p <= |s|
    ensures p < |s| ==> s[p] == NUL || s[p] == CR
    ensures forall i | 0 <= i < p :: s[i] != NUL && s[i] != CR
  {
    if s == [] || s[0] == NUL || s[0] == CR then 0 else 1 + FirstControl(s[1..])
  }

  // ----- the parser --------------------------------------------------------

  datatype Slots = Slots(protocol: Option<Bytes>, host: Option<Bytes>, path: Option<Bytes>, authtype: bool)

  function Get(s: Slots, k: Key): Option<Bytes> {
    match k case ProtocolKey => s.protocol case HostKey => s.host case PathKey => s.path
  }

  function Put(s: Slots, k: Key, v: Bytes): Slots {
    match k
    case ProtocolKey => s.(protocol := Some(v))
    case HostKey => s.(host := Some(v))
    case PathKey => s.(path := Some(v))
  }

  function KeyName(k: Key): Bytes {
    match k case ProtocolKey => PROTOCOL case HostKey => HOST case PathKey => PATH
  }

  function KeyNamed(name: Bytes): Option<Key> {
    if name == PROTOCOL then Some(ProtocolKey)
    else if name == HOST then Some(HostKey)
    else if name == PATH then Some(PathKey)
    else None
  }

  function Store(s: Slots, k: Key, v: Bytes): Result<Slots, CredentialError> {
    if Get(s, k).Some? then Err(DuplicateKey(k))
    else if |v| > MAX_VALUE_BYTES then Err(ValueTooLong(k))
    else if v == [] then Err(EmptyValue(k))
    else if !IsUtf8(v) then Err(InvalidUtf8(k))
    else Ok(Put(s, k, v))
  }

  function FeedLine(s: Slots, line: Bytes, no: nat): Result<Slots, CredentialError> {
    var bad := FirstControl(line);
    var eq := IndexOf(line, EQUALS);
    if bad < |line| then Err(ControlByteInLine(no, bad, line[bad]))
    else if eq == |line| then Err(MissingSeparator(no))
    else
      var key, value := line[..eq], line[eq + 1..];
      if key == [] then Err(EmptyKey(no))
      else if key == CAPABILITY then
        Ok(s.(authtype := if value == [] then false else if value == AUTHTYPE then true else s.authtype))
      else
        match KeyNamed(key)
        case None => Ok(s)
        case Some(k) => Store(s, k, value)
  }

  function FeedLines(s: Slots, lines: seq<Bytes>, no: nat): Result<Slots, CredentialError>
    decreases |lines|
  {
    if lines == [] then Ok(s)
    else
      match FeedLine(s, lines[0], no)
      case Err(e) => Err(e)
      case Ok(s') => FeedLines(s', lines[1..], no + 1)
  }

  /** The block without its terminator: a blank line, or the end of input after a newline. */
  function BlockOf(input: Bytes): Result<Bytes, CredentialError> {
    var p := FirstBlank(input);
    if p < |input| then
      if p + 2 < |input| then Err(TrailingBytes) else Ok(input[..p])
    else if input == [] || input[|input| - 1] != LF then Err(UnterminatedBlock)
    else Ok(input[..|input| - 1])
  }

  function StripGit(path: Bytes): Bytes {
    if |path| >= 4 && path[|path| - 4..] == DOT_GIT then path[..|path| - 4] else path
  }

  function Finish(s: Slots): Result<Request, CredentialError> {
    if s.protocol.None? then Err(MissingRequiredKey(ProtocolKey))
    else if s.host.None? then Err(MissingRequiredKey(HostKey))
    else if s.path.None? then Err(MissingRequiredKey(PathKey))
    else if s.path.value == DOT_GIT then Err(EmptyValue(PathKey))
    else Ok(Request(s.protocol.value, s.host.value, StripGit(s.path.value), s.authtype))
  }

  const EMPTY: Slots := Slots(None, None, None, false)

  function ParseBlock(block: Bytes): Result<Request, CredentialError> {
    match FeedLines(EMPTY, Split(block), 1)
    case Err(e) => Err(e)
    case Ok(s) => Finish(s)
  }

  function ParseInput(input: Bytes): (r: Result<Request, CredentialError>)
  {
    if |input| > PARSER_HARD_MAX then Err(RequestTooLarge)
    else
      match BlockOf(input)
      case Err(e) => Err(e)
      case Ok(block) => ParseBlock(block)
  }

  /** `Request::parse`: one pass over the lines, stopping at the first offence. */
  method ParseRequest(input: Bytes) returns (r: Result<Request, CredentialError>)
    ensures r == ParseInput(input)
  {
    if |input| > PARSER_HARD_MAX {
      return Err(RequestTooLarge);
    }
    var block := BlockOf(input);
    if block.Err? {
      return Err(block.error);
    }
    var lines := Split(block.value);
    var slots := EMPTY;
    for i := 0 to |lines|
      invariant FeedLines(EMPTY, lines, 1) == FeedLines(slots, lines[i..], i + 1)
    {
      assert lines[i..][0] == lines[i] && lines[i..][1..] == lines[i + 1..];
      var fed := FeedLine(slots, lines[i], i + 1);
      if fed.Err? {
        return Err(fed.error);
      }
      slots := fed.value;
    }
    r := Finish(slots);
  }

  // ----- the grammar -------------------------------------------------------

  predicate CleanLine(line: Bytes) {
    && (forall i | 0 <= i < |line| :: line[i] != NUL && line[i] != CR)
    && 1 <= IndexOf(line, EQUALS) < |line|
  }

  predicate GoodValue(v: Bytes) {
    1 <= |v| <= MAX_VALUE_BYTES && IsUtf8(v)
  }

  function KeyOf(line: Bytes): Bytes {
    line[..IndexOf(line, EQUALS)]
  }

  function ValueOf(line: Bytes): Bytes
    requires CleanLine(line)
  {
    line[IndexOf(line, EQUALS) + 1..]
  }

  /** The values given to `name`, in order. */
  function Values(lines: seq<Bytes>, name: Bytes): (vs: seq<Bytes>)
    requires forall l | l in lines :: CleanLine(l)
  {
    if lines == [] then []
    else (if KeyOf(lines[0]) == name then [ValueOf(lines[0])] else []) + Values(lines[1..], name)
  }

  /** Last one wins: an `authtype` not followed by a reset. */
  ghost predicate Advertised(caps: seq<Bytes>) {
    exists i :: 0 <= i < |caps| && caps[i] == AUTHTYPE && forall j | i < j < |caps| :: caps[j] != []
  }

  /** Given exactly once, with a good value. */
  predicate Once(vs: seq<Bytes>) {
    |vs| == 1 && GoodValue(vs[0])
  }

  ghost predicate Grammatical(lines: seq<Bytes>)
  {
    && (forall l | l in lines :: CleanLine(l))
    && Once(Values(lines, PROTOCOL)) && Once(Values(lines, HOST)) && Once(Values(lines, PATH))
    && Values(lines, PATH)[0] != DOT_GIT
  }

  ghost predicate Terminated(input: Bytes, block: Bytes)
  {
    && (input == block + [LF] || input == block + [LF, LF])
    && FirstBlank(block + [LF]) == |block + [LF]|
  }

  /** What a run over `lines` from `s` needs and leaves, without reference to the order of errors. */
  ghost predicate Admits(s: Slots, lines: seq<Bytes>)
  {
    && (forall l | l in lines :: CleanLine(l))
    && forall k: Key ::
         if Get(s, k).Some? then Values(lines, KeyName(k)) == []
         else |Values(lines, KeyName(k))| <= 1 && forall v | v in Values(lines, KeyName(k)) :: GoodValue(v)
  }

  function CapFold(flag: bool, caps: seq<Bytes>): bool
    decreases |caps|
  {
    if caps == [] then flag
    else CapFold(if caps[0] == [] then false else if caps[0] == AUTHTYPE then true else flag, caps[1..])
  }

  ghost function Filled(s: Slots, lines: seq<Bytes>, k: Key): Option<Bytes>
    requires Admits(s, lines)
  {
    if Get(s, k).Some? || Values(lines, KeyName(k)) == [] then Get(s, k) else Some(Values(lines, KeyName(k))[0])
  }

  lemma KeyNamesDiffer(name: Bytes, k: Key)
    ensures name == KeyName(k) <==> KeyNamed(name) == Some(k)
    ensures KeyName(k) != CAPABILITY
  {}

  /** One line, declaratively: clean, and if it names a required key, the first to do so, with a
      good value. */
  lemma FeedLineIff(s: Slots, line: Bytes, no: nat)
    ensures FeedLine(s, line, no).Ok? <==>
              && CleanLine(line)
              && (KeyNamed(KeyOf(line)).Some? ==> Get(s, KeyNamed(KeyOf(line)).value).None? && GoodValue(ValueOf(line)))
    ensures FeedLine(s, line, no).Ok? ==>
              FeedLine(s, line, no).value ==
              match KeyNamed(KeyOf(line))
              case Some(k) => Put(s, k, ValueOf(line))
              case None => if KeyOf(line) == CAPABILITY then s.(authtype := CapFold(s.authtype, [ValueOf(line)])) else s
  {}

  lemma GetPut(s: Slots, k: Key, v: Bytes, j: Key)
    ensures Get(Put(s, k, v), j) == if j == k then Some(v) else Get(s, j)
  {}

  lemma ValuesHead(lines: seq<Bytes>, name: Bytes)
    requires lines != [] && forall l | l in lines :: CleanLine(l)
    ensures forall l | l in lines[1..] :: CleanLine(l)
    ensures CleanLine(lines[0])
    ensures KeyOf(lines[0]) == name ==> Values(lines, name) == [ValueOf(lines[0])] + Values(lines[1..], name)
    ensures KeyOf(lines[0]) != name ==> Values(lines, name) == Values(lines[1..], name)
  {}

  /** `Admits` one line at a time. */
  lemma FedSlot(s: Slots, line: Bytes, no: nat, k: Key)
    requires CleanLine(line) && FeedLine(s, line, no).Ok?
    ensures Get(FeedLine(s, line, no).value, k) == if KeyOf(line) == KeyName(k) then Some(ValueOf(line)) else Get(s, k)
  {
    KeyNamesDiffer(KeyOf(line), k);
    FeedLineIff(s, line, no);
    if KeyNamed(KeyOf(line)).Some? {
      GetPut(s, KeyNamed(KeyOf(line)).value, ValueOf(line), k);
    }
  }

  lemma AdmitsHead(s: Slots, lines: seq<Bytes>, no: nat)
    requires lines != []
    ensures Admits(s, lines) <==>
              FeedLine(s, lines[0], no).Ok? && Admits(FeedLine(s, lines[0], no).value, lines[1..])
  {
    FeedLineIff(s, lines[0], no);
    var line, rest := lines[0], lines[1..];
    assert forall l :: l in lines <==> l == line || l in rest;
    if CleanLine(line) && forall l | l in rest :: CleanLine(l) {
      forall k: Key ensures KeyOf(line) == KeyName(k) <==> KeyNamed(KeyOf(line)) == Some(k) {
        KeyNamesDiffer(KeyOf(line), k);
      }
      forall k: Key { ValuesHead(lines, KeyName(k)); }
      if FeedLine(s, line, no).Ok? {
        forall k: Key
          ensures Get(FeedLine(s, line, no).value, k) == if KeyOf(line) == KeyName(k) then Some(ValueOf(line)) else Get(s, k)
        {
          FedSlot(s, line, no, k);
        }
      }
    }
  }

  /** The whole loop, declaratively. */
  lemma {:induction false} FeedLinesIff(s: Slots, lines: seq<Bytes>, no: nat)
    ensures FeedLines(s, lines, no).Ok? <==> Admits(s, lines)
    ensures Admits(s, lines) ==>
              var s' := FeedLines(s, lines, no).value;
              && (forall k: Key :: Get(s', k) == Filled(s, lines, k))
              && s'.authtype == CapFold(s.authtype, Values(lines, CAPABILITY))
    decreases |lines|
  {
    if lines == [] {
    } else {
      AdmitsHead(s, lines, no);
      if FeedLine(s, lines[0], no).Ok? {
        FeedLinesIff(FeedLine(s, lines[0], no).value, lines[1..], no + 1);
        if Admits(s, lines) {
          FilledHead(s, lines, no);
        }
      }
    }
  }

  lemma FilledHead(s: Slots, lines: seq<Bytes>, no: nat)
    requires lines != [] && Admits(s, lines) && FeedLine(s, lines[0], no).Ok? && Admits(FeedLine(s, lines[0], no).value, lines[1..])
    ensures var s' := FeedLine(s, lines[0], no).value;
            && (forall k: Key :: Filled(s', lines[1..], k) == Filled(s, lines, k))
            && CapFold(s'.authtype, Values(lines[1..], CAPABILITY)) == CapFold(s.authtype, Values(lines, CAPABILITY))
  {
    var line, s' := lines[0], FeedLine(s, lines[0], no).value;
    FeedLineIff(s, line, no);
    forall k: Key ensures Filled(s', lines[1..], k) == Filled(s, lines, k) {
      KeyNamesDiffer(KeyOf(line), k);
      ValuesHead(lines, KeyName(k));
      if KeyNamed(KeyOf(line)).Some? {
        GetPut(s, KeyNamed(KeyOf(line)).value, ValueOf(line), k);
      }
    }
    ValuesHead(lines, CAPABILITY);
    forall k: Key { KeyNamesDiffer(KeyOf(line), k); }
    if KeyOf(line) == CAPABILITY {
      var vs := Values(lines, CAPABILITY);
      assert vs[0] == ValueOf(line) && vs[1..] == Values(lines[1..], CAPABILITY);
      var one: seq<Bytes> := [ValueOf(line)];
      assert one[1..] == [];
    } else if KeyNamed(KeyOf(line)).Some? {
      assert s'.authtype == s.authtype;
    }
  }

  /** The capability flag is a last-one-wins reading of the list. */
  lemma {:induction false} CapFoldIs(flag: bool, caps: seq<Bytes>)
    ensures CapFold(flag, caps) <==> Advertised(caps) || (flag && forall j | 0 <= j < |caps| :: caps[j] != [])
    decreases |caps|
  {
    if caps != [] {
      var flag' := if caps[0] == [] then false else if caps[0] == AUTHTYPE then true else flag;
      CapFoldIs(flag', caps[1..]);
      assert forall j | 0 <= j < |caps| - 1 :: caps[1..][j] == caps[j + 1];
      if Advertised(caps[1..]) {
        var i :| 0 <= i < |caps[1..]| && caps[1..][i] == AUTHTYPE && forall j | i < j < |caps[1..]| :: caps[1..][j] != [];
        assert caps[i + 1] == AUTHTYPE && forall j | i + 1 < j < |caps| :: caps[j] == caps[1..][j - 1];
      }
      if Advertised(caps) && !(caps[0] == AUTHTYPE && forall j | 0 < j < |caps| :: caps[j] != []) {
        var i :| 0 <= i < |caps| && caps[i] == AUTHTYPE && forall j | i < j < |caps| :: caps[j] != [];
        assert i > 0 && caps[1..][i - 1] == AUTHTYPE;
        assert forall j | i - 1 < j < |caps[1..]| :: caps[1..][j] == caps[j + 1];
      }
    }
  }

  lemma TerminatedIsBlock(input: Bytes, block: Bytes)
    requires Terminated(input, block)
    ensures BlockOf(input) == Ok(block)
  {
    var (open, p) := (block + [LF], FirstBlank(input));
    forall i | 0 <= i < |open| && i + 1 < |open| ensures !(open[i] == LF && open[i + 1] == LF) {}
    assert forall i | 0 <= i < |open| :: input[i] == open[i];
    if input == block + [LF, LF] {
      assert input[|block|] == LF && input[|block| + 1] == LF;
      assert p == |block|;
    } else {
      assert p == |input|;
    }
    assert input[..|block|] == block;
  }

  lemma BlockIsTerminated(input: Bytes, block: Bytes)
    requires BlockOf(input) == Ok(block)
    ensures Terminated(input, block)
  {
    var open := block + [LF];
    assert open == input[..|block| + 1];
    assert FirstBlank(open) == |open|;
    if FirstBlank(input) < |input| {
      assert input == block + [LF, LF];
    } else {
      assert input == block + [LF];
    }
  }

  lemma BlockIff(input: Bytes, block: Bytes)
    ensures BlockOf(input) == Ok(block) <==> Terminated(input, block)
  {
    if Terminated(input, block) {
      TerminatedIsBlock(input, block);
    }
    if BlockOf(input) == Ok(block) {
      BlockIsTerminated(input, block);
    }
  }

  /** The parser is the grammar: it accepts exactly the terminated blocks within the size cap whose
      lines are clean and give each required key once, with a good value, and reads off those values
      (the path without one `.git`) and the last word on `authtype`. */
  lemma ParseIff(input: Bytes, r: Request)
    ensures ParseInput(input) == Ok(r) <==>
            && |input| <= PARSER_HARD_MAX
            && exists block ::
                 && Terminated(input, block) && Grammatical(Split(block))
                 && r == Meaning(Split(block))
  {
    if |input| <= PARSER_HARD_MAX && BlockOf(input).Ok? {
      var block := BlockOf(input).value;
      BlockIff(input, block);
      ParseBlockIff(block);
    }
    if block :| Terminated(input, block) && Grammatical(Split(block)) && r == Meaning(Split(block)) {
      BlockIff(input, block);
      ParseBlockIff(block);
    }
  }

  ghost function Meaning(lines: seq<Bytes>): Request
    requires Grammatical(lines)
  {
    Request(Values(lines, PROTOCOL)[0], Values(lines, HOST)[0], StripGit(Values(lines, PATH)[0]),
            Advertised(Values(lines, CAPABILITY)))
  }

  lemma ParseBlockIff(block: Bytes)
    ensures ParseBlock(block).Ok? <==> Grammatical(Split(block))
    ensures Grammatical(Split(block)) ==> ParseBlock(block).value == Meaning(Split(block))
  {
    var lines := Split(block);
    FeedLinesIff(EMPTY, lines, 1);
    if Grammatical(lines) {
      OnceAdmits(lines);
    }
    if Admits(EMPTY, lines) {
      var s := FeedLines(EMPTY, lines, 1).value;
      FilledTells(lines, ProtocolKey);
      FilledTells(lines, HostKey);
      FilledTells(lines, PathKey);
      assert Get(s, ProtocolKey) == s.protocol && Get(s, HostKey) == s.host && Get(s, PathKey) == s.path;
      CapFoldIs(false, Values(lines, CAPABILITY));
    }
  }

  lemma OnceAdmits(lines: seq<Bytes>)
    requires Grammatical(lines)
    ensures Admits(EMPTY, lines)
  {}

  lemma FilledTells(lines: seq<Bytes>, k: Key)
    requires Admits(EMPTY, lines)
    ensures var vs := Values(lines, KeyName(k));
            Filled(EMPTY, lines, k) == if Once(vs) then Some(vs[0]) else None
  {}

  /** A block ended by a blank line and the same block ended by end of input mean the same, errors
      included, as long as the longer form is within the cap. */
  lemma TerminatorsAgree(block: Bytes)
    requires FirstBlank(block + [LF]) == |block + [LF]| && |block| + 2 <= PARSER_HARD_MAX
    ensures ParseInput(block + [LF]) == ParseInput(block + [LF, LF])
  {
    BlockIff(block + [LF], block);
    BlockIff(block + [LF, LF], block);
  }

  // ----- responses ---------------------------------------------------------

  predicate CleanField(s: Bytes) {
    forall i | 0 <= i < |s| :: s[i] != NUL && s[i] != CR && s[i] != LF
  }

  /** `expiry` is in nanoseconds since the epoch. */
  datatype Response = Response(username: Bytes, password: Bytes, expiry: int)

  predicate ValidResponse(r: Response) {
    CleanField(r.username) && CleanField(r.password) && r.expiry >= 0
  }

  type CheckedResponse = r: Response | ValidResponse(r) witness Response([], [], 0)

  /** `Response::new`: the user name is checked first, then the password, then the date. */
  function NewResponse(username: Bytes, password: Bytes, expiry: int): (r: Result<Response, CredentialError>)
    ensures r.Ok? <==> ValidResponse(Response(username, password, expiry))
    ensures r.Ok? ==> r.value == Response(username, password, expiry)
  {
    if !CleanField(username) then Err(ResponseControlByte(false))
    else if !CleanField(password) then Err(ResponseControlByte(true))
    else if expiry < 0 then Err(PreEpochExpiry)
    else Ok(Response(username, password, expiry))
  }

  function Decimal(n: nat): (d: Bytes)
    ensures d != [] && forall i | 0 <= i < |d| :: 48 <= d[i] <= 57
  {
    if n < 10 then [48 + n] else Decimal(n / 10) + [48 + n % 10]
  }

  function DecimalValue(d: Bytes): nat
    requires forall i | 0 <= i < |d| :: 48 <= d[i] <= 57
  {
    if d == [] then 0 else 10 * DecimalValue(d[..|d| - 1]) + (d[|d| - 1] - 48)
  }

  lemma {:induction false} DecimalReads(n: nat)
    ensures DecimalValue(Decimal(n)) == n
    ensures n > 0 ==> Decimal(n)[0] != 48
  {
    if n >= 10 {
      DecimalReads(n / 10);
      var d := Decimal(n);
      assert d[..|d| - 1] == Decimal(n / 10);
    }
  }

  function ExpirySeconds(r: Response): nat
    requires ValidResponse(r)
  {
    r.expiry / 1_000_000_000
  }

  const USERNAME_EQ: Bytes := [117, 115, 101, 114, 110, 97, 109, 101, 61] // username=
  const PASSWORD_EQ: Bytes := [112, 97, 115, 115, 119, 111, 114, 100, 61] // password=
  const EPHEMERAL: Bytes := [101, 112, 104, 101, 109, 101, 114, 97, 108, 61, 116, 114, 117, 101] // ephemeral=true
  const EXPIRY_EQ: Bytes :=  // password_expiry_utc=
    [112, 97, 115, 115, 119, 111, 114, 100, 95, 101, 120, 112, 105, 114, 121, 95, 117, 116, 99, 61]
  const CAPABILITY_AUTHTYPE: Bytes := CAPABILITY + [EQUALS] + AUTHTYPE

  /** The lines a response is meant to consist of. */
  function ResponseLines(r: Response, authtype: bool): (ls: seq<Bytes>)
    requires ValidResponse(r)
  {
    (if authtype then [CAPABILITY_AUTHTYPE] else [])
    + [USERNAME_EQ + r.username, PASSWORD_EQ + r.password]
    + (if authtype then [EPHEMERAL] else [])
    + [EXPIRY_EQ + Decimal(ExpirySeconds(r))]
  }

  function Joined(ls: seq<Bytes>): (s: Bytes) {
    if ls == [] then [] else ls[0] + [LF] + Joined(ls[1..])
  }

  /** A response as it goes on the wire: its lines, then a blank one. */
  function ResponseText(r: Response, authtype: bool): (s: Bytes)
    requires ValidResponse(r)
  {
    Joined(ResponseLines(r, authtype)) + [LF]
  }

  /** A reader that splits a response at newlines finds exactly the intended lines and the blank
      terminator, whatever the user name and password contain. */
  lemma ResponseSplits(r: Response, authtype: bool)
    requires ValidResponse(r)
    ensures Split(ResponseText(r, authtype)) == ResponseLines(r, authtype) + [[], []]
  {
    NoNewlines(r, authtype);
    SplitJoined(ResponseLines(r, authtype), [LF]);
    assert Split([LF]) == [[], []] by { assert [LF][..0] == [] && [LF][1..] == []; }
  }

  lemma {:induction false} SplitJoined(ls: seq<Bytes>, rest: Bytes)
    requires forall l | l in ls :: LF !in l
    ensures Split(Joined(ls) + rest) == ls + Split(rest)
    decreases |ls|
  {
    if ls == [] {
      assert Joined(ls) + rest == rest && ls + Split(rest) == Split(rest);
    } else {
      SplitJoined(ls[1..], rest);
      SplitCons(ls[0], Joined(ls[1..]) + rest);
      Regrouped(ls[0] + [LF], Joined(ls[1..]), rest);
      Regrouped([ls[0]], ls[1..], Split(rest));
      assert [ls[0]] + ls[1..] == ls;
    }
  }

  /** `Response::encode`: appends to the caller's buffer. */
  method Encode(r: Response, out: Bytes, authtype: bool) returns (out': Bytes)
    requires ValidResponse(r)
    ensures out' == out + ResponseText(r, authtype)
    ensures Split(out'[|out|..]) == ResponseLines(r, authtype) + [[], []]
  {
    ghost var ls: seq<Bytes> := [];
    out' := out;
    if authtype {
      out' := out' + CAPABILITY_AUTHTYPE + [LF];
      ls := Appended(ls, CAPABILITY_AUTHTYPE, out, out');
    }
    out' := out' + (USERNAME_EQ + r.username) + [LF];
    ls := Appended(ls, USERNAME_EQ + r.username, out, out');
    out' := out' + (PASSWORD_EQ + r.password) + [LF];
    ls := Appended(ls, PASSWORD_EQ + r.password, out, out');
    if authtype {
      out' := out' + EPHEMERAL + [LF];
      ls := Appended(ls, EPHEMERAL, out, out');
    }
    out' := out' + (EXPIRY_EQ + Decimal(ExpirySeconds(r))) + [LF];
    ls := Appended(ls, EXPIRY_EQ + Decimal(ExpirySeconds(r)), out, out');
    assert ls == ResponseLines(r, authtype);
    out' := out' + [LF];
    assert out'[|out|..] == ResponseText(r, authtype);
    ResponseSplits(r, authtype);
  }

  lemma Appended(ls: seq<Bytes>, l: Bytes, out: Bytes, out': Bytes) returns (ls': seq<Bytes>)
    requires out' == out + Joined(ls) + l + [LF]
    ensures ls' == ls + [l] && out' == out + Joined(ls')
  {
    ls' := ls + [l];
    JoinedSnoc(ls, l);
  }

  lemma {:induction false} JoinedSnoc(ls: seq<Bytes>, l: Bytes)
    ensures Joined(ls + [l]) == Joined(ls) + l + [LF]
    decreases |ls|
  {
    if ls == [] {
      assert ls + [l] == [l];
    } else {
      JoinedSnoc(ls[1..], l);
      assert (ls + [l])[1..] == ls[1..] + [l];
    }
  }

  lemma NoNewlines(r: Response, authtype: bool)
    requires ValidResponse(r)
    ensures forall l | l in ResponseLines(r, authtype) :: LF !in l
  {}
}
