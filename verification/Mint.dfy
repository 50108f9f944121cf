/** Minting (`mint`, src/providers/github.rs): concurrent mints share a token cache and the repo-id
    memo across awaits, and any of them may be dropped at any await. */
module Mint {
  import opened Prelude
  import SF = Singleflight
  import TC = TtlCaches

  // ----- repository paths --------------------------------------------------

  const SLASH: byte := 0x2F

  predicate IsPathByte(b: byte) {
    || 0x30 <= b <= 0x39 || 0x41 <= b <= 0x5A || 0x61 <= b <= 0x7A
    || b == 0x2D || b == 0x5F || b == 0x2E
  }

  predicate IsName(s: Bytes) {
    s != [] && forall i | 0 <= i < |s| :: IsPathByte(s[i])
  }

  datatype RepoPath = RepoPath(owner: Bytes, repo: Bytes)

  /** Split at the first slash, then check both halves. */
  function ParsePath(path: Bytes): Option<RepoPath> {
    var i := IndexOf(path, SLASH);
    if i == |path| then None
    else if IsName(path[..i]) && IsName(path[i + 1..]) then Some(RepoPath(path[..i], path[i + 1..]))
    else None
  }

  /** A path parses exactly when it is two names joined by a slash, and to those names. */
  lemma ParsePathIff(path: Bytes, owner: Bytes, repo: Bytes)
    ensures ParsePath(path) == Some(RepoPath(owner, repo)) <==>
              path == owner + [SLASH] + repo && IsName(owner) && IsName(repo)
  {
    var i := IndexOf(path, SLASH);
    if path == owner + [SLASH] + repo && IsName(owner) && IsName(repo) {
      assert path[|owner|] == SLASH;
      assert forall k | 0 <= k < |owner| :: path[k] == owner[k];
      IndexOfUnique(path, SLASH, |owner|);
      assert path[..|owner|] == owner && path[|owner| + 1..] == repo;
    } else if i < |path| {
      assert path == path[..i] + [SLASH] + path[i + 1..];
    }
  }

  function LowerByte(b: byte): byte {
    if 0x41 <= b <= 0x5A then b + 32 else b
  }

  function Lower(s: Bytes): (r: Bytes)
    ensures |r| == |s| && forall i | 0 <= i < |s| :: r[i] == LowerByte(s[i])
  {
    seq(|s|, i requires 0 <= i < |s| => LowerByte(s[i]))
  }

  function Key(p: RepoPath): Bytes {
    Lower(p.owner) + [SLASH] + Lower(p.repo)
  }

  /** Two paths share a key exactly when they differ in ASCII case alone. */
  lemma SameKeyIff(a: Bytes, b: Bytes)
    requires ParsePath(a).Some? && ParsePath(b).Some?
    ensures Key(ParsePath(a).value) == Key(ParsePath(b).value) <==> Lower(a) == Lower(b)
  {
    KeyIsLower(a);
    KeyIsLower(b);
  }

  lemma KeyIsLower(path: Bytes)
    requires ParsePath(path).Some?
    ensures Key(ParsePath(path).value) == Lower(path)
  {}

  // ----- state -------------------------------------------------------------

  type RepoId = nat
  type Token = TC.Held<Bytes>  // with its expiry

  datatype Task =
    | Looking(key: Bytes)
    | Asking(key: Bytes)                 // inside `with`: the memo has a task of the same number
    | Minting(key: Bytes, id: RepoId)
    | Served(key: Bytes, token: Token)
    | Failed(key: Bytes)

  datatype State = State(ids: SF.State<Bytes, RepoId>, tokens: map<Bytes, Token>, mints: map<nat, Task>)

  const START := State(SF.State(SF.Store(map[], 0), map[]), map[], map[])

  datatype Event =
    | Begun(t: nat, path: Bytes)
    | Looked(t: nat, key: Bytes, now: int)
    | Flew(step: SF.Event<Bytes, RepoId>)          // a claim, or the end of a resolve
    | Answered(t: nat)
    | Minted(t: nat, key: Bytes, id: RepoId, token: Token, now: int)
    | NotFound(t: nat, key: Bytes, hit: bool)
    | Errored(t: nat)
    | Cancelled(t: nat)

  ghost predicate Next(s: State, e: Event, s': State) {
    match e
    case Begun(t, path) =>
      && t !in s.mints && t !in s.ids.tasks && ParsePath(path).Some?
      && s' == s.(mints := s.mints[t := Looking(Key(ParsePath(path).value))])
    case Looked(t, key, now) =>
      && t in s.mints && s.mints[t] == Looking(key)
      && s'.tokens == TC.Apply(s.tokens, TC.Get(key, now))
      && (if key in s'.tokens
          then s'.mints == s.mints[t := Served(key, s'.tokens[key])] && s'.ids == s.ids
          else s'.mints == s.mints[t := Asking(key)] && SF.Next(s.ids, SF.Start(t, key), s'.ids))
    case Flew(step) =>
      && (step.Claimed? || step.Resolved? || step.Errored?)
      && SF.Next(s.ids, step, s'.ids) && s' == s.(ids := s'.ids)
    case Answered(t) =>
      && t in s.mints && s.mints[t].Asking? && t in s.ids.tasks && s.ids.tasks[t].Returned?
      && var (key, r) := (s.mints[t].key, s.ids.tasks[t].result);
         s' == s.(mints := s.mints[t := if r.Some? then Minting(key, r.value) else Failed(key)])
    case Minted(t, key, id, token, now) =>
      && t in s.mints && s.mints[t] == Minting(key, id)
      && s' == s.(tokens := TC.Apply(s.tokens, TC.Put(key, token, now)), mints := s.mints[t := Served(key, token)])
    case NotFound(t, key, hit) =>
      && t in s.mints && s.mints[t].Minting? && s.mints[t].key == key
      && SF.Next(s.ids, SF.Invalidated(key, hit), s'.ids)
      && s' == State(s'.ids, TC.Apply(s.tokens, TC.Drop(key)), s.mints[t := Failed(key)])
    case Errored(t) => t in s.mints && s.mints[t].Minting? && s' == s.(mints := s.mints[t := Failed(s.mints[t].key)])
    case Cancelled(t) =>
      && t in s.mints && s'.tokens == s.tokens && s'.mints == s.mints - {t}
      && (if s.mints[t].Asking? then SF.Next(s.ids, SF.Dropped(t), s'.ids) else s'.ids == s.ids)
  }

  /** Step `i` of a run. */
  ghost predicate StepAt(states: seq<State>, events: seq<Event>, i: int)
    requires 0 <= i < |events| < |states|
  {
    Next(states[i], events[i], states[i + 1])
  }

  ghost predicate IsRun(states: seq<State>, events: seq<Event>) {
    && |states| == |events| + 1
    && states[0] == START
    && forall i | 0 <= i < |events| :: StepAt(states, events, i)
  }

  // ----- the memo's share of a run -----------------------------------------

  /** The memo's step within a mint step, if it has one. */
  function Flight(s: State, e: Event): Option<SF.Event<Bytes, RepoId>> {
    match e
    case Looked(t, key, now) => if key in TC.Alive(s.tokens, now) then None else Some(SF.Start(t, key))
    case Flew(step) => Some(step)
    case NotFound(t, key, hit) => Some(SF.Invalidated(key, hit))
    case Cancelled(t) => if t in s.mints && s.mints[t].Asking? then Some(SF.Dropped(t)) else None
    case _ => None
  }

  lemma StepProjects(s: State, e: Event, s': State)
    requires Next(s, e, s')
    ensures Flight(s, e).None? ==> s'.ids == s.ids
    ensures Flight(s, e).Some? ==> SF.Next(s.ids, Flight(s, e).value, s'.ids)
  {}

  function Flights(states: seq<State>, events: seq<Event>, j: nat): seq<SF.Event<Bytes, RepoId>>
    requires j <= |events| < |states|
  {
    if j == 0 then []
    else
      var f := Flight(states[j - 1], events[j - 1]);
      Flights(states, events, j - 1) + if f.Some? then [f.value] else []
  }

  /** The repo-id memo inside a mint run is itself a run of the singleflight protocol, so everything
      proved of that protocol holds here. */
  lemma {:induction false} MemoRuns(states: seq<State>, events: seq<Event>, j: nat)
    returns (inner: seq<SF.State<Bytes, RepoId>>)
    requires IsRun(states, events) && j <= |events|
    ensures SF.IsRun(inner, Flights(states, events, j)) && inner[|inner| - 1] == states[j].ids
  {
    if j == 0 {
      inner := [states[0].ids];
    } else {
      inner := MemoRuns(states, events, j - 1);
      assert StepAt(states, events, j - 1);
      StepProjects(states[j - 1], events[j - 1], states[j]);
      var f := Flight(states[j - 1], events[j - 1]);
      if f.Some? {
        SF.Extend(inner, Flights(states, events, j - 1), f.value, states[j].ids);
        inner := inner + [states[j].ids];
      } else {
        assert Flights(states, events, j) == Flights(states, events, j - 1);
      }
    }
  }

  function HitsNotFound(events: seq<Event>, key: Bytes, j: nat): nat
    requires j <= |events|
  {
    if j == 0 then 0
    else HitsNotFound(events, key, j - 1) + if IsHit(events[j - 1], key) then 1 else 0
  }

  /** Upstream lookups of one key under way at once: at most one more than the not-found answers that
      landed on a lookup in flight. */
  lemma LookupsAreBounded(states: seq<State>, events: seq<Event>, j: nat, key: Bytes)
    requires IsRun(states, events) && j <= |events|
    ensures |SF.Resolvers(states[j].ids, key)| <= 1 + HitsNotFound(events, key, j)
  {
    var inner := MemoRuns(states, events, j);
    var flights := Flights(states, events, j);
    SF.ResolverBound(inner, flights, key, |flights|);
    assert flights[..|flights|] == flights;
    HitsAgree(states, events, j, key);
  }

  predicate IsHit(e: Event, key: Bytes) {
    e.NotFound? && e.key == key && e.hit
  }

  lemma StepHits(s: State, e: Event, s': State, key: Bytes)
    requires Next(s, e, s')
    ensures Flight(s, e) == Some(SF.Invalidated(key, true)) <==> IsHit(e, key)
  {}

  lemma {:induction false} HitsAgree(states: seq<State>, events: seq<Event>, j: nat, key: Bytes)
    requires IsRun(states, events) && j <= |events|
    ensures SF.Hits(Flights(states, events, j), key) == HitsNotFound(events, key, j)
  {
    if j > 0 {
      HitsAgree(states, events, j - 1, key);
      assert StepAt(states, events, j - 1);
      StepHits(states[j - 1], events[j - 1], states[j], key);
      var f := Flight(states[j - 1], events[j - 1]);
      var before := Flights(states, events, j - 1);
      if f.Some? {
        assert (before + [f.value])[..|before|] == before;
      } else {
        assert before + [] == before;
      }
    }
  }

  // ----- the cache's share of a run ----------------------------------------

  function CacheOps(events: seq<Event>): seq<TC.Op<Bytes, Bytes>> {
    if events == [] then []
    else
      CacheOps(events[..|events| - 1]) +
      match events[|events| - 1]
      case Looked(t, key, now) => [TC.Get(key, now)]
      case Minted(t, key, id, token, now) => [TC.Put(key, token, now)]
      case NotFound(t, key, hit) => [TC.Drop(key)]
      case _ => []
  }

  /** The token cache inside a mint run holds what its own history of operations says. */
  lemma {:induction false} CacheRuns(states: seq<State>, events: seq<Event>, j: nat)
    requires IsRun(states, events) && j <= |events|
    ensures states[j].tokens == TC.After(CacheOps(events[..j]))
  {
    if j > 0 {
      CacheRuns(states, events, j - 1);
      var (e, es) := (events[j - 1], events[..j]);
      assert StepAt(states, events, j - 1);
      assert es[..j - 1] == events[..j - 1];
      var (before, all) := (CacheOps(events[..j - 1]), CacheOps(es));
      if |all| > |before| {
        assert all[..|all| - 1] == before;
      } else {
        assert all == before;
      }
    }
  }

  // ----- provenance --------------------------------------------------------

  ghost predicate ResolvedIn(events: seq<Event>, key: Bytes, id: RepoId) {
    exists i :: 0 <= i < |events| && IsResolve(events[i], key, id)
  }

  predicate IsResolve(e: Event, key: Bytes, id: RepoId) {
    e.Flew? && e.step.Resolved? && e.step.key == key && e.step.value == id
  }

  /** Some mint call in the run returned `token` for an id that a resolve of `key` had produced. */
  ghost predicate Issued(events: seq<Event>, key: Bytes, token: Token) {
    exists i :: 0 <= i < |events| && IssuedAt(events, i, key, token)
  }

  ghost predicate IssuedAt(events: seq<Event>, i: int, key: Bytes, token: Token)
    requires 0 <= i < |events|
  {
    events[i].Minted? && events[i].key == key && events[i].token == token && ResolvedIn(events[..i], key, events[i].id)
  }

  ghost predicate Traced(s: State, events: seq<Event>) {
    && (forall t | t in s.mints && s.mints[t].Minting? :: ResolvedIn(events, s.mints[t].key, s.mints[t].id))
    && (forall t | t in s.mints && s.mints[t].Served? :: Issued(events, s.mints[t].key, s.mints[t].token))
    && (forall k | k in s.tokens :: Issued(events, k, s.tokens[k]))
    && (forall t | t in s.mints && s.mints[t].Asking? :: t in s.ids.tasks && s.ids.tasks[t].key == s.mints[t].key)
    && (forall t | t in s.mints :: BegunFor(events, t, s.mints[t].key))
  }

  /** Mint `t` was called with a path that is `key` but for ASCII case. */
  ghost predicate BegunFor(events: seq<Event>, t: nat, key: Bytes) {
    exists i :: 0 <= i < |events| && IsBegun(events[i], t, key)
  }

  predicate IsBegun(e: Event, t: nat, key: Bytes) {
    e.Begun? && e.t == t && ParsePath(e.path).Some? && Lower(e.path) == key
  }

  lemma StillBegun(events: seq<Event>, e: Event, t: nat, key: Bytes)
    requires BegunFor(events, t, key)
    ensures BegunFor(events + [e], t, key)
  {
    var i :| 0 <= i < |events| && IsBegun(events[i], t, key);
    assert (events + [e])[i] == events[i];
  }

  lemma StillResolved(events: seq<Event>, e: Event, key: Bytes, id: RepoId)
    requires ResolvedIn(events, key, id)
    ensures ResolvedIn(events + [e], key, id)
  {
    var i :| 0 <= i < |events| && IsResolve(events[i], key, id);
    assert (events + [e])[i] == events[i];
  }

  lemma StillIssued(events: seq<Event>, e: Event, key: Bytes, token: Token)
    requires Issued(events, key, token)
    ensures Issued(events + [e], key, token)
  {
    var i :| 0 <= i < |events| && IssuedAt(events, i, key, token);
    assert (events + [e])[..i] == events[..i];
    assert IssuedAt(events + [e], i, key, token);
  }

  lemma NowIssued(events: seq<Event>, e: Event)
    requires e.Minted? && ResolvedIn(events, e.key, e.id)
    ensures Issued(events + [e], e.key, e.token)
  {
    assert (events + [e])[..|events|] == events;
    assert IssuedAt(events + [e], |events|, e.key, e.token);
  }

  lemma {:induction false} FlightsAreResolves(states: seq<State>, events: seq<Event>, j: nat, key: Bytes, id: RepoId)
    requires IsRun(states, events) && j <= |events| && SF.Produced(Flights(states, events, j), key, id)
    ensures ResolvedIn(events[..j], key, id)
  {
    if j > 0 {
      var (before, all) := (Flights(states, events, j - 1), Flights(states, events, j));
      var i :| 0 <= i < |all| && all[i].Resolved? && all[i].key == key && all[i].value == id;
      assert events[..j] == events[..j - 1] + [events[j - 1]];
      if i < |before| {
        assert before[i] == all[i];
        FlightsAreResolves(states, events, j - 1, key, id);
        StillResolved(events[..j - 1], events[j - 1], key, id);
      } else {
        assert Flight(states[j - 1], events[j - 1]) == Some(all[i]);
        assert IsResolve(events[..j][j - 1], key, id);
      }
    }
  }

  /** What `with` handed a mint was produced by a resolve of the mint's own key. */
  lemma AnswersAreResolves(states: seq<State>, events: seq<Event>, j: nat, t: nat)
    requires IsRun(states, events) && j <= |events|
    requires t in states[j].ids.tasks && states[j].ids.tasks[t].Returned? && states[j].ids.tasks[t].result.Some?
    ensures ResolvedIn(events[..j], states[j].ids.tasks[t].key, states[j].ids.tasks[t].result.value)
  {
    var inner := MemoRuns(states, events, j);
    var flights := Flights(states, events, j);
    SF.ValuesAreResolved(inner, flights, |flights|, t);
    assert flights[..|flights|] == flights;
    FlightsAreResolves(states, events, j, states[j].ids.tasks[t].key, states[j].ids.tasks[t].result.value);
  }

  /** A memo task keeps its key as long as it lives. */
  lemma TasksKeepKeys(s: SF.State<Bytes, RepoId>, e: SF.Event<Bytes, RepoId>, s': SF.State<Bytes, RepoId>, t: nat)
    requires SF.Next(s, e, s') && t in s.tasks && e != SF.Dropped(t)
    ensures t in s'.tasks && s'.tasks[t].key == s.tasks[t].key
  {}

  lemma AskingStays(s: State, e: Event, s': State, t: nat)
    requires Next(s, e, s') && t in s'.mints && s'.mints[t].Asking?
    requires t in s.mints && s.mints[t].Asking? ==> t in s.ids.tasks && s.ids.tasks[t].key == s.mints[t].key
    ensures t in s'.ids.tasks && s'.ids.tasks[t].key == s'.mints[t].key
  {
    if t in s.mints && s.mints[t].Asking? {
      StepProjects(s, e, s');
      if Flight(s, e).Some? {
        TasksKeepKeys(s.ids, Flight(s, e).value, s'.ids, t);
      }
    }
  }

  lemma {:induction false} RunTraced(states: seq<State>, events: seq<Event>, j: nat)
    requires IsRun(states, events) && j <= |events|
    ensures Traced(states[j], events[..j])
  {
    if j > 0 {
      var (s, e, s', es) := (states[j - 1], events[j - 1], states[j], events[..j - 1]);
      RunTraced(states, events, j - 1);
      assert StepAt(states, events, j - 1);
      assert events[..j] == es + [e];
      if e.Answered? && s.ids.tasks[e.t].result.Some? {
        AnswersAreResolves(states, events, j - 1, e.t);
      }
      TracedStep(s, e, s', es);
    }
  }

  lemma TokensTraced(s: State, e: Event, s': State, es: seq<Event>, k: Bytes)
    requires Traced(s, es) && Next(s, e, s') && k in s'.tokens
    ensures Issued(es + [e], k, s'.tokens[k])
  {
    if e.Minted? && k == e.key {
      NowIssued(es, e);
    } else {
      StillIssued(es, e, k, s.tokens[k]);
    }
  }

  lemma KeyStays(s: State, e: Event, s': State, t: nat)
    requires Next(s, e, s') && t in s.mints && t in s'.mints
    ensures s'.mints[t].key == s.mints[t].key
  {}

  lemma PathTraced(s: State, e: Event, s': State, es: seq<Event>, t: nat)
    requires Traced(s, es) && Next(s, e, s') && t in s'.mints
    ensures BegunFor(es + [e], t, s'.mints[t].key)
  {
    if t in s.mints {
      KeyStays(s, e, s', t);
      StillBegun(es, e, t, s.mints[t].key);
    } else {
      KeyIsLower(e.path);
      assert IsBegun((es + [e])[|es|], t, s'.mints[t].key);
    }
  }

  lemma ServedTraced(s: State, e: Event, s': State, es: seq<Event>, t: nat)
    requires Traced(s, es) && Next(s, e, s') && t in s'.mints && s'.mints[t].Served?
    ensures Issued(es + [e], s'.mints[t].key, s'.mints[t].token)
  {
    if t in s.mints && s.mints[t].Served? {
      StillIssued(es, e, s.mints[t].key, s.mints[t].token);
    } else {
      TokensTraced(s, e, s', es, s'.mints[t].key);
    }
  }

  lemma MintingTraced(s: State, e: Event, s': State, es: seq<Event>, t: nat)
    requires Traced(s, es) && Next(s, e, s') && t in s'.mints && s'.mints[t].Minting?
    requires e.Answered? && s.ids.tasks[e.t].result.Some? ==> ResolvedIn(es, s.ids.tasks[e.t].key, s.ids.tasks[e.t].result.value)
    ensures ResolvedIn(es + [e], s'.mints[t].key, s'.mints[t].id)
  {
    StillResolved(es, e, s'.mints[t].key, s'.mints[t].id);
  }

  lemma TracedStep(s: State, e: Event, s': State, es: seq<Event>)
    requires Traced(s, es) && Next(s, e, s')
    requires e.Answered? && s.ids.tasks[e.t].result.Some? ==> ResolvedIn(es, s.ids.tasks[e.t].key, s.ids.tasks[e.t].result.value)
    ensures Traced(s', es + [e])
  {
    forall k | k in s'.tokens ensures Issued(es + [e], k, s'.tokens[k]) {
      TokensTraced(s, e, s', es, k);
    }
    forall t | t in s'.mints ensures BegunFor(es + [e], t, s'.mints[t].key) {
      PathTraced(s, e, s', es, t);
    }
    forall t | t in s'.mints && s'.mints[t].Minting? ensures ResolvedIn(es + [e], s'.mints[t].key, s'.mints[t].id) {
      MintingTraced(s, e, s', es, t);
    }
    forall t | t in s'.mints && s'.mints[t].Served? ensures Issued(es + [e], s'.mints[t].key, s'.mints[t].token) {
      ServedTraced(s, e, s', es, t);
    }
    forall t | t in s'.mints && s'.mints[t].Asking? ensures t in s'.ids.tasks && s'.ids.tasks[t].key == s'.mints[t].key {
      AskingStays(s, e, s', t);
    }
  }

  // ----- results -----------------------------------------------------------

  /** Every token a mint returns, fresh or cached, was minted for a repo id that an earlier successful
      resolve of the same key produced, and the key is the mint's own path in lower case. */
  lemma TokensAreForTheirRepo(states: seq<State>, events: seq<Event>, j: nat, t: nat)
    requires IsRun(states, events) && j <= |events| && t in states[j].mints && states[j].mints[t].Served?
    ensures Issued(events[..j], states[j].mints[t].key, states[j].mints[t].token)
    ensures BegunFor(events[..j], t, states[j].mints[t].key)
  {
    RunTraced(states, events, j);
  }

  /** The cache serves a token at `now` exactly when it is the last one minted for the key, nothing has
      invalidated it since, and it expires after `now` and after every clock reading taken since. */
  lemma CacheServesIff(states: seq<State>, events: seq<Event>, i: nat, token: Token)
    requires IsRun(states, events) && i < |events| && events[i].Looked?
    ensures events[i].t in states[i + 1].mints
    ensures states[i + 1].mints[events[i].t] == Served(events[i].key, token) <==>
              TC.Cached(CacheOps(events[..i]) + [TC.Get(events[i].key, events[i].now)], events[i].key, token)
    ensures states[i + 1].mints[events[i].t] == Served(events[i].key, token) ==> token.expiry > events[i].now
  {
    var (key, now) := (events[i].key, events[i].now);
    CacheRuns(states, events, i);
    assert StepAt(states, events, i);
    var ops := CacheOps(events[..i]);
    assert (ops + [TC.Get(key, now)])[..|ops|] == ops;
    TC.HeldIffCached(ops + [TC.Get(key, now)], key, token);
  }
}
