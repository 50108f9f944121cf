/** What the registry does not promise (src/daemon.rs): an error is not an undo on disk. Each
    limit is a family of runs, one for every starting roster, next to what does hold of every run
    after the error. */
module RegistryLimits {
  import opened Prelude
  import opened Identities
  import opened PskStores
  import opened Clients
  import opened AtomicFs
  import opened Registry
  import opened RegistrySafety

  lemma SomeText(psks: Table) returns (text: Bytes)
    ensures RendersPsks(text, psks) && ParseText(text) == Ok(psks)
  {
    var order := SomeOrder(psks);
    text := RenderIn(order, psks);
    PsksRenderThenLoad(text, psks);
  }

  lemma SomeDoc(clients: Roster, skip: Option<Identity>) returns (doc: Doc)
    ensures Renders(doc, clients, skip) && LoadDoc(doc, map[]) == Ok(Without(clients, skip))
  {
    var order := SomeOrder(clients);
    doc := RenderDoc(order, clients, skip);
    RenderThenLoad(doc, clients, skip);
  }

  function Pin<T(==)>(x: T): File<T> {
    File(Some(x), iset{Some(x)})
  }

  // Runs are put together step by step.

  lemma Extend(states: seq<State>, events: seq<Event>, e: Event, s': State)
    requires IsRun(states, events) && Next(states[|states| - 1], e, s')
    ensures IsRun(states + [s'], events + [e])
  {
    var (ss, es) := (states + [s'], events + [e]);
    forall i | 0 <= i < |es| ensures StepAt(ss, es, i) {
      if i < |events| {
        assert StepAt(states, events, i);
      }
    }
  }

  lemma LockStep(s: State, id: nat, op: Op) returns (q: State, s': State)
    requires s.mutex.Free? && id !in s.queue
    requires if op.Enroll? then op.client !in s.tables.clients else op.client in s.tables.clients
    ensures Next(s, Submit(id, op), q) && Next(q, Lock(id, op), s')
    ensures s'.disk == s.disk && s'.queue == s.queue && s'.mutex.Held? && s'.mutex.id == id && s'.mutex.op == op
    ensures op.Enroll? ==> && s'.tables == Tables(s.tables.clients[op.client := op.record], s.tables.psks[op.client := op.psk])
                           && s'.mutex.phase.EnrollPsks? && ParseText(s'.mutex.phase.text) == Ok(s'.tables.psks)
    ensures op.Revoke? ==> && s'.tables == s.tables
                           && s'.mutex.phase.RevokeClients? && LoadDoc(s'.mutex.phase.doc, map[]) == Ok(s.tables.clients - {op.client})
  {
    q := s.(queue := s.queue[id := op]);
    assert q.queue - {id} == s.queue;
    match op
    case Enroll(c, p, rec) =>
      var t := Tables(s.tables.clients[c := rec], s.tables.psks[c := p]);
      var text := SomeText(t.psks);
      s' := s.(tables := t, mutex := Held(id, op, EnrollPsks(text)));
    case Revoke(c) =>
      var doc := SomeDoc(s.tables.clients, Some(c));
      s' := s.(mutex := Held(id, op, RevokeClients(doc)));
  }

  lemma WroteStep(s: State, id: nat, op: Op) returns (s': State)
    requires s.mutex.Held? && s.mutex.id == id && s.mutex.op == op && Sound(s.disk.psks) && Sound(s.disk.clients)
    requires if op.Enroll? then s.mutex.phase.EnrollPsks? else s.mutex.phase.RevokeClients?
    ensures Next(s, Wrote(id, op), s') && s'.queue == s.queue && s'.mutex.Held? && s'.mutex.id == id && s'.mutex.op == op
    ensures op.Enroll? ==> && s'.disk == Disk(Pin(s.mutex.phase.text), s.disk.clients) && s'.tables == s.tables
                           && s'.mutex.phase.EnrollClients? && LoadDoc(s'.mutex.phase.doc, map[]) == Ok(s.tables.clients)
    ensures op.Revoke? ==> && s'.disk == Disk(s.disk.psks, Pin(s.mutex.phase.doc))
                           && s'.tables == Tables(s.tables.clients, s.tables.psks - {op.client})
                           && s'.mutex.phase.RevokePsks?
  {
    if op.Enroll? {
      var doc := SomeDoc(s.tables.clients, None);
      s' := s.(disk := Disk(Pin(s.mutex.phase.text), s.disk.clients), mutex := Held(id, op, EnrollClients(doc)));
    } else {
      var t := Tables(s.tables.clients, s.tables.psks - {op.client});
      var text := SomeText(t.psks);
      s' := s.(disk := Disk(s.disk.psks, Pin(s.mutex.phase.doc)), tables := t, mutex := Held(id, op, RevokePsks(text)));
    }
  }

  /** The replacement of `clients.json` takes effect, but the enrol is told it failed. */
  lemma FailEnrolStep(s: State, id: nat, op: Op) returns (s': State)
    requires s.mutex.Held? && s.mutex.id == id && s.mutex.op == op && op.Enroll? && s.mutex.phase.EnrollClients?
    requires Sound(s.disk.psks)
    ensures Next(s, Fail(id, op), s') && s'.disk == Disk(s.disk.psks, Pin(s.mutex.phase.doc))
  {
    s' := s.(disk := Disk(s.disk.psks, Pin(s.mutex.phase.doc)), mutex := Free, tables := Rollback(s.tables, op.client));
  }

  lemma ReturnRevokeStep(s: State, id: nat, op: Op) returns (s': State)
    requires s.mutex.Held? && s.mutex.id == id && s.mutex.op == op && op.Revoke? && s.mutex.phase.RevokePsks? && Sound(s.disk.clients)
    ensures Next(s, Return(id, op), s')
  {
    s' := s.(disk := Disk(Pin(s.mutex.phase.text), s.disk.clients), mutex := Free,
        tables := Tables(s.tables.clients - {op.client}, s.tables.psks));
  }

  /** The PSK file stays as it was, and the revoke is told so. */
  lemma FailRevokeStep(s: State, id: nat, op: Op) returns (s': State)
    requires s.mutex.Held? && s.mutex.id == id && s.mutex.op == op && op.Revoke? && s.mutex.phase.RevokePsks?
    requires Sound(s.disk.psks) && Sound(s.disk.clients)
    ensures Next(s, Fail(id, op), s') && s' == s.(mutex := Free)
  {
    s' := s.(mutex := Free);
  }

  lemma KillStep(s: State) returns (s': State)
    requires PsksLoad(s.disk.psks.live) && ClientsLoad(s.disk.clients.live) && Sound(s.disk.psks) && Sound(s.disk.clients)
    ensures Next(s, Kill, s') && s'.tables == Loaded(s.disk.psks.live, s.disk.clients.live)
  {
    var t := Loaded(s.disk.psks.live, s.disk.clients.live);
    s' := State(t, s.disk, map[], Free, Orphans(t));
  }

  predicate Ends(e: Event, id: nat, op: Op) {
    e == Fail(id, op) || e == Drop(id, op)
  }

  // ----- broken enrols -----------------------------------------------------

  /** After an enrol that failed or was dropped, whatever contents survive, the client is accepted
      exactly when one of them carries its record, from this enrol or from before, and the other its
      key, from this enrol or from before. The key accepted is the new one if the PSK file was
      replaced. */
  lemma BrokenEnrolOnDisk(states: seq<State>, events: seq<Event>, i: nat, id: nat, op: Op, px: Option<Bytes>,
                          cx: Option<Doc>)
    requires IsRun(states, events) && i < |events| && op.Enroll? && Ends(events[i], id, op)
    requires px in PsksLeft(states[i + 1]) && cx in ClientsLeft(states[i + 1])
    ensures states[i].mutex.Held? && (states[i].mutex.phase.EnrollPsks? || states[i].mutex.phase.EnrollClients?)
    ensures var (before, phase) := (states[i].disk, states[i].mutex.phase);
            var (newClients, newPsks) := (phase.EnrollClients? && cx == Some(phase.doc),
                phase.EnrollClients? || px == Some(phase.text));
            var loaded := Authorised(Loaded(px, cx));
            && (op.client in loaded <==>
                  && (newClients || (cx in before.clients.crash && op.client in ClientsIn(cx)))
                  && (newPsks || (px in before.psks.crash && op.client in PsksIn(px))))
            && (op.client in loaded ==> loaded[op.client] == if newPsks then op.psk else PsksIn(px)[op.client])
  {
    RunKeeps(states, events, i);
    assert StepAt(states, events, i);
    var s, s' := states[i], states[i + 1];
    if s.mutex.phase.EnrollPsks? {
      PsksWritten(s.disk.psks, s.mutex.phase.text, s'.disk.psks, if events[i].Fail? then Failed else Interrupted,
          s.tables.psks);
    }
  }

  /** An operation up to its first write. */
  lemma RunToLock(s0: State, id: nat, op: Op) returns (states: seq<State>, events: seq<Event>)
    requires Init(s0) && if op.Enroll? then op.client !in s0.tables.clients else op.client in s0.tables.clients
    ensures IsRun(states, events) && states[0] == s0 && events == [Submit(id, op), Lock(id, op)]
    ensures var s := states[2];
            && s.disk == s0.disk && Sound(s.disk.psks) && Sound(s.disk.clients) && s.queue == map[]
            && s.mutex.Held? && s.mutex.id == id && s.mutex.op == op
            && (op.Enroll? ==> && s.tables == Tables(s0.tables.clients[op.client := op.record], s0.tables.psks[op.client := op.psk])
                               && s.mutex.phase.EnrollPsks? && ParseText(s.mutex.phase.text) == Ok(s.tables.psks))
            && (op.Revoke? ==> s.tables == s0.tables && s.mutex.phase.RevokeClients?)
  {
    var s1, s2 := LockStep(s0, id, op);
    Extend([s0], [], Submit(id, op), s1);
    Extend([s0] + [s1], [] + [Submit(id, op)], Lock(id, op), s2);
    states, events := [s0] + [s1] + [s2], [] + [Submit(id, op)] + [Lock(id, op)];
  }

  /** An enrol up to its second write. */
  lemma RunToSecondWrite(s0: State, id: nat, op: Op) returns (states: seq<State>, events: seq<Event>)
    requires Init(s0) && op.Enroll? && op.client !in s0.tables.clients
    ensures IsRun(states, events) && states[0] == s0 && |events| == 3
    ensures var s := states[3];
            && s.mutex.Held? && s.mutex.id == id && s.mutex.op == op && s.mutex.phase.EnrollClients? && Sound(s.disk.psks)
            && s.disk.psks.live.Some? && ParseText(s.disk.psks.live.value) == Ok(s0.tables.psks[op.client := op.psk])
            && LoadDoc(s.mutex.phase.doc, map[]) == Ok(s0.tables.clients[op.client := op.record])
  {
    states, events := RunToLock(s0, id, op);
    var s3 := WroteStep(states[2], id, op);
    Extend(states, events, Wrote(id, op), s3);
    states, events := states + [s3], events + [Wrote(id, op)];
  }

  lemma RunFailedEnrol(s0: State, id: nat, op: Op) returns (states: seq<State>, events: seq<Event>)
    requires Init(s0) && op.Enroll? && op.client !in s0.tables.clients
    ensures IsRun(states, events) && states[0] == s0 && |events| == 4 && events[3] == Fail(id, op)
    ensures var disk := states[4].disk;
            && Sound(disk.psks) && Sound(disk.clients)
            && disk.psks.live.Some? && ParseText(disk.psks.live.value) == Ok(s0.tables.psks[op.client := op.psk])
            && disk.clients.live.Some? && LoadDoc(disk.clients.live.value, map[]) == Ok(s0.tables.clients[op.client := op.record])
  {
    states, events := RunToSecondWrite(s0, id, op);
    var s4 := FailEnrolStep(states[3], id, op);
    Extend(states, events, Fail(id, op), s4);
    states, events := states + [s4], events + [Fail(id, op)];
  }

  /** From every start where `c` is not enrolled there is a run in which `enroll(c, p)` returns an
      error and the restarted daemon nevertheless accepts `c` with `p`. */
  lemma FailedEnrolMaySurvive(s0: State, id: nat, c: Identity, p: Psk, rec: ResolvedClient)
    returns (states: seq<State>, events: seq<Event>)
    requires Init(s0) && c !in s0.tables.clients
    ensures IsRun(states, events) && states[0] == s0
    ensures Fail(id, Enroll(c, p, rec)) in events
    ensures var end := states[|states| - 1].tables; c in Authorised(end) && Authorised(end)[c] == p
  {
    states, events := RunFailedEnrol(s0, id, Enroll(c, p, rec));
    var last := KillStep(states[4]);
    Extend(states, events, Kill, last);
    states, events := states + [last], events + [Kill];
    assert events[3] == Fail(id, Enroll(c, p, rec));
  }

  // ----- broken revokes ----------------------------------------------------

  /** No client record of `c`, in memory or in any `clients.json` on disk. */
  ghost predicate OffRoster(s: State, c: Identity) {
    c !in s.tables.clients && forall x | x in s.disk.clients.crash :: c !in ClientsIn(x)
  }

  /** No key of `c`, in memory or in any PSK file on disk. */
  ghost predicate Keyless(s: State, c: Identity) {
    c !in s.tables.psks && forall x | x in s.disk.psks.crash :: c !in PsksIn(x)
  }

  /** A half-done revoke: no key in memory, no record on disk. */
  ghost predicate Halved(s: State, c: Identity) {
    && c !in s.tables.psks && (forall x | x in s.disk.clients.crash :: c !in ClientsIn(x))
    && !(s.mutex.Held? && s.mutex.phase.EnrollClients?)
  }

  /** Accepted neither now nor after a crash. */
  ghost predicate Out(s: State, c: Identity) {
    && c !in Authorised(s.tables)
    && forall px, cx | px in PsksLeft(s) && cx in ClientsLeft(s) :: c !in Authorised(Loaded(px, cx))
  }

  /** Enrols of others and revokes of `c` itself. */
  predicate Harmless(op: Op, c: Identity) {
    if op.Enroll? then op.client != c else op.client == c
  }

  lemma OffRosterIsOut(s: State, revoked: set<Identity>, enrolled: Table, c: Identity)
    requires Inv(s, revoked, enrolled) && OffRoster(s, c)
    ensures Out(s, c)
  {
    LeftIs(s);
  }

  lemma OffRosterStays(s: State, e: Event, s': State, revoked: set<Identity>, enrolled: Table, c: Identity)
    requires Inv(s, revoked, enrolled) && Next(s, e, s') && OffRoster(s, c)
    requires !(e.Lock? && e.op.Enroll? && e.op.client == c)
    ensures OffRoster(s', c)
  {
    LeftIs(s);
    if e.Kill? {
      CutIs(s, s'.disk);
    }
  }

  /** A client with no record in memory or on disk is out until an enrol of it takes the mutex, whatever
      becomes of its key. So it is for a revoke that broke off anywhere after `clients.json` was
      replaced for good, once the daemon has started again. */
  lemma {:induction false} OffRosterStaysOut(states: seq<State>, events: seq<Event>, i: nat, j: nat, c: Identity)
    requires IsRun(states, events) && i <= j < |states| && OffRoster(states[i], c)
    requires forall k | i <= k < j :: !(events[k].Lock? && events[k].op.Enroll? && events[k].op.client == c)
    ensures OffRoster(states[j], c) && Out(states[j], c)
    decreases j
  {
    RunKeeps(states, events, j);
    if i < j {
      OffRosterStaysOut(states, events, i, j - 1, c);
      RunKeeps(states, events, j - 1);
      assert StepAt(states, events, j - 1);
      OffRosterStays(states[j - 1], events[j - 1], states[j], Revoked(events[..j - 1]), Enrolled(events[..j - 1]), c);
    }
    OffRosterIsOut(states[j], Revoked(events[..j]), Enrolled(events[..j]), c);
  }

  /** `clients.json` has just been written out from memory, for good. */
  predicate WritesRoster(e: Event) {
    (e.Wrote? && e.op.Revoke?) || (e.Return? && e.op.Enroll?)
  }

  predicate Restart(e: Event) {
    e.Kill? || e.PowerLoss?
  }

  predicate Enrols(e: Event, c: Identity) {
    e.Lock? && e.op.Enroll? && e.op.client == c
  }

  lemma OffMemoryStays(s: State, e: Event, s': State, c: Identity)
    requires Next(s, e, s') && c !in s.tables.clients && !Restart(e) && !Enrols(e, c)
    ensures c !in s'.tables.clients
  {}

  lemma {:induction false} OffMemory(states: seq<State>, events: seq<Event>, i: nat, j: nat, c: Identity)
    requires IsRun(states, events) && i <= j < |states| && c !in states[i].tables.clients
    requires forall k | i <= k < j :: !Restart(events[k]) && !Enrols(events[k], c)
    ensures c !in states[j].tables.clients
    decreases j
  {
    if i < j {
      OffMemory(states, events, i, j - 1, c);
      assert StepAt(states, events, j - 1);
      OffMemoryStays(states[j - 1], events[j - 1], states[j], c);
    }
  }

  lemma RosterWritten(s: State, e: Event, s': State, revoked: set<Identity>, enrolled: Table, c: Identity)
    requires Inv(s, revoked, enrolled) && Next(s, e, s') && WritesRoster(e) && c !in s.tables.clients
    ensures OffRoster(s', c)
  {}

  /** A broken enrol survives no longer than the document it left: once somebody else's operation has
      written `clients.json` out again, with no restart in between, the client is out until an enrol of
      it takes the mutex. */
  lemma BrokenEnrolIsForgotten(states: seq<State>, events: seq<Event>, i: nat, w: nat, j: nat, id: nat, op: Op)
    requires IsRun(states, events) && i < w < j <= |events| && op.Enroll? && Ends(events[i], id, op) && WritesRoster(events[w])
    requires forall k | i < k < w :: !Restart(events[k])
    requires forall k | i < k < j :: !Enrols(events[k], op.client)
    ensures Out(states[j], op.client)
  {
    assert StepAt(states, events, i);
    OffMemory(states, events, i + 1, w, op.client);
    RunKeeps(states, events, w);
    assert StepAt(states, events, w);
    RosterWritten(states[w], events[w], states[w + 1], Revoked(events[..w]), Enrolled(events[..w]), op.client);
    OffRosterStaysOut(states, events, w + 1, j, op.client);
  }

  ghost predicate HalfOut(s: State, c: Identity) {
    && (s.mutex.Held? ==> Harmless(s.mutex.op, c))
    && (OffRoster(s, c) || Keyless(s, c) || Halved(s, c))
  }

  lemma KeylessStays(s: State, e: Event, s': State, revoked: set<Identity>, enrolled: Table, c: Identity)
    requires Inv(s, revoked, enrolled) && Next(s, e, s') && Keyless(s, c)
    requires !(e.Lock? && e.op.Enroll? && e.op.client == c)
    ensures Keyless(s', c)
  {
    LeftIs(s);
    if e.Kill? {
      CutIs(s, s'.disk);
    }
  }

  lemma HalvedGoesOn(s: State, e: Event, s': State, revoked: set<Identity>, enrolled: Table, c: Identity)
    requires Inv(s, revoked, enrolled) && Next(s, e, s') && Halved(s, c) && (s.mutex.Held? ==> Harmless(s.mutex.op, c))
    requires e.Lock? ==> Harmless(e.op, c)
    ensures OffRoster(s', c) || Keyless(s', c) || Halved(s', c)
  {
    LeftIs(s);
    if e.Kill? {
      CutIs(s, s'.disk);
      assert OffRoster(s', c);
    } else if e.PowerLoss? {
      assert OffRoster(s', c);
    } else if (e.Wrote? && e.op.Enroll?) || (e.Return? && e.op.Revoke?) {
      assert Keyless(s', c);
    } else if e.Lock? || e.Wrote? || e.Fail? || e.Drop? {
      assert Halved(s', c);
    }
  }

  lemma HalfOutStays(s: State, e: Event, s': State, revoked: set<Identity>, enrolled: Table, c: Identity)
    requires Inv(s, revoked, enrolled) && Next(s, e, s') && HalfOut(s, c) && (e.Lock? ==> Harmless(e.op, c))
    ensures HalfOut(s', c)
  {
    if OffRoster(s, c) {
      OffRosterStays(s, e, s', revoked, enrolled, c);
    } else if Keyless(s, c) {
      KeylessStays(s, e, s', revoked, enrolled, c);
    } else {
      HalvedGoesOn(s, e, s', revoked, enrolled, c);
    }
  }

  lemma HalfOutIsOut(s: State, revoked: set<Identity>, enrolled: Table, c: Identity)
    requires Inv(s, revoked, enrolled) && HalfOut(s, c)
    ensures Out(s, c)
  {
    LeftIs(s);
  }

  lemma SecondBreakHalves(s: State, e: Event, s': State, revoked: set<Identity>, enrolled: Table, id: nat, c: Identity)
    requires Inv(s, revoked, enrolled) && Next(s, e, s') && Ends(e, id, Revoke(c)) && s.mutex.Held? && s.mutex.phase.RevokePsks?
    ensures HalfOut(s', c)
  {
    assert Halved(s', c);
  }

  lemma HalfOutNext(states: seq<State>, events: seq<Event>, j: nat, c: Identity)
    requires IsRun(states, events) && j < |events| && HalfOut(states[j], c) && (events[j].Lock? ==> Harmless(events[j].op, c))
    ensures HalfOut(states[j + 1], c)
  {
    RunKeeps(states, events, j);
    assert StepAt(states, events, j);
    HalfOutStays(states[j], events[j], states[j + 1], Revoked(events[..j]), Enrolled(events[..j]), c);
  }

  lemma {:induction false} BrokenRevokeHalves(states: seq<State>, events: seq<Event>, i: nat, j: nat, id: nat,
      c: Identity)
    requires IsRun(states, events) && i < j <= |events| && Ends(events[i], id, Revoke(c))
    requires states[i].mutex.Held? && states[i].mutex.phase.RevokePsks?
    requires forall k | i < k < j :: events[k].Lock? ==> Harmless(events[k].op, c)
    ensures HalfOut(states[j], c)
    decreases j
  {
    if i < j - 1 {
      BrokenRevokeHalves(states, events, i, j - 1, id, c);
      HalfOutNext(states, events, j - 1, c);
    } else {
      RunKeeps(states, events, i);
      assert StepAt(states, events, i);
      SecondBreakHalves(states[i], events[i], states[j], Revoked(events[..i]), Enrolled(events[..i]), id, c);
    }
  }

  /** A revoke that broke off in its second write, by error or by being dropped, still holds until an
      enrol of the client or a revoke of somebody else takes the mutex: until then nobody accepts the
      client, now or after any crash. Enrols of others do not bring it back, since they write the PSK
      file first. */
  lemma BrokenRevokeStaysOut(states: seq<State>, events: seq<Event>, i: nat, j: nat, id: nat, c: Identity)
    requires IsRun(states, events) && i < j <= |events| && Ends(events[i], id, Revoke(c))
    requires states[i].mutex.Held? && states[i].mutex.phase.RevokePsks?
    requires forall k | i < k < j :: events[k].Lock? ==> Harmless(events[k].op, c)
    ensures Out(states[j], c)
  {
    BrokenRevokeHalves(states, events, i, j, id, c);
    RunKeeps(states, events, j);
    HalfOutIsOut(states[j], Revoked(events[..j]), Enrolled(events[..j]), c);
  }

  /** Nothing that changes a table or starts a write. */
  predicate Quiet(e: Event) {
    !e.Lock? && !e.Kill? && !e.PowerLoss?
  }

  lemma QuietStep(s: State, e: Event, s': State)
    requires Next(s, e, s') && s.mutex.Free? && Quiet(e)
    ensures s'.tables == s.tables && s'.mutex.Free?
    ensures s'.disk.psks.crash <= s.disk.psks.crash && s'.disk.clients.crash <= s.disk.clients.crash
  {}

  lemma {:induction false} QuietRun(states: seq<State>, events: seq<Event>, i: nat, j: nat)
    requires IsRun(states, events) && i <= j < |states| && states[i].mutex.Free?
    requires forall k | i <= k < j :: Quiet(events[k])
    ensures states[j].tables == states[i].tables && states[j].mutex.Free?
    ensures states[j].disk.psks.crash <= states[i].disk.psks.crash && states[j].disk.clients.crash <= states[i].disk.clients.crash
    decreases j
  {
    if i < j {
      QuietRun(states, events, i, j - 1);
      assert StepAt(states, events, j - 1);
      QuietStep(states[j - 1], events[j - 1], states[j]);
    }
  }

  lemma FirstBreak(s: State, e: Event, s': State, id: nat, c: Identity)
    requires HolderOk(s) && Next(s, e, s') && Ends(e, id, Revoke(c)) && s.mutex.Held? && s.mutex.phase.RevokeClients?
    ensures s'.tables == s.tables && s'.mutex.Free? && s'.disk.psks.crash <= s.disk.psks.crash
    ensures forall x | x in s'.disk.clients.crash :: x == Some(s.mutex.phase.doc) || x in s.disk.clients.crash
    ensures c !in ClientsIn(Some(s.mutex.phase.doc))
  {}

  /** A revoke that broke off in its first write has changed nothing for readers, and until somebody
      takes the mutex or the daemon starts again it stays so. A start finds the client accepted exactly
      when what survived of `clients.json` is from before and the client was on disk in full. */
  lemma BrokenRevokeFirstWrite(states: seq<State>, events: seq<Event>, i: nat, j: nat, id: nat, c: Identity,
                               px: Option<Bytes>, cx: Option<Doc>)
    requires IsRun(states, events) && i < j <= |events| && Ends(events[i], id, Revoke(c))
    requires states[i].mutex.Held? && states[i].mutex.phase.RevokeClients?
    requires forall k | i < k < j :: Quiet(events[k])
    requires px in PsksLeft(states[j]) && cx in ClientsLeft(states[j])
    ensures states[j].tables == states[i].tables
    ensures px in states[i].disk.psks.crash
    ensures c in Authorised(Loaded(px, cx)) <==>
              && cx != Some(states[i].mutex.phase.doc)
              && cx in states[i].disk.clients.crash && c in ClientsIn(cx) && c in PsksIn(px)
  {
    RunKeeps(states, events, i);
    assert StepAt(states, events, i);
    FirstBreak(states[i], events[i], states[i + 1], id, c);
    QuietRun(states, events, i + 1, j);
  }

  ghost predicate NoEnrol(events: seq<Event>)
  {
    forall k | 0 <= k < |events| :: events[k].Lock? ==> events[k].op.Revoke?
  }

  /** A revoke up to its second write. */
  lemma RunToSecondRevoke(s0: State, id: nat, c: Identity) returns (states: seq<State>, events: seq<Event>)
    requires Init(s0) && c in s0.tables.clients
    ensures IsRun(states, events) && NoEnrol(events) && states[0] == s0 && |events| == 3
    ensures var s := states[3];
            && s.mutex.Held? && s.mutex.id == id && s.mutex.op == Revoke(c) && s.mutex.phase.RevokePsks? && s.queue == map[]
            && s.tables == Tables(s0.tables.clients, s0.tables.psks - {c})
            && s.disk.psks == s0.disk.psks && Sound(s.disk.psks) && Sound(s.disk.clients)
  {
    var op := Revoke(c);
    states, events := RunToLock(s0, id, op);
    var s3 := WroteStep(states[2], id, op);
    Extend(states, events, Wrote(id, op), s3);
    states, events := states + [s3], events + [Wrote(id, op)];
  }

  lemma RunFailedRevoke(s0: State, id: nat, c: Identity) returns (states: seq<State>, events: seq<Event>)
    requires Init(s0) && c in s0.tables.clients
    ensures IsRun(states, events) && NoEnrol(events) && states[0] == s0 && |events| == 4
    ensures events[3] == Fail(id, Revoke(c))
    ensures var s := states[4];
            && s.tables == Tables(s0.tables.clients, s0.tables.psks - {c})
            && s.disk.psks == s0.disk.psks && Sound(s.disk.clients) && s.mutex.Free? && s.queue == map[]
  {
    states, events := RunToSecondRevoke(s0, id, c);
    var s4 := FailRevokeStep(states[3], id, Revoke(c));
    Extend(states, events, Fail(id, Revoke(c)), s4);
    states, events := states + [s4], events + [Fail(id, Revoke(c))];
  }

  /** Extend a run by a revoke of `d` that is killed between its two writes. */
  lemma RunHalfRevoke(states: seq<State>, events: seq<Event>, id: nat, d: Identity)
    returns (more: seq<State>, es: seq<Event>)
    requires IsRun(states, events)
    requires var s := states[|states| - 1];
             && s.mutex.Free? && s.queue == map[] && Sound(s.disk.psks) && Sound(s.disk.clients)
             && d in s.tables.clients && PsksLoad(s.disk.psks.live)
    ensures IsRun(states + more, events + es) && |more| == |es| == 4 && NoEnrol(es)
    ensures more[3].tables == Tables(states[|states| - 1].tables.clients - {d}, PsksIn(states[|states| - 1].disk.psks.live))
  {
    var op, s := Revoke(d), states[|states| - 1];
    var s1, s2 := LockStep(s, id, op);
    var s3 := WroteStep(s2, id, op);
    var s4 := KillStep(s3);
    Extend(states, events, Submit(id, op), s1);
    Extend(states + [s1], events + [Submit(id, op)], Lock(id, op), s2);
    Extend(states + [s1] + [s2], events + [Submit(id, op)] + [Lock(id, op)], Wrote(id, op), s3);
    Extend(states + [s1] + [s2] + [s3], events + [Submit(id, op)] + [Lock(id, op)] + [Wrote(id, op)], Kill, s4);
    more, es := [s1, s2, s3, s4], [Submit(id, op), Lock(id, op), Wrote(id, op), Kill];
    assert states + more == states + [s1] + [s2] + [s3] + [s4];
    assert events + es == events + [Submit(id, op)] + [Lock(id, op)] + [Wrote(id, op)] + [Kill];
  }

  /** But not for good: from every start that accepts `c` and knows `d`, there is a run, with no
      enrol in it, in which `revoke(c)` returns an error, readers refuse `c`, a revoke of `d` then
      writes the roster out again with `c` still on it, and the restarted daemon accepts `c` as
      before. */
  lemma FailedRevokeMayBeUndone(s0: State, id: nat, c: Identity, d: Identity)
    returns (states: seq<State>, events: seq<Event>)
    requires Init(s0) && c in Authorised(s0.tables) && d in s0.tables.clients && c != d
    ensures IsRun(states, events) && NoEnrol(events) && states[0] == s0 && |events| == 8
    ensures events[3] == Fail(id, Revoke(c)) && c !in Authorised(states[4].tables)
    ensures c in Authorised(states[8].tables) && Authorised(states[8].tables)[c] == s0.tables.psks[c]
  {
    var ss, es := RunFailedRevoke(s0, id, c);
    var more, es' := RunHalfRevoke(ss, es, id, d);
    states, events := ss + more, es + es';
    assert states[4] == ss[4] && states[8] == more[3];
  }
}
