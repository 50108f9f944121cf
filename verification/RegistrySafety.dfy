/** Safety of the registry over every run (src/daemon.rs): one inductive invariant, then what it
    means for revocation, for enrolment and for lock-free readers. */
module RegistrySafety {
  import opened Prelude
  import opened Identities
  import opened PskStores
  import opened Clients
  import opened AtomicFs
  import opened Registry

  /** The identity occurs nowhere: not in memory, not in anything a restart could load. */
  ghost predicate Gone(s: State, c: Identity)
  {
    && c !in s.tables.clients && c !in s.tables.psks
    && (forall x | x in s.disk.psks.crash :: c !in PsksIn(x))
    && (forall x | x in s.disk.clients.crash :: c !in ClientsIn(x))
  }

  /** The identity is accepted with `p`, in memory and after every possible restart. */
  ghost predicate Pinned(s: State, c: Identity, p: Psk)
  {
    && c in s.tables.clients && c in s.tables.psks && s.tables.psks[c] == p
    && (forall x | x in s.disk.psks.crash :: c in PsksIn(x) && PsksIn(x)[c] == p)
    && (forall x | x in s.disk.clients.crash :: c in ClientsIn(x))
  }

  ghost predicate DiskOk(d: Disk)
  {
    && Sound(d.psks) && Sound(d.clients)
    && (forall x | x in d.psks.crash :: PsksLoad(x))
    && (forall x | x in d.clients.crash :: ClientsLoad(x))
  }

  /** What the holder of the mutex can rely on at each of its awaits. */
  ghost predicate HolderOk(s: State)
  {
    s.mutex.Held? ==>
      var c := s.mutex.op.client;
      && c in s.tables.clients
      && match s.mutex.phase
         case EnrollPsks(text) =>
           && s.mutex.op.Enroll? && s.tables.psks == s.tables.psks[c := s.mutex.op.psk]
           && ParseText(text) == Ok(s.tables.psks)
         case EnrollClients(doc) =>
           && s.mutex.op.Enroll? && s.tables.psks == s.tables.psks[c := s.mutex.op.psk]
           && LoadDoc(doc, map[]) == Ok(s.tables.clients)
           && (forall x | x in s.disk.psks.crash :: c in PsksIn(x) && PsksIn(x)[c] == s.mutex.op.psk)
         case RevokeClients(doc) =>
           && s.mutex.op.Revoke? && LoadDoc(doc, map[]) == Ok(s.tables.clients - {c})
         case RevokePsks(text) =>
           && s.mutex.op.Revoke? && c !in s.tables.psks && ParseText(text) == Ok(s.tables.psks)
           && (forall x | x in s.disk.clients.crash :: c !in ClientsIn(x))
  }

  ghost predicate Inv(s: State, revoked: set<Identity>, enrolled: Table)
  {
    && DiskOk(s.disk) && HolderOk(s)
    && Orphans(s.tables) <= s.atLoad
    && (forall c | c in revoked :: Gone(s, c))
    && (forall c | c in enrolled :: Pinned(s, c, enrolled[c]))
    && (s.mutex.Held? ==> s.mutex.op.client !in enrolled)
  }

  // ----- one step ----------------------------------------------------------

  /** Every content `after` may show is one `before` could show, or loads to `table`. */
  lemma PsksWritten(before: File<Bytes>, text: Bytes, after: File<Bytes>, ending: Ending, table: Table)
    requires WriteEnds(before, text, after, ending) && ParseText(text) == Ok(table)
    ensures Sound(after)
    ensures forall x | x in after.crash :: (x in before.crash && !ending.Completed?) || (PsksLoad(x) && PsksIn(x) == table)
  {}

  lemma ClientsWritten(before: File<Doc>, doc: Doc, after: File<Doc>, ending: Ending, roster: Roster)
    requires WriteEnds(before, doc, after, ending) && LoadDoc(doc, map[]) == Ok(roster)
    ensures Sound(after)
    ensures forall x | x in after.crash :: (x in before.crash && !ending.Completed?) || (ClientsLoad(x) && ClientsIn(x) == roster)
  {}

  lemma StartEnrol(s: State, id: nat, op: Op, s': State, revoked: set<Identity>, enrolled: Table)
    requires Inv(s, revoked, enrolled) && Starts(s, id, op, s') && op.Enroll?
    ensures Inv(s', revoked - {op.client}, enrolled)
  {
    PsksRenderThenLoad(s'.mutex.phase.text, s'.tables.psks);
    assert s'.tables.psks == s'.tables.psks[op.client := op.psk];
    forall c | c in revoked - {op.client} ensures Gone(s', c) {
      assert Gone(s, c);
    }
    forall c | c in enrolled ensures Pinned(s', c, enrolled[c]) {
      assert Pinned(s, c, enrolled[c]);
    }
  }

  lemma StartRevoke(s: State, id: nat, op: Op, s': State, revoked: set<Identity>, enrolled: Table)
    requires Inv(s, revoked, enrolled) && Starts(s, id, op, s') && op.Revoke?
    ensures Inv(s', revoked, enrolled - {op.client})
  {
    RenderThenLoad(s'.mutex.phase.doc, s.tables.clients, Some(op.client));
  }

  lemma AdvanceEnrol(s: State, id: nat, op: Op, s': State, revoked: set<Identity>, enrolled: Table)
    requires Inv(s, revoked, enrolled) && Advances(s, id, op, s') && s.mutex.phase.EnrollPsks?
    ensures Inv(s', revoked, enrolled)
  {
    PsksWritten(s.disk.psks, s.mutex.phase.text, s'.disk.psks, Completed, s.tables.psks);
    RenderThenLoad(s'.mutex.phase.doc, s.tables.clients, None);
    assert op.client in s.tables.psks;
  }

  lemma AdvanceRevoke(s: State, id: nat, op: Op, s': State, revoked: set<Identity>, enrolled: Table)
    requires Inv(s, revoked, enrolled) && Advances(s, id, op, s') && s.mutex.phase.RevokeClients?
    ensures Inv(s', revoked, enrolled)
  {
    ClientsWritten(s.disk.clients, s.mutex.phase.doc, s'.disk.clients, Completed, s.tables.clients - {op.client});
    PsksRenderThenLoad(s'.mutex.phase.text, s'.tables.psks);
  }

  lemma AdvanceKeeps(s: State, id: nat, op: Op, s': State, revoked: set<Identity>, enrolled: Table)
    requires Inv(s, revoked, enrolled) && Advances(s, id, op, s')
    ensures Inv(s', revoked, enrolled)
  {
    if s.mutex.phase.EnrollPsks? {
      AdvanceEnrol(s, id, op, s', revoked, enrolled);
    } else {
      AdvanceRevoke(s, id, op, s', revoked, enrolled);
    }
  }

  lemma FinishKeeps(s: State, id: nat, op: Op, s': State, revoked: set<Identity>, enrolled: Table)
    requires Inv(s, revoked, enrolled) && Finishes(s, id, op, s')
    ensures op.Enroll? ==> Inv(s', revoked, enrolled[op.client := op.psk])
    ensures op.Revoke? ==> Inv(s', revoked + {op.client}, enrolled)
  {
    match s.mutex.phase
    case EnrollClients(doc) =>
      ClientsWritten(s.disk.clients, doc, s'.disk.clients, Completed, s.tables.clients);
      assert op.client in s.tables.psks;
      assert Pinned(s', op.client, op.psk);
    case RevokePsks(text) =>
      PsksWritten(s.disk.psks, text, s'.disk.psks, Completed, s.tables.psks);
      assert Gone(s', op.client);
  }

  lemma BreakKeeps(s: State, id: nat, op: Op, s': State, ending: Ending, revoked: set<Identity>, enrolled: Table)
    requires Inv(s, revoked, enrolled) && Breaks(s, id, op, s', ending)
    ensures Inv(s', revoked, enrolled)
  {
    match s.mutex.phase
    case EnrollPsks(text) =>
      PsksWritten(s.disk.psks, text, s'.disk.psks, ending, s.tables.psks);
    case RevokePsks(text) =>
      PsksWritten(s.disk.psks, text, s'.disk.psks, ending, s.tables.psks);
    case EnrollClients(doc) =>
      ClientsWritten(s.disk.clients, doc, s'.disk.clients, ending, s.tables.clients);
    case RevokeClients(doc) =>
      ClientsWritten(s.disk.clients, doc, s'.disk.clients, ending, s.tables.clients - {op.client});
  }

  /** Content on its way to a file loads to what is in memory, less the client being revoked. */
  lemma LeftIs(s: State)
    requires DiskOk(s.disk) && HolderOk(s)
    ensures forall x | x in PsksLeft(s) :: PsksLoad(x) && (x in s.disk.psks.crash || PsksIn(x) == s.tables.psks)
    ensures forall x | x in ClientsLeft(s) :: ClientsLoad(x) &&
              (x in s.disk.clients.crash
               || (&& s.mutex.Held?
                   && ClientsIn(x) == s.tables.clients - if s.mutex.op.Enroll? then {} else {s.mutex.op.client}))
  {}

  lemma CutIs(s: State, d: Disk)
    requires DiskOk(s.disk) && Cut(s, d)
    ensures Sound(d.psks) && Sound(d.clients) && d.psks.crash <= PsksLeft(s) && d.clients.crash <= ClientsLeft(s)
  {}

  lemma RestartKeeps(s: State, s': State, px: Option<Bytes>, cx: Option<Doc>, revoked: set<Identity>, enrolled: Table)
    requires Inv(s, revoked, enrolled)
    requires px in PsksLeft(s) && cx in ClientsLeft(s) && Restarts(px, cx, s')
    requires Sound(s'.disk.psks) && Sound(s'.disk.clients)
    requires s'.disk.psks.crash <= PsksLeft(s) && s'.disk.clients.crash <= ClientsLeft(s)
    ensures Inv(s', revoked, enrolled)
  {
    LeftIs(s);
    forall c | c in revoked ensures Gone(s', c) {
      assert Gone(s, c);
      RestartGone(s, s', px, cx, c);
    }
    forall c | c in enrolled ensures Pinned(s', c, enrolled[c]) {
      assert Pinned(s, c, enrolled[c]);
      RestartPinned(s, s', px, cx, c, enrolled[c]);
    }
  }

  lemma RestartGone(s: State, s': State, px: Option<Bytes>, cx: Option<Doc>, c: Identity)
    requires forall x | x in PsksLeft(s) :: c !in PsksIn(x)
    requires forall x | x in ClientsLeft(s) :: c !in ClientsIn(x)
    requires px in PsksLeft(s) && cx in ClientsLeft(s) && s'.tables == Loaded(px, cx)
    requires s'.disk.psks.crash <= PsksLeft(s) && s'.disk.clients.crash <= ClientsLeft(s)
    ensures Gone(s', c)
  {}

  lemma RestartPinned(s: State, s': State, px: Option<Bytes>, cx: Option<Doc>, c: Identity, p: Psk)
    requires forall x | x in PsksLeft(s) :: c in PsksIn(x) && PsksIn(x)[c] == p
    requires forall x | x in ClientsLeft(s) :: c in ClientsIn(x)
    requires px in PsksLeft(s) && cx in ClientsLeft(s) && s'.tables == Loaded(px, cx)
    requires s'.disk.psks.crash <= PsksLeft(s) && s'.disk.clients.crash <= ClientsLeft(s)
    ensures Pinned(s', c, p)
  {}

  /** Every step keeps the invariant, for the histories extended by its event. */
  lemma StepKeeps(s: State, e: Event, s': State, before: seq<Event>)
    requires Inv(s, Revoked(before), Enrolled(before)) && Next(s, e, s')
    ensures Inv(s', Revoked(before + [e]), Enrolled(before + [e]))
  {
    var all := before + [e];
    assert all[..|all| - 1] == before && all[|all| - 1] == e;
    match e
    case Lock(id, op) =>
      if op.Enroll? {
        StartEnrol(s, id, op, s', Revoked(before), Enrolled(before));
      } else {
        StartRevoke(s, id, op, s', Revoked(before), Enrolled(before));
      }
    case Wrote(id, op) => AdvanceKeeps(s, id, op, s', Revoked(before), Enrolled(before));
    case Return(id, op) => FinishKeeps(s, id, op, s', Revoked(before), Enrolled(before));
    case Fail(id, op) => BreakKeeps(s, id, op, s', Failed, Revoked(before), Enrolled(before));
    case Drop(id, op) => BreakKeeps(s, id, op, s', Interrupted, Revoked(before), Enrolled(before));
    case Kill =>
      CutIs(s, s'.disk);
      RestartKeeps(s, s', s'.disk.psks.live, s'.disk.clients.live, Revoked(before), Enrolled(before));
    case PowerLoss(px, cx) => RestartKeeps(s, s', px, cx, Revoked(before), Enrolled(before));
    case _ =>
  }

  // ----- whole runs --------------------------------------------------------

  lemma {:induction false} RunKeeps(states: seq<State>, events: seq<Event>, j: nat)
    requires IsRun(states, events) && j < |states|
    ensures Inv(states[j], Revoked(events[..j]), Enrolled(events[..j]))
  {
    if j == 0 {
      assert events[..0] == [];
    } else {
      RunKeeps(states, events, j - 1);
      assert events[..j] == events[..j - 1] + [events[j - 1]];
      assert StepAt(states, events, j - 1);
      StepKeeps(states[j - 1], events[j - 1], states[j], events[..j - 1]);
    }
  }

  /** From any reachable state, whatever contents survive, the daemon can start again. */
  lemma RestartAlwaysLoads(states: seq<State>, events: seq<Event>, j: nat, px: Option<Bytes>, cx: Option<Doc>)
    requires IsRun(states, events) && j < |states|
    requires px in PsksLeft(states[j]) && cx in ClientsLeft(states[j])
    ensures PsksLoad(px) && ClientsLoad(cx)
  {
    RunKeeps(states, events, j);
    LeftIs(states[j]);
  }

  lemma {:induction false} StaysRevoked(events: seq<Event>, i: nat, j: nat, id: nat, c: Identity)
    requires i < j <= |events| && events[i] == Return(id, Revoke(c))
    requires forall k | i < k < j :: !(events[k].Lock? && events[k].op.Enroll? && events[k].op.client == c)
    ensures c in Revoked(events[..j])
    decreases j
  {
    var upto := events[..j];
    assert upto[..j - 1] == events[..j - 1];
    if i < j - 1 {
      StaysRevoked(events, i, j - 1, id, c);
    }
  }

  /** Revocation is final: once `revoke(c)` has returned Ok, and until an enrol of `c` takes the
      mutex, no lock-free reader accepts `c`, and neither does any daemon started from anything a
      kill or a power loss can leave on disk. */
  lemma RevokedStaysOut(states: seq<State>, events: seq<Event>, i: nat, j: nat, id: nat, c: Identity)
    requires IsRun(states, events) && i < j <= |events| && events[i] == Return(id, Revoke(c))
    requires forall k | i < k < j :: !(events[k].Lock? && events[k].op.Enroll? && events[k].op.client == c)
    ensures c !in Authorised(states[j].tables)
    ensures forall px, cx | px in PsksLeft(states[j]) && cx in ClientsLeft(states[j]) ::
              c !in Authorised(Loaded(px, cx))
  {
    RunKeeps(states, events, j);
    LeftIs(states[j]);
    StaysRevoked(events, i, j, id, c);
  }

  lemma {:induction false} StaysEnrolled(events: seq<Event>, i: nat, j: nat, id: nat, c: Identity, p: Psk,
                                         rec: ResolvedClient)
    requires i < j <= |events| && events[i] == Return(id, Enroll(c, p, rec))
    requires forall k | i < k < j :: !(events[k].Lock? && events[k].op == Revoke(c))
    requires forall k | i < k < j :: !(events[k].Return? && events[k].op.Enroll? && events[k].op.client == c)
    ensures c in Enrolled(events[..j]) && Enrolled(events[..j])[c] == p
    decreases j
  {
    var upto := events[..j];
    assert upto[..j - 1] == events[..j - 1];
    if i < j - 1 {
      StaysEnrolled(events, i, j - 1, id, c, p, rec);
    }
  }

  lemma EnrolledBlocksReturn(s: State, e: Event, s': State, revoked: set<Identity>, enrolled: Table, c: Identity)
    requires Inv(s, revoked, enrolled) && c in enrolled && Next(s, e, s')
    ensures !(e.Return? && e.op.Enroll? && e.op.client == c)
  {}

  lemma EnrolledBlocksReturnAt(states: seq<State>, events: seq<Event>, j: nat, c: Identity)
    requires IsRun(states, events) && j < |events| && c in Enrolled(events[..j])
    ensures !(events[j].Return? && events[j].op.Enroll? && events[j].op.client == c)
  {
    RunKeeps(states, events, j);
    assert StepAt(states, events, j);
    EnrolledBlocksReturn(states[j], events[j], states[j + 1], Revoked(events[..j]), Enrolled(events[..j]), c);
  }

  /** An enrolled client cannot be enrolled over: the first later Ok enrol of `c` would have to
      take the mutex while `c` is on the roster. */
  lemma {:induction false} NoSecondEnrol(states: seq<State>, events: seq<Event>, i: nat, j: nat, id: nat,
                                         c: Identity, p: Psk, rec: ResolvedClient)
    requires IsRun(states, events) && i < j <= |events| && events[i] == Return(id, Enroll(c, p, rec))
    requires forall k | i < k < j :: !(events[k].Lock? && events[k].op == Revoke(c))
    ensures forall k | i < k < j :: !(events[k].Return? && events[k].op.Enroll? && events[k].op.client == c)
    decreases j
  {
    if i < j - 1 {
      NoSecondEnrol(states, events, i, j - 1, id, c, p, rec);
      StaysEnrolled(events, i, j - 1, id, c, p, rec);
      EnrolledBlocksReturnAt(states, events, j - 1, c);
    }
  }

  /** Enrolment is durable: once `enroll(c, p)` has returned Ok, and until a revoke of `c` takes
      the mutex, `c` is accepted with exactly `p`, now and after every possible restart, whatever
      other enrols and revokes do, fail or are dropped. */
  lemma EnrolledStaysIn(states: seq<State>, events: seq<Event>, i: nat, j: nat, id: nat, c: Identity, p: Psk,
                        rec: ResolvedClient)
    requires IsRun(states, events) && i < j <= |events| && events[i] == Return(id, Enroll(c, p, rec))
    requires forall k | i < k < j :: !(events[k].Lock? && events[k].op == Revoke(c))
    ensures c in Authorised(states[j].tables) && Authorised(states[j].tables)[c] == p
    ensures forall px, cx | px in PsksLeft(states[j]) && cx in ClientsLeft(states[j]) ::
              c in Authorised(Loaded(px, cx)) && Authorised(Loaded(px, cx))[c] == p
  {
    RunKeeps(states, events, j);
    LeftIs(states[j]);
    NoSecondEnrol(states, events, i, j, id, c, p, rec);
    StaysEnrolled(events, i, j, id, c, p, rec);
    assert Pinned(states[j], c, p);
  }

  /** Lock-free readers never meet a half-enrolled client: at every await, a PSK without a client
      record was already there when the tables were loaded. */
  lemma NoNewOrphans(states: seq<State>, events: seq<Event>, j: nat)
    requires IsRun(states, events) && j < |states|
    ensures Orphans(states[j].tables) <= states[j].atLoad
  {
    RunKeeps(states, events, j);
  }

  // ----- failed enrols -----------------------------------------------------

  /** Between taking the mutex and giving it up, only the holder's own two entries differ. */
  ghost predicate MidEnrol(before: Tables, s: State, id: nat, c: Identity, p: Psk, rec: ResolvedClient)
  {
    && s.mutex.Held? && s.mutex.id == id && s.mutex.op == Enroll(c, p, rec)
    && s.tables == Tables(before.clients[c := rec], before.psks[c := p])
  }

  lemma MidEnrolBegins(s: State, s': State, id: nat, c: Identity, p: Psk, rec: ResolvedClient)
    requires Next(s, Lock(id, Enroll(c, p, rec)), s')
    ensures MidEnrol(s.tables, s', id, c, p, rec)
  {}

  lemma MidEnrolStep(before: Tables, s: State, e: Event, s': State, id: nat, c: Identity, p: Psk, rec: ResolvedClient)
    requires MidEnrol(before, s, id, c, p, rec) && HolderOk(s)
    requires Next(s, e, s') && Undisturbed(e, id)
    ensures MidEnrol(before, s', id, c, p, rec)
  {}

  lemma MidEnrolAt(before: Tables, states: seq<State>, events: seq<Event>, j: nat, id: nat, c: Identity, p: Psk,
                   rec: ResolvedClient)
    requires IsRun(states, events) && j < |events| && Undisturbed(events[j], id) && MidEnrol(before, states[j], id, c, p, rec)
    ensures MidEnrol(before, states[j + 1], id, c, p, rec)
  {
    RunKeeps(states, events, j);
    assert StepAt(states, events, j);
    MidEnrolStep(before, states[j], events[j], states[j + 1], id, c, p, rec);
  }

  lemma {:induction false} MidEnrolHolds(states: seq<State>, events: seq<Event>, i: nat, j: nat, id: nat,
                                         c: Identity, p: Psk, rec: ResolvedClient)
    requires IsRun(states, events) && i < j <= |events| && events[i] == Lock(id, Enroll(c, p, rec))
    requires forall k | i < k < j :: Undisturbed(events[k], id)
    ensures MidEnrol(states[i].tables, states[j], id, c, p, rec)
    decreases j
  {
    if i == j - 1 {
      assert StepAt(states, events, i);
      MidEnrolBegins(states[i], states[j], id, c, p, rec);
    } else {
      MidEnrolHolds(states, events, i, j - 1, id, c, p, rec);
      MidEnrolAt(states[i].tables, states, events, j - 1, id, c, p, rec);
    }
  }

  /** Neither a restart nor the end of the holder's operation. */
  predicate Undisturbed(e: Event, holder: nat) {
    && !e.Kill? && !e.PowerLoss?
    && ((e.Return? || e.Fail? || e.Drop?) ==> e.id != holder)
  }

  /** An enrol that fails or is dropped leaves readers exactly where they were: the same clients
      accepted with the same keys, and the same roster, as when it took the mutex. */
  lemma BrokenEnrolRestores(states: seq<State>, events: seq<Event>, i: nat, j: nat, id: nat, c: Identity, p: Psk,
                            rec: ResolvedClient)
    requires IsRun(states, events) && i < j < |events| && events[i] == Lock(id, Enroll(c, p, rec))
    requires events[j] == Fail(id, Enroll(c, p, rec)) || events[j] == Drop(id, Enroll(c, p, rec))
    requires forall k | i < k < j :: Undisturbed(events[k], id)
    ensures Authorised(states[j + 1].tables) == Authorised(states[i].tables)
    ensures states[j + 1].tables.clients == states[i].tables.clients
    ensures states[j + 1].tables.psks == states[i].tables.psks - {c}
  {
    MidEnrolHolds(states, events, i, j, id, c, p, rec);
    assert StepAt(states, events, i) && StepAt(states, events, j);
    var before, after := states[i].tables, states[j + 1].tables;
    assert after == Rollback(states[j].tables, c);
    assert c !in before.clients;
    assert after.clients == before.clients;
    assert after.psks == before.psks - {c};
    assert Authorised(after) == Authorised(before);
  }
}
