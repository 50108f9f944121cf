/** `SharedState::enroll_client` and `revoke_client` (src/daemon.rs) as they run when nobody else
    holds the mutex: imperative code over the two tables and two atomically replaced files. Each
    call is proved to be one of the operation's paths through the step system, so what holds of
    every run of the steps holds of the code. */
module SharedStates {
  import opened Prelude
  import opened Identities
  import opened PskStores
  import opened Clients
  import opened AtomicFs
  import opened Registry

  datatype MutationError = ClientAlreadyEnrolled(client: Identity) | UnknownClient(client: Identity)
                         | EncodeClients | WritePsks | WriteClients

  /** `Dropped`: the caller's future went away at one of the two awaits. */
  datatype Outcome = Returned | Refused(error: MutationError) | Broke(error: MutationError) | Dropped

  /** One file write: the faults it meets, and the fresh names it draws. */
  datatype Attempt<T> = Attempt(faults: Faults<T>, ulid: string, inode: Inode)

  /** The steps an uncontended operation takes, by outcome. */
  ghost predicate Takes(s: State, op: Op, out: Outcome, s': State)
  {
    match out
    case Refused(_) => Next(s, Reject(0, op), s')
    case Returned =>
      exists s1, s2 :: Next(s, Lock(0, op), s1) && Next(s1, Wrote(0, op), s2) && Next(s2, Return(0, op), s')
    case Broke(_) => Broken(s, op, Fail(0, op), s')
    case Dropped => Broken(s, op, Drop(0, op), s')
  }

  ghost predicate Broken(s: State, op: Op, e: Event, s': State)
  {
    || (exists s1 :: Next(s, Lock(0, op), s1) && Next(s1, e, s'))
    || (exists s1, s2 :: Next(s, Lock(0, op), s1) && Next(s1, Wrote(0, op), s2) && Next(s2, e, s'))
  }

  // Each way through an operation, on values.

  ghost function Idle(t: Tables, d: Disk, queue: map<nat, Op>, atLoad: set<Identity>): State {
    State(t, d, queue, Free, atLoad)
  }

  function OutcomeOf(ending: Ending, e: MutationError): Outcome
    requires !ending.Completed?
  {
    if ending.Failed? then Broke(e) else Dropped
  }

  function Ended(op: Op, ending: Ending): Event
    requires !ending.Completed?
  {
    if ending.Failed? then Fail(0, op) else Drop(0, op)
  }

  /** A write of `text` to the PSK file, with `clients.json` at rest. */
  ghost predicate PskWrite(d: Disk, text: Bytes, d': Disk, ending: Ending) {
    WriteEnds(d.psks, text, d'.psks, ending) && Settles(d.clients, d'.clients)
  }

  ghost predicate ClientsWrite(d: Disk, doc: Doc, d': Disk, ending: Ending) {
    WriteEnds(d.clients, doc, d'.clients, ending) && Settles(d.psks, d'.psks)
  }

  lemma EnrolStarts(t: Tables, d: Disk, atLoad: set<Identity>, op: Op, t1: Tables, text: Bytes)
    requires op.Enroll? && op.client !in t.clients
    requires t1 == Tables(t.clients[op.client := op.record], t.psks[op.client := op.psk]) && RendersPsks(text, t1.psks)
    ensures Next(Idle(t, d, map[0 := op], atLoad), Lock(0, op), State(t1, d, map[], Held(0, op, EnrollPsks(text)), atLoad))
  {}

  lemma EnrolBreaksFirst(t: Tables, d: Disk, atLoad: set<Identity>, op: Op, t1: Tables, text: Bytes, d': Disk,
                         ending: Ending, e: MutationError)
    requires op.Enroll? && op.client !in t.clients
    requires t1 == Tables(t.clients[op.client := op.record], t.psks[op.client := op.psk]) && RendersPsks(text, t1.psks)
    requires PskWrite(d, text, d', ending) && !ending.Completed?
    ensures Takes(Idle(t, d, map[0 := op], atLoad), op, OutcomeOf(ending, e), Idle(Rollback(t1, op.client), d', map[], atLoad))
  {
    EnrolStarts(t, d, atLoad, op, t1, text);
    var s1 := State(t1, d, map[], Held(0, op, EnrollPsks(text)), atLoad);
    assert Next(s1, Ended(op, ending), Idle(Rollback(t1, op.client), d', map[], atLoad));
  }

  lemma EnrolBreaksSecond(t: Tables, d: Disk, atLoad: set<Identity>, op: Op, t1: Tables, text: Bytes, d1: Disk,
                          doc: Doc, d': Disk,
                          ending: Ending, e: MutationError)
    requires op.Enroll? && op.client !in t.clients
    requires t1 == Tables(t.clients[op.client := op.record], t.psks[op.client := op.psk]) && RendersPsks(text, t1.psks)
    requires PskWrite(d, text, d1, Completed) && Renders(doc, t1.clients, None)
    requires ClientsWrite(d1, doc, d', ending)
    ensures if ending.Completed?
            then Takes(Idle(t, d, map[0 := op], atLoad), op, Returned, Idle(t1, d', map[], atLoad))
            else Takes(Idle(t, d, map[0 := op], atLoad), op, OutcomeOf(ending, e), Idle(Rollback(t1, op.client), d', map[], atLoad))
  {
    EnrolStarts(t, d, atLoad, op, t1, text);
    var s1 := State(t1, d, map[], Held(0, op, EnrollPsks(text)), atLoad);
    var s2 := State(t1, d1, map[], Held(0, op, EnrollClients(doc)), atLoad);
    assert Next(s1, Wrote(0, op), s2);
    if ending.Completed? {
      assert Next(s2, Return(0, op), Idle(t1, d', map[], atLoad));
    } else {
      assert Next(s2, Ended(op, ending), Idle(Rollback(t1, op.client), d', map[], atLoad));
    }
  }

  lemma RevokeStarts(t: Tables, d: Disk, atLoad: set<Identity>, op: Op, doc: Doc)
    requires op.Revoke? && op.client in t.clients && Renders(doc, t.clients, Some(op.client))
    ensures Next(Idle(t, d, map[0 := op], atLoad), Lock(0, op), State(t, d, map[], Held(0, op, RevokeClients(doc)), atLoad))
  {}

  lemma RevokeBreaksFirst(t: Tables, d: Disk, atLoad: set<Identity>, op: Op, doc: Doc, d': Disk, ending: Ending,
                          e: MutationError)
    requires op.Revoke? && op.client in t.clients && Renders(doc, t.clients, Some(op.client))
    requires ClientsWrite(d, doc, d', ending) && !ending.Completed?
    ensures Takes(Idle(t, d, map[0 := op], atLoad), op, OutcomeOf(ending, e), Idle(t, d', map[], atLoad))
  {
    RevokeStarts(t, d, atLoad, op, doc);
    var s1 := State(t, d, map[], Held(0, op, RevokeClients(doc)), atLoad);
    assert Next(s1, Ended(op, ending), Idle(t, d', map[], atLoad));
  }

  lemma RevokeBreaksSecond(t: Tables, d: Disk, atLoad: set<Identity>, op: Op, doc: Doc, d1: Disk, t1: Tables,
                           text: Bytes, d': Disk,
                           ending: Ending, e: MutationError)
    requires op.Revoke? && op.client in t.clients && Renders(doc, t.clients, Some(op.client))
    requires ClientsWrite(d, doc, d1, Completed)
    requires t1 == Tables(t.clients, t.psks - {op.client}) && RendersPsks(text, t1.psks)
    requires PskWrite(d1, text, d', ending)
    ensures if ending.Completed?
            then Takes(Idle(t, d, map[0 := op], atLoad), op, Returned, Idle(Tables(t.clients - {op.client}, t1.psks), d', map[], atLoad))
            else Takes(Idle(t, d, map[0 := op], atLoad), op, OutcomeOf(ending, e), Idle(t1, d', map[], atLoad))
  {
    RevokeStarts(t, d, atLoad, op, doc);
    var s1 := State(t, d, map[], Held(0, op, RevokeClients(doc)), atLoad);
    var s2 := State(t1, d1, map[], Held(0, op, RevokePsks(text)), atLoad);
    assert Next(s1, Wrote(0, op), s2);
    if ending.Completed? {
      assert Next(s2, Return(0, op), Idle(Tables(t.clients - {op.client}, t1.psks), d', map[], atLoad));
    } else {
      assert Next(s2, Ended(op, ending), Idle(t1, d', map[], atLoad));
    }
  }

  lemma RefusedIs(t: Tables, d: Disk, atLoad: set<Identity>, op: Op, e: MutationError)
    requires if op.Enroll? then op.client in t.clients else op.client !in t.clients
    ensures Takes(Idle(t, d, map[0 := op], atLoad), op, Refused(e), Idle(t, d, map[], atLoad))
  {}

  class SharedState {
    var clients: Roster
    const psks: PskStore
    const pskVolume: Volume<Bytes>
    const pskPath: Path
    const clientsVolume: Volume<Doc>
    const clientsPath: Path

    constructor (roster: Roster, store: PskStore, pskVol: Volume<Bytes>, pskFile: Path, clientsVol: Volume<Doc>,
                 clientsFile: Path)
      requires pskVol.fs.Valid() && clientsVol.fs.Valid() && pskFile.name.Some? && clientsFile.name.Some?
      ensures Valid() && clients == roster && psks == store
      ensures pskVolume == pskVol && pskPath == pskFile && clientsVolume == clientsVol && clientsPath == clientsFile
    {
      clients, psks := roster, store;
      pskVolume, pskPath, clientsVolume, clientsPath := pskVol, pskFile, clientsVol, clientsFile;
    }

    ghost predicate Valid()
      reads this, pskVolume, clientsVolume
    {
      && pskVolume.fs.Valid() && clientsVolume.fs.Valid()
      && pskPath.name.Some? && clientsPath.name.Some?
    }

    ghost function Disk(): Disk
      reads this, pskVolume, clientsVolume
    {
      Registry.Disk(View(pskVolume.fs, pskPath), View(clientsVolume.fs, clientsPath))
    }

    /** The abstract state with `queue` waiting and the mutex free. */
    ghost function Now(queue: map<nat, Op>, atLoad: set<Identity>): State
      reads this, psks, pskVolume, clientsVolume
    {
      Idle(Tables(clients, psks.entries), Disk(), queue, atLoad)
    }

    ghost predicate Ready<T(!new)>(v: Volume<T>, path: Path, a: Attempt<T>)
      reads v
    {
      a.inode !in v.fs.data && path.name.Some? && TempFor(path, a.ulid) !in v.fs.dir
    }

    method RenderClients(skip: Option<Identity>) returns (doc: Doc)
      ensures Renders(doc, clients, skip)
    {
      doc := [];
      var rest := clients.Keys;
      ghost var order: seq<Identity> := [];
      while rest != {}
        invariant rest <= clients.Keys
        invariant forall i, j | 0 <= i < j < |order| :: order[i] != order[j]
        invariant forall k :: k in order <==> k in clients && k !in rest
        invariant doc == RenderDoc(order, clients, skip)
        decreases rest
      {
        var k :| k in rest;
        RenderDocSnoc(order, k, clients, skip);
        if Some(k) != skip {
          doc := doc + [EntryOf(k, clients[k])];
        }
        order, rest := order + [k], rest - {k};
      }
      assert IsOrder(order, clients);
    }

    /** `atomic_write` on the PSK file, as the abstract disk sees it. */
    method WritePskFile(text: Bytes, a: Attempt<Bytes>) returns (ending: Ending)
      requires Valid() && Ready(pskVolume, pskPath, a)
      modifies pskVolume
      ensures Valid()
      ensures PskWrite(old(Disk()), text, Disk(), ending)
    {
      ViewSound(clientsVolume.fs, clientsPath);
      ending := pskVolume.AtomicWrite(pskPath, text, a.ulid, a.inode, a.faults);
    }

    method WriteClientsFile(doc: Doc, a: Attempt<Doc>) returns (ending: Ending)
      requires Valid() && Ready(clientsVolume, clientsPath, a)
      modifies clientsVolume
      ensures Valid()
      ensures ClientsWrite(old(Disk()), doc, Disk(), ending)
    {
      ViewSound(pskVolume.fs, pskPath);
      ending := clientsVolume.AtomicWrite(clientsPath, doc, a.ulid, a.inode, a.faults);
    }

    /** Render the roster and write it out. One that will not encode is a failed write that left the file
        alone. */
    method WriteRoster(skip: Option<Identity>, encodes: bool, a: Attempt<Doc>)
      returns (ending: Ending, error: MutationError, ghost doc: Doc)
      requires Valid() && Ready(clientsVolume, clientsPath, a)
      modifies clientsVolume
      ensures Valid() && Renders(doc, clients, skip) && ClientsWrite(old(Disk()), doc, Disk(), ending)
      ensures !encodes ==> ending == Failed && error == EncodeClients
      ensures encodes ==> error == WriteClients
    {
      var rendered := RenderClients(skip);
      doc := rendered;
      if !encodes {
        ViewSound(pskVolume.fs, pskPath);
        ViewSound(clientsVolume.fs, clientsPath);
        return Failed, EncodeClients, doc;
      }
      error := WriteClients;
      ending := WriteClientsFile(rendered, a);
    }

    /** Both tables at once, then the PSK file. */
    method InsertBoth(client: Identity, psk: Psk, record: ResolvedClient, a: Attempt<Bytes>)
      returns (ending: Ending, ghost text: Bytes)
      requires Valid() && Ready(pskVolume, pskPath, a)
      modifies this, psks, pskVolume
      ensures Valid() && clients == old(clients)[client := record] && psks.entries == old(psks.entries)[client := psk]
      ensures RendersPsks(text, psks.entries) && PskWrite(old(Disk()), text, Disk(), ending)
    {
      psks.Insert(client, psk);
      clients := clients[client := record];
      var rendered := psks.Render();
      text := rendered;
      ending := WritePskFile(rendered, a);
    }

    /** `encodes`: whether the roster can be written as JSON. */
    method EnrollClient(client: Identity, psk: Psk, record: ResolvedClient, encodes: bool,
                        first: Attempt<Bytes>, second: Attempt<Doc>, ghost atLoad: set<Identity>)
      returns (out: Outcome)
      requires Valid() && Ready(pskVolume, pskPath, first) && Ready(clientsVolume, clientsPath, second)
      modifies this, psks, pskVolume, clientsVolume
      ensures Valid()
      ensures out.Refused? <==> client in old(clients)
      ensures !encodes ==> !out.Returned?
      ensures Takes(old(Now(map[0 := Enroll(client, psk, record)], atLoad)), Enroll(client, psk, record), out, Now(map[], atLoad))
    {
      ghost var op, t, d := Enroll(client, psk, record), Tables(clients, psks.entries), Disk();
      if client in clients {
        RefusedIs(t, d, atLoad, op, ClientAlreadyEnrolled(client));
        return Refused(ClientAlreadyEnrolled(client));
      }
      var ending;
      ghost var text;
      ending, text := InsertBoth(client, psk, record, first);
      ghost var t1, d1 := Tables(clients, psks.entries), Disk();
      if !ending.Completed? {
        Undo(client);
        EnrolBreaksFirst(t, d, atLoad, op, t1, text, Disk(), ending, WritePsks);
        return OutcomeOf(ending, WritePsks);
      }
      var error;
      ghost var doc;
      ending, error, doc := WriteRoster(None, encodes, second);
      EnrolBreaksSecond(t, d, atLoad, op, t1, text, d1, doc, Disk(), ending, error);
      if !ending.Completed? {
        Undo(client);
        return OutcomeOf(ending, error);
      }
      return Returned;
    }

    /** The rollback guard's drop. */
    method Undo(client: Identity)
      modifies this, psks
      ensures clients == old(clients) - {client} && psks.entries == old(psks.entries) - {client}
    {
      var _ := psks.Remove(client);
      clients := clients - {client};
    }

    method RevokeClient(client: Identity, encodes: bool, first: Attempt<Doc>, second: Attempt<Bytes>,
                        ghost atLoad: set<Identity>)
      returns (out: Outcome)
      requires Valid() && Ready(clientsVolume, clientsPath, first) && Ready(pskVolume, pskPath, second)
      modifies this, psks, pskVolume, clientsVolume
      ensures Valid()
      ensures out.Refused? <==> client !in old(clients)
      ensures !encodes ==> !out.Returned?
      ensures Takes(old(Now(map[0 := Revoke(client)], atLoad)), Revoke(client), out, Now(map[], atLoad))
    {
      ghost var op, t, d := Revoke(client), Tables(clients, psks.entries), Disk();
      if client !in clients {
        RefusedIs(t, d, atLoad, op, UnknownClient(client));
        return Refused(UnknownClient(client));
      }
      ghost var doc;
      var ending, error;
      ending, error, doc := WriteRoster(Some(client), encodes, first);
      ghost var d1 := Disk();
      if !ending.Completed? {
        RevokeBreaksFirst(t, d, atLoad, op, doc, d1, ending, error);
        return OutcomeOf(ending, error);
      }
      var _ := psks.Remove(client);
      var text := psks.Render();
      ghost var t1 := Tables(clients, psks.entries);
      ending := WritePskFile(text, second);
      RevokeBreaksSecond(t, d, atLoad, op, doc, d1, t1, text, Disk(), ending, WritePsks);
      if !ending.Completed? {
        return OutcomeOf(ending, WritePsks);
      }
      clients := clients - {client};
      return Returned;
    }
  }

  lemma {:induction false} RenderDocSnoc(order: seq<Identity>, k: Identity, clients: Roster, skip: Option<Identity>)
    requires k in clients && forall x | x in order :: x in clients
    ensures RenderDoc(order + [k], clients, skip)
         == RenderDoc(order, clients, skip) + if Some(k) != skip then [EntryOf(k, clients[k])] else []
    decreases |order|
  {
    if order == [] {
      assert order + [k] == [k] && [k][1..] == [];
    } else {
      RenderDocSnoc(order[1..], k, clients, skip);
      assert (order + [k])[1..] == order[1..] + [k];
    }
  }
}
