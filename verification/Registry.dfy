/** The enrolment registry (src/daemon.rs): two in-memory tables and two files, changed by
    concurrent enrols and revokes under one async mutex, read without it.

    A run is a sequence of steps between awaits. Any file write may fail or be dropped with its
    file old or new, the process may be killed, and power may be lost, at any point; a restart
    loads both files again. A dropped write has settled before the mutex is released: the locals
    of a dropped future go in reverse order, the rollback before the mutex guard. */
module Registry {
  import opened Prelude
  import opened Identities
  import opened PskStores
  import opened Clients
  import opened AtomicFs

  datatype Tables = Tables(clients: Roster, psks: Table)

  datatype Disk = Disk(psks: File<Bytes>, clients: File<Doc>)

  datatype Op =
    | Enroll(client: Identity, psk: Psk, record: ResolvedClient)
    | Revoke(client: Identity)

  /** Where the holder of the mutex is waiting, and for which content to reach its file. */
  datatype Phase =
    | EnrollPsks(text: Bytes)
    | EnrollClients(doc: Doc)
    | RevokeClients(doc: Doc)
    | RevokePsks(text: Bytes)

  datatype Mutex = Free | Held(id: nat, op: Op, phase: Phase)

  /** `atLoad`: identities that had a PSK but no client record when the tables were loaded. */
  datatype State = State(tables: Tables, disk: Disk, queue: map<nat, Op>, mutex: Mutex, atLoad: set<Identity>)

  /** Whom the connection handler accepts, and with which key: an identity found in both tables. */
  function Authorised(t: Tables): (a: Table)
    ensures forall c :: c in a <==> c in t.clients && c in t.psks
    ensures forall c | c in a :: a[c] == t.psks[c]
  {
    map c | c in t.clients && c in t.psks :: t.psks[c]
  }

  function Orphans(t: Tables): set<Identity> {
    t.psks.Keys - t.clients.Keys
  }

  // ----- loading -----------------------------------------------------------

  /** An absent PSK file is an empty roster; an absent `clients.json` is an error. */
  predicate PsksLoad(x: Option<Bytes>) {
    x.Some? ==> ParseText(x.value).Ok?
  }

  predicate ClientsLoad(x: Option<Doc>) {
    x.Some? && LoadDoc(x.value, map[]).Ok?
  }

  function PsksIn(x: Option<Bytes>): Table {
    if x.Some? && ParseText(x.value).Ok? then ParseText(x.value).value else map[]
  }

  function ClientsIn(x: Option<Doc>): Roster {
    if ClientsLoad(x) then LoadDoc(x.value, map[]).value else map[]
  }

  function Loaded(psks: Option<Bytes>, clients: Option<Doc>): Tables {
    Tables(ClientsIn(clients), PsksIn(psks))
  }

  // ----- steps -------------------------------------------------------------

  datatype Event =
    | Submit(id: nat, op: Op)      // a handler starts and waits for the mutex
    | Abandon(id: nat)             // dropped while waiting for it
    | Reject(id: nat, op: Op)      // took the mutex, refused the request, released it
    | Lock(id: nat, op: Op)        // took the mutex and started its first write
    | Wrote(id: nat, op: Op)       // first write durable; started the second
    | Return(id: nat, op: Op)      // second write durable; returned Ok
    | Fail(id: nat, op: Op)        // a write failed; returned Err
    | Drop(id: nat, op: Op)        // the future was dropped at its await
    | Settle                       // the kernel wrote something back
    | Kill                         // process killed and started again
    | PowerLoss(psks: Option<Bytes>, clients: Option<Doc>) // power lost; these contents survived

  function Rollback(t: Tables, c: Identity): Tables {
    Tables(t.clients - {c}, t.psks - {c})
  }

  ghost predicate Starts(s: State, id: nat, op: Op, s': State)
  {
    && id in s.queue && s.queue[id] == op && s.mutex.Free?
    && s'.queue == s.queue - {id} && s'.disk == s.disk && s'.atLoad == s.atLoad
    && match op
       case Enroll(c, p, rec) =>
         && c !in s.tables.clients
         && s'.tables == Tables(s.tables.clients[c := rec], s.tables.psks[c := p])
         && s'.mutex.Held? && s'.mutex == Held(id, op, s'.mutex.phase)
         && s'.mutex.phase.EnrollPsks? && RendersPsks(s'.mutex.phase.text, s'.tables.psks)
       case Revoke(c) =>
         && c in s.tables.clients
         && s'.tables == s.tables
         && s'.mutex.Held? && s'.mutex == Held(id, op, s'.mutex.phase)
         && s'.mutex.phase.RevokeClients? && Renders(s'.mutex.phase.doc, s.tables.clients, Some(c))
  }

  ghost predicate Rejects(s: State, id: nat, op: Op, s': State)
  {
    && id in s.queue && s.queue[id] == op && s.mutex.Free?
    && (if op.Enroll? then op.client in s.tables.clients else op.client !in s.tables.clients)
    && s' == s.(queue := s.queue - {id})
  }

  /** The first write completed: the PSK file for an enrol, `clients.json` for a revoke. */
  ghost predicate Advances(s: State, id: nat, op: Op, s': State)
  {
    && s.mutex.Held? && s.mutex.id == id && s.mutex.op == op
    && s'.queue == s.queue && s'.atLoad == s.atLoad
    && s'.mutex.Held? && s'.mutex == Held(id, op, s'.mutex.phase)
    && match s.mutex.phase
       case EnrollPsks(text) =>
         && WriteEnds(s.disk.psks, text, s'.disk.psks, Completed) && Settles(s.disk.clients, s'.disk.clients)
         && s'.tables == s.tables
         && s'.mutex.phase.EnrollClients? && Renders(s'.mutex.phase.doc, s.tables.clients, None)
       case RevokeClients(doc) =>
         && WriteEnds(s.disk.clients, doc, s'.disk.clients, Completed) && Settles(s.disk.psks, s'.disk.psks)
         && s'.tables == s.tables.(psks := s.tables.psks - {op.client})
         && s'.mutex.phase.RevokePsks? && RendersPsks(s'.mutex.phase.text, s'.tables.psks)
       case _ => false
  }

  ghost predicate Finishes(s: State, id: nat, op: Op, s': State)
  {
    && s.mutex.Held? && s.mutex.id == id && s.mutex.op == op
    && s'.queue == s.queue && s'.atLoad == s.atLoad && s'.mutex.Free?
    && match s.mutex.phase
       case EnrollClients(doc) =>
         && WriteEnds(s.disk.clients, doc, s'.disk.clients, Completed) && Settles(s.disk.psks, s'.disk.psks)
         && s'.tables == s.tables
       case RevokePsks(text) =>
         && WriteEnds(s.disk.psks, text, s'.disk.psks, Completed) && Settles(s.disk.clients, s'.disk.clients)
         && s'.tables == s.tables.(clients := s.tables.clients - {op.client})
       case _ => false
  }

  /** A failed or dropped write ends the operation. The enrol's rollback takes both entries out of
      memory again; a revoke leaves memory as it stands. */
  ghost predicate Breaks(s: State, id: nat, op: Op, s': State, ending: Ending)
  {
    && !ending.Completed?
    && s.mutex.Held? && s.mutex.id == id && s.mutex.op == op
    && s'.queue == s.queue && s'.atLoad == s.atLoad && s'.mutex.Free?
    && s'.tables == (if op.Enroll? then Rollback(s.tables, op.client) else s.tables)
    && match s.mutex.phase
       case EnrollPsks(text) =>
         WriteEnds(s.disk.psks, text, s'.disk.psks, ending) && Settles(s.disk.clients, s'.disk.clients)
       case RevokePsks(text) =>
         WriteEnds(s.disk.psks, text, s'.disk.psks, ending) && Settles(s.disk.clients, s'.disk.clients)
       case EnrollClients(doc) =>
         WriteEnds(s.disk.clients, doc, s'.disk.clients, ending) && Settles(s.disk.psks, s'.disk.psks)
       case RevokeClients(doc) =>
         WriteEnds(s.disk.clients, doc, s'.disk.clients, ending) && Settles(s.disk.psks, s'.disk.psks)
  }

  /** What may be found in each file after a crash: what the disk may hold, or the content on its way
      there. */
  ghost function PsksLeft(s: State): iset<Option<Bytes>> {
    s.disk.psks.crash +
    if s.mutex.Held? && (s.mutex.phase.EnrollPsks? || s.mutex.phase.RevokePsks?) then iset{Some(s.mutex.phase.text)} else iset{}
  }

  ghost function ClientsLeft(s: State): iset<Option<Doc>> {
    s.disk.clients.crash +
    if s.mutex.Held? && (s.mutex.phase.EnrollClients? || s.mutex.phase.RevokeClients?) then iset{Some(s.mutex.phase.doc)} else iset{}
  }

  /** The process is killed: a write under way ends wherever it was. */
  ghost predicate Cut(s: State, d: Disk)
  {
    if s.mutex.Free? then d == s.disk
    else
      match s.mutex.phase
      case EnrollPsks(text) => WriteEnds(s.disk.psks, text, d.psks, Interrupted) && Settles(s.disk.clients, d.clients)
      case RevokePsks(text) => WriteEnds(s.disk.psks, text, d.psks, Interrupted) && Settles(s.disk.clients, d.clients)
      case EnrollClients(doc) => WriteEnds(s.disk.clients, doc, d.clients, Interrupted) && Settles(s.disk.psks, d.psks)
      case RevokeClients(doc) => WriteEnds(s.disk.clients, doc, d.clients, Interrupted) && Settles(s.disk.psks, d.psks)
  }

  /** A fresh start from the given file contents. */
  ghost predicate Restarts(psks: Option<Bytes>, clients: Option<Doc>, s': State)
  {
    && PsksLoad(psks) && ClientsLoad(clients)
    && s'.tables == Loaded(psks, clients)
    && s'.queue == map[] && s'.mutex.Free? && s'.atLoad == Orphans(s'.tables)
  }

  ghost predicate Next(s: State, e: Event, s': State)
  {
    match e
    case Submit(id, op) => id !in s.queue && s' == s.(queue := s.queue[id := op])
    case Abandon(id) => id in s.queue && s' == s.(queue := s.queue - {id})
    case Reject(id, op) => Rejects(s, id, op, s')
    case Lock(id, op) => Starts(s, id, op, s')
    case Wrote(id, op) => Advances(s, id, op, s')
    case Return(id, op) => Finishes(s, id, op, s')
    case Fail(id, op) => Breaks(s, id, op, s', Failed)
    case Drop(id, op) => Breaks(s, id, op, s', Interrupted)
    case Settle =>
      && s' == s.(disk := s'.disk)
      && Settles(s.disk.psks, s'.disk.psks) && Settles(s.disk.clients, s'.disk.clients)
    case Kill =>
      Cut(s, s'.disk) && Restarts(s'.disk.psks.live, s'.disk.clients.live, s')
    case PowerLoss(px, cx) =>
      && px in PsksLeft(s) && cx in ClientsLeft(s)
      && s'.disk == Disk(File(px, iset{px}), File(cx, iset{cx}))
      && Restarts(px, cx, s')
  }

  ghost predicate Init(s: State)
  {
    && s.disk.psks.crash == iset{s.disk.psks.live} && s.disk.clients.crash == iset{s.disk.clients.live}
    && Restarts(s.disk.psks.live, s.disk.clients.live, s)
  }

  /** Step `i` of a run. */
  ghost predicate StepAt(states: seq<State>, events: seq<Event>, i: int)
    requires 0 <= i < |events| < |states|
  {
    Next(states[i], events[i], states[i + 1])
  }

  ghost predicate IsRun(states: seq<State>, events: seq<Event>)
  {
    && |states| == |events| + 1
    && Init(states[0])
    && forall i | 0 <= i < |events| :: StepAt(states, events, i)
  }

  // ----- histories ---------------------------------------------------------

  /** Clients whose last word was an Ok revoke: no enrol of theirs took the mutex since. */
  ghost function Revoked(events: seq<Event>): set<Identity>
  {
    if events == [] then {}
    else
      var before := Revoked(events[..|events| - 1]);
      match events[|events| - 1]
      case Return(_, Revoke(c)) => before + {c}
      case Lock(_, Enroll(c, _, _)) => before - {c}
      case _ => before
  }

  /** Clients whose last word was an Ok enrol, with the key it set: no revoke of theirs took the
      mutex since. */
  ghost function Enrolled(events: seq<Event>): Table
  {
    if events == [] then map[]
    else
      var before := Enrolled(events[..|events| - 1]);
      match events[|events| - 1]
      case Return(_, Enroll(c, p, _)) => before[c := p]
      case Lock(_, Revoke(c)) => before - {c}
      case _ => before
  }
}
