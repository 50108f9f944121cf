/** Client records and `clients.json` (src/daemon.rs, src/config.rs). JSON itself is foreign: a
    document is the value it denotes, a list of entries. */
module Clients {
  import opened Prelude
  import opened Identities
  import opened PskStores

  datatype ProviderKind = Github

  datatype ResolvedClient = ResolvedClient(providers: seq<ProviderKind>, enrolledAt: int, note: Option<Bytes>)

  datatype ClientEntry = ClientEntry(name: Bytes, providers: seq<ProviderKind>, enrolledAt: int, note: Option<Bytes>)

  type Doc = seq<ClientEntry>

  type Roster = map<Identity, ResolvedClient>

  datatype LoadError =
    | InvalidClientName(name: Bytes, source: IdentityError)
    | DuplicateClientName(identity: Identity)

  function EntryOf(id: Identity, c: ResolvedClient): (e: ClientEntry) {
    ClientEntry(id, c.providers, c.enrolledAt, c.note)
  }

  function RecordOf(e: ClientEntry): (c: ResolvedClient) {
    ResolvedClient(e.providers, e.enrolledAt, e.note)
  }

  /** `render_clients_doc` for one iteration order: filter out `skip`, map to entries. */
  function RenderDoc(order: seq<Identity>, clients: Roster, skip: Option<Identity>): (doc: Doc)
    requires forall k | k in order :: k in clients
  {
    if order == [] then []
    else
      (if Some(order[0]) != skip then [EntryOf(order[0], clients[order[0]])] else [])
      + RenderDoc(order[1..], clients, skip)
  }

  /** `doc` is what some iteration of `clients` renders to. */
  ghost predicate Renders(doc: Doc, clients: Roster, skip: Option<Identity>)
  {
    exists order: seq<Identity> :: IsOrder(order, clients) && doc == RenderDoc(order, clients, skip)
  }

  /** `text` is what some iteration of `psks` renders to. */
  ghost predicate RendersPsks(text: Bytes, psks: Table)
  {
    exists order: seq<Identity> :: IsOrder(order, psks) && text == RenderIn(order, psks)
  }

  function LoadDoc(doc: Doc, acc: Roster): (r: Result<Roster, LoadError>)
    decreases |doc|
  {
    if doc == [] then Ok(acc)
    else
      match Parse(doc[0].name)
      case Err(e) => Err(InvalidClientName(doc[0].name, e))
      case Ok(id) =>
        if id in acc then Err(DuplicateClientName(id))
        else LoadDoc(doc[1..], acc[id := RecordOf(doc[0])])
  }

  function Without(clients: Roster, skip: Option<Identity>): (r: Roster) {
    if skip.Some? then clients - {skip.value} else clients
  }

  lemma {:induction false} LoadRendered(order: seq<Identity>, clients: Roster, skip: Option<Identity>, acc: Roster)
    requires forall k | k in order :: k in clients
    requires forall i, j | 0 <= i < j < |order| :: order[i] != order[j]
    requires forall i | 0 <= i < |order| :: order[i] !in acc
    ensures LoadDoc(RenderDoc(order, clients, skip), acc).Ok?
    ensures var r := LoadDoc(RenderDoc(order, clients, skip), acc).value;
            && (forall k :: k in r <==> k in acc || (k in order && Some(k) != skip))
            && (forall k | k in r :: r[k] == if k in acc then acc[k] else clients[k])
    decreases |order|
  {
    if order != [] {
      var id, rest := order[0], order[1..];
      assert forall k :: k in order <==> k == id || k in rest;
      assert forall i | 0 <= i < |rest| :: rest[i] == order[i + 1];
      var doc := RenderDoc(order, clients, skip);
      if Some(id) == skip {
        assert doc == RenderDoc(rest, clients, skip);
        LoadRendered(rest, clients, skip, acc);
      } else {
        assert doc[0] == EntryOf(id, clients[id]) && doc[1..] == RenderDoc(rest, clients, skip);
        assert RecordOf(doc[0]) == clients[id];
        LoadRendered(rest, clients, skip, acc[id := clients[id]]);
      }
    }
  }

  /** Loading a rendered roster, in whatever order it was written, gives the roster minus the
      skipped client. */
  lemma RenderThenLoad(doc: Doc, clients: Roster, skip: Option<Identity>)
    requires Renders(doc, clients, skip)
    ensures LoadDoc(doc, map[]) == Ok(Without(clients, skip))
  {
    var order: seq<Identity> :| IsOrder(order, clients) && doc == RenderDoc(order, clients, skip);
    LoadRendered(order, clients, skip, map[]);
    var r := LoadDoc(doc, map[]).value;
    forall k: Identity ensures k in r <==> k in Without(clients, skip) {
      assert k in order <==> k in clients;
    }
    assert r == Without(clients, skip);
  }

  lemma PsksRenderThenLoad(text: Bytes, psks: Table)
    requires RendersPsks(text, psks)
    ensures ParseText(text) == Ok(psks)
  {
    var order: seq<Identity> :| IsOrder(order, psks) && text == RenderIn(order, psks);
    RenderThenParse(order, psks);
  }

  /** Every finite map has an iteration order. */
  lemma SomeOrder<V>(m: map<Identity, V>) returns (order: seq<Identity>)
    ensures IsOrder(order, m)
  {
    order := [];
    var rest := m.Keys;
    while rest != {}
      invariant rest <= m.Keys
      invariant forall i, j | 0 <= i < j < |order| :: order[i] != order[j]
      invariant forall k :: k in order <==> k in m && k !in rest
      decreases rest
    {
      var k :| k in rest;
      order, rest := order + [k], rest - {k};
    }
  }

  /** The table built from a loaded document, entry by entry, refusing bad and repeated names. */
  method RosterFromDoc(doc: Doc) returns (r: Result<Roster, LoadError>)
    ensures r == LoadDoc(doc, map[])
  {
    var table: Roster := map[];
    for i := 0 to |doc|
      invariant LoadDoc(doc, map[]) == LoadDoc(doc[i..], table)
    {
      assert doc[i..][0] == doc[i] && doc[i..][1..] == doc[i + 1..];
      var key := Parse(doc[i].name);
      if key.Err? {
        return Err(InvalidClientName(doc[i].name, key.error));
      }
      if key.value in table {
        return Err(DuplicateClientName(key.value));
      }
      table := table[key.value := RecordOf(doc[i])];
    }
    return Ok(table);
  }
}
