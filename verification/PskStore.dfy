/** Pre-shared keys and the on-disk `psks` file (src/psk.rs, src/psk_store.rs).

    The file is text, one `identity:hex` line per client, in whatever order the hash map
    happens to iterate; every statement below therefore quantifies over the order. */
module PskStores {
  import opened Prelude
  import opened Identities

  const PSK_LEN: nat := 32
  const HEX_LEN: nat := 64
  const COLON: byte := 58

  type Psk = s: Bytes | |s| == PSK_LEN witness seq(32, _ => 0)

  // ----- hex -------------------------------------------------------------

  datatype HexError = OddLength | InvalidStringLength | InvalidHexCharacter(index: nat)

  function HexDigit(d: int): (c: byte)
    requires 0 <= d < 16
  {
    if d < 10 then 48 + d else 87 + d
  }

  /** Value of one hex character; both cases are accepted on input. */
  function HexValue(c: byte): (v: Option<int>)
    ensures v.Some? ==> 0 <= v.value < 16
  {
    if 48 <= c <= 57 then Some(c - 48)
    else if 97 <= c <= 102 then Some(c - 87)
    else if 65 <= c <= 70 then Some(c - 55)
    else None
  }

  function HexEncode(s: Bytes): (h: Bytes)
    ensures |h| == 2 * |s|
    ensures forall i | 0 <= i < |h| :: HexValue(h[i]).Some?
    ensures forall i | 0 <= i < |h| :: h[i] != LF && h[i] != CR && h[i] != COLON
  {
    if s == [] then [] else [HexDigit(s[0] / 16), HexDigit(s[0] % 16)] + HexEncode(s[1..])
  }

  /** Pairs of hex characters to bytes; `at` is the index reported for a bad character. */
  function HexDecode(h: Bytes, at: nat): (r: Result<Bytes, HexError>)
    requires |h| % 2 == 0
    ensures r.Ok? ==> 2 * |r.value| == |h|
  {
    if h == [] then Ok([])
    else if HexValue(h[0]).None? then Err(InvalidHexCharacter(at))
    else if HexValue(h[1]).None? then Err(InvalidHexCharacter(at + 1))
    else
      match HexDecode(h[2..], at + 2)
      case Ok(rest) => Ok([16 * HexValue(h[0]).value + HexValue(h[1]).value] + rest)
      case Err(e) => Err(e)
  }

  /** `Psk::from_hex`. */
  function PskFromHex(h: Bytes): (r: Result<Psk, HexError>)
    ensures r.Ok? ==> |h| == HEX_LEN
  {
    if |h| % 2 == 1 then Err(OddLength)
    else if |h| != HEX_LEN then Err(InvalidStringLength)
    else
      match HexDecode(h, 0)
      case Ok(p) => Ok(p)
      case Err(e) => Err(e)
  }

  lemma {:induction false} HexRoundTrip(s: Bytes, at: nat)
    ensures HexDecode(HexEncode(s), at) == Ok(s)
  {
    if s != [] {
      HexRoundTrip(s[1..], at + 2);
      assert HexEncode(s)[2..] == HexEncode(s[1..]);
      assert s == [s[0]] + s[1..];
    }
  }

  lemma PskHexRoundTrip(p: Psk)
    ensures PskFromHex(HexEncode(p)) == Ok(p)
  {
    HexRoundTrip(p, 0);
  }

  // ----- reading ---------------------------------------------------------

  datatype PskStoreError =
    | MissingSeparator(line: nat)
    | BadIdentity(line: nat, source: IdentityError)
    | BadPskHex(line: nat, hex: HexError)
    | DuplicateIdentity(line: nat, identity: Identity)

  type Table = map<Identity, Psk>

  /** Newline-separated pieces; a final newline does not open another piece. */
  function Lines(text: Bytes): (ls: seq<Bytes>)
    decreases |text|
  {
    if text == [] then [] else
      var p := IndexOf(text, LF);
      if p == |text| then [text] else [text[..p]] + Lines(text[p + 1..])
  }

  /** `trim_end_matches(['\r', '\n'])`. */
  function TrimEnd(s: Bytes): (t: Bytes)
    ensures t <= s
    ensures t == [] || (t[|t| - 1] != CR && t[|t| - 1] != LF)
    ensures forall i | |t| <= i < |s| :: s[i] == CR || s[i] == LF
  {
    if s != [] && (s[|s| - 1] == CR || s[|s| - 1] == LF) then TrimEnd(s[..|s| - 1]) else s
  }

  /** One non-blank line to its entry. */
  function ParseLine(line: Bytes, no: nat): (r: Result<(Identity, Psk), PskStoreError>)
  {
    var p := IndexOf(line, COLON);
    if p == |line| then Err(MissingSeparator(no))
    else
      match Parse(line[..p])
      case Err(e) => Err(BadIdentity(no, e))
      case Ok(id) =>
        match PskFromHex(line[p + 1..])
        case Err(e) => Err(BadPskHex(no, e))
        case Ok(psk) => Ok((id, psk))
  }

  /** Entries of `ls`, whose first line carries number `no`, added to `acc`. */
  function ParseLines(ls: seq<Bytes>, no: nat, acc: Table): (r: Result<Table, PskStoreError>)
  {
    if ls == [] then Ok(acc) else
      var line := TrimEnd(ls[0]);
      if line == [] then ParseLines(ls[1..], no + 1, acc)
      else
        match ParseLine(line, no)
        case Err(e) => Err(e)
        case Ok((id, psk)) =>
          if id in acc then Err(DuplicateIdentity(no, id))
          else ParseLines(ls[1..], no + 1, acc[id := psk])
  }

  function ParseText(text: Bytes): (r: Result<Table, PskStoreError>)
  {
    ParseLines(Lines(text), 1, map[])
  }

  // ----- writing ---------------------------------------------------------

  function Line(id: Identity, psk: Psk): (l: Bytes)
  {
    id + [COLON] + HexEncode(psk)
  }

  /** `order` lists the keys of a map once each: one possible hash-map iteration. */
  ghost predicate IsOrder<K(!new), V>(order: seq<K>, m: map<K, V>)
  {
    && (forall i, j | 0 <= i < j < |order| :: order[i] != order[j])
    && (forall k :: k in order <==> k in m)
  }

  function RenderIn(order: seq<Identity>, m: Table): (text: Bytes)
    requires forall k | k in order :: k in m
  {
    if order == [] then []
    else Line(order[0], m[order[0]]) + [LF] + RenderIn(order[1..], m)
  }

  lemma LineParses(id: Identity, psk: Psk, no: nat)
    ensures LF !in Line(id, psk) && Line(id, psk) != []
    ensures TrimEnd(Line(id, psk)) == Line(id, psk)
    ensures ParseLine(Line(id, psk), no) == Ok((id, psk))
  {
    var l := Line(id, psk);
    assert forall i | 0 <= i < |id| :: IsIdentityByte(id[i]);
    assert l[|id|] == COLON && l[..|id|] == id && l[|id| + 1..] == HexEncode(psk);
    IndexOfUnique(l, COLON, |id|);
    PskHexRoundTrip(psk);
    assert l[|l| - 1] == HexEncode(psk)[|HexEncode(psk)| - 1];
  }

  lemma LinesCons(l: Bytes, rest: Bytes)
    requires LF !in l
    ensures Lines(l + [LF] + rest) == [l] + Lines(rest)
  {
    var text := l + [LF] + rest;
    assert forall i | 0 <= i < |l| :: text[i] == l[i] && text[i] in l;
    IndexOfUnique(text, LF, |l|);
    assert text[..|l|] == l && text[|l| + 1..] == rest;
  }

  /** `acc` with the entries of `m` for the listed keys written over it. */
  function Overlay(order: seq<Identity>, m: Table, acc: Table): (r: Table)
    requires forall k | k in order :: k in m
    ensures forall k :: k in r <==> k in acc || k in order
    ensures forall k | k in r :: r[k] == if k in order then m[k] else acc[k]
  {
    if order == [] then acc
    else
      assert forall k :: k in order <==> k == order[0] || k in order[1..];
      Overlay(order[1..], m, acc[order[0] := m[order[0]]])
  }

  lemma {:induction false} ParseRendered(order: seq<Identity>, m: Table, no: nat, acc: Table)
    requires forall k | k in order :: k in m
    requires forall i, j | 0 <= i < j < |order| :: order[i] != order[j]
    requires forall i | 0 <= i < |order| :: order[i] !in acc
    ensures ParseLines(Lines(RenderIn(order, m)), no, acc) == Ok(Overlay(order, m, acc))
    decreases |order|
  {
    if order != [] {
      var id, rest := order[0], order[1..];
      LineParses(id, m[id], no);
      LinesCons(Line(id, m[id]), RenderIn(rest, m));
      var ls := Lines(RenderIn(order, m));
      assert ls[0] == Line(id, m[id]) && ls[1..] == Lines(RenderIn(rest, m));
      forall i | 0 <= i < |rest| ensures rest[i] !in acc[id := m[id]] {
        assert rest[i] == order[i + 1];
      }
      ParseRendered(rest, m, no + 1, acc[id := m[id]]);
    }
  }

  /** Whatever order the map was written in, reading the file gives the map back. */
  lemma RenderThenParse(order: seq<Identity>, m: Table)
    requires IsOrder(order, m)
    ensures ParseText(RenderIn(order, m)) == Ok(m)
  {
    ParseRendered(order, m, 1, map[]);
    OverlayAll(order, m);
  }

  lemma OverlayAll(order: seq<Identity>, m: Table)
    requires IsOrder(order, m)
    ensures Overlay(order, m, map[]) == m
  {}

  // ----- the accepted language --------------------------------------------

  /** The non-blank lines of a file, trimmed. */
  function Content(ls: seq<Bytes>): (out: seq<Bytes>)
  {
    if ls == [] then []
    else if TrimEnd(ls[0]) == [] then Content(ls[1..])
    else [TrimEnd(ls[0])] + Content(ls[1..])
  }

  /** `l` is the line of `id` carrying some spelling of `psk` in hex. */
  predicate IsLineOf(l: Bytes, id: Identity, psk: Psk)
  {
    |l| == |id| + 1 + HEX_LEN && l[..|id|] == id && l[|id|] == COLON && PskFromHex(l[|id| + 1..]) == Ok(psk)
  }

  /** `ids` and `keys` list, line by line, what the content lines say. */
  ghost predicate Describes(ls: seq<Bytes>, ids: seq<Identity>, keys: seq<Psk>)
  {
    && |ls| == |ids| == |keys|
    && forall i | 0 <= i < |ls| :: IsLineOf(ls[i], ids[i], keys[i])
  }

  lemma ParseLineIff(l: Bytes, id: Identity, psk: Psk, no: nat)
    ensures ParseLine(l, no) == Ok((id, psk)) <==> IsLineOf(l, id, psk)
  {}

  /** `m` is `acc` plus the listed entries, none of which was there before or appears twice. */
  ghost predicate Entries(ids: seq<Identity>, keys: seq<Psk>, acc: Table, m: Table)
    requires |ids| == |keys|
  {
    if ids == [] then m == acc
    else ids[0] !in acc && Entries(ids[1..], keys[1..], acc[ids[0] := keys[0]], m)
  }

  ghost predicate Spells(text: Bytes, m: Table)
  {
    exists ids: seq<Identity>, keys: seq<Psk> ::
      Describes(Content(Lines(text)), ids, keys) && Entries(ids, keys, map[], m)
  }

  /** Declarative reading: a file is accepted with table `m` exactly when its non-blank lines
      spell the entries of `m`, each identity once. */
  lemma ParseTextIff(text: Bytes, m: Table)
    ensures ParseText(text) == Ok(m) <==> Spells(text, m)
  {
    if ParseText(text) == Ok(m) {
      var ids, keys := ParsedDescribes(Lines(text), 1, map[], m);
      assert Spells(text, m);
    } else if Spells(text, m) {
      var ids: seq<Identity>, keys: seq<Psk> :|
        Describes(Content(Lines(text)), ids, keys) && Entries(ids, keys, map[], m);
      DescribedParses(Lines(text), 1, map[], ids, keys, m);
    }
  }

  lemma DescribesCons(l: Bytes, ls: seq<Bytes>, id: Identity, ids: seq<Identity>, psk: Psk, keys: seq<Psk>)
    requires IsLineOf(l, id, psk) && Describes(ls, ids, keys)
    ensures Describes([l] + ls, [id] + ids, [psk] + keys)
  {}

  lemma {:induction false} ParsedDescribes(ls: seq<Bytes>, no: nat, acc: Table, m: Table)
    returns (ids: seq<Identity>, keys: seq<Psk>)
    requires ParseLines(ls, no, acc) == Ok(m)
    ensures Describes(Content(ls), ids, keys) && Entries(ids, keys, acc, m)
    decreases |ls|
  {
    if ls == [] {
      ids, keys := [], [];
    } else if TrimEnd(ls[0]) == [] {
      ids, keys := ParsedDescribes(ls[1..], no + 1, acc, m);
    } else {
      var (id, psk) := ParseLine(TrimEnd(ls[0]), no).value;
      ParseLineIff(TrimEnd(ls[0]), id, psk, no);
      var i', k' := ParsedDescribes(ls[1..], no + 1, acc[id := psk], m);
      ids, keys := [id] + i', [psk] + k';
      DescribesCons(TrimEnd(ls[0]), Content(ls[1..]), id, i', psk, k');
      assert ids[1..] == i' && keys[1..] == k';
    }
  }

  lemma {:induction false} DescribedParses(ls: seq<Bytes>, no: nat, acc: Table,
                                           ids: seq<Identity>, keys: seq<Psk>, m: Table)
    requires Describes(Content(ls), ids, keys) && Entries(ids, keys, acc, m)
    ensures ParseLines(ls, no, acc) == Ok(m)
    decreases |ls|
  {
    if ls == [] {
    } else if TrimEnd(ls[0]) == [] {
      DescribedParses(ls[1..], no + 1, acc, ids, keys, m);
    } else {
      assert Content(ls)[0] == TrimEnd(ls[0]) && Content(ls)[1..] == Content(ls[1..]);
      ParseLineIff(TrimEnd(ls[0]), ids[0], keys[0], no);
      DescribedParses(ls[1..], no + 1, acc[ids[0] := keys[0]], ids[1..], keys[1..], m);
    }
  }

  // ----- the store ---------------------------------------------------------

  class PskStore {
    var entries: Table

    constructor ()
      ensures entries == map[]
    {
      entries := map[];
    }

    /** `PskStore::parse`: fills the table line by line, stopping at the first bad line and
        leaving the store as it was. */
    method Load(text: Bytes) returns (r: Result<(), PskStoreError>)
      modifies this
      ensures ParseText(text).Ok? ==> r == Ok(()) && entries == ParseText(text).value
      ensures ParseText(text).Err? ==> r == Err(ParseText(text).error) && entries == old(entries)
    {
      var ls := Lines(text);
      var table: Table := map[];
      var i := 0;
      while i < |ls|
        invariant 0 <= i <= |ls| && entries == old(entries)
        invariant ParseText(text) == ParseLines(ls[i..], i + 1, table)
      {
        var line := TrimEnd(ls[i]);
        assert ls[i..][0] == ls[i] && ls[i..][1..] == ls[i + 1..];
        if line != [] {
          var parsed := ParseLine(line, i + 1);
          if parsed.Err? {
            return Err(parsed.error);
          }
          if parsed.value.0 in table {
            return Err(DuplicateIdentity(i + 1, parsed.value.0));
          }
          table := table[parsed.value.0 := parsed.value.1];
        }
        i := i + 1;
      }
      entries := table;
      return Ok(());
    }

    function Lookup(id: Identity): (r: Option<Psk>)
      reads this
      ensures r.Some? <==> id in entries
      ensures r.Some? ==> entries[id] == r.value
    {
      if id in entries then Some(entries[id]) else None
    }

    method Insert(id: Identity, psk: Psk)
      modifies this
      ensures entries == old(entries)[id := psk]
    {
      entries := entries[id := psk];
    }

    method Remove(id: Identity) returns (removed: bool)
      modifies this
      ensures entries == old(entries) - {id}
      ensures removed <==> id in old(entries)
    {
      removed := id in entries;
      entries := entries - {id};
    }

    /** `PskStore::render`: whatever order the keys come out in, loading the text returns
        exactly this store. */
    method Render() returns (text: Bytes)
      ensures ParseText(text) == Ok(entries)
      ensures exists order: seq<Identity> :: IsOrder(order, entries) && text == RenderIn(order, entries)
    {
      text := [];
      var rest := entries.Keys;
      ghost var order: seq<Identity> := [];
      while rest != {}
        invariant rest <= entries.Keys
        invariant forall i, j | 0 <= i < j < |order| :: order[i] != order[j]
        invariant forall k :: k in order <==> k in entries && k !in rest
        invariant text == RenderIn(order, entries)
        decreases rest
      {
        var k :| k in rest;
        text := text + Line(k, entries[k]) + [LF];
        RenderSnoc(order, k, entries);
        order, rest := order + [k], rest - {k};
      }
      assert IsOrder(order, entries);
      RenderThenParse(order, entries);
    }
  }

  lemma {:induction false} RenderSnoc(order: seq<Identity>, k: Identity, m: Table)
    requires k in m && forall x | x in order :: x in m
    ensures RenderIn(order + [k], m) == RenderIn(order, m) + Line(k, m[k]) + [LF]
    decreases |order|
  {
    if order == [] {
      assert order + [k] == [k] && [k][1..] == [];
      assert RenderIn([k], m) == Line(k, m[k]) + [LF] + RenderIn([], m);
    } else {
      RenderSnoc(order[1..], k, m);
      assert (order + [k])[1..] == order[1..] + [k];
      var (first, rest) := (Line(order[0], m[order[0]]) + [LF], RenderIn(order[1..], m));
      Regrouped(first, rest + Line(k, m[k]), [LF]);
      Regrouped(first, rest, Line(k, m[k]));
    }
  }
}
