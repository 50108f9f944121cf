/** The TTL cache (src/ttl_cache.rs): a map, and a heap of expirations that may hold duplicates and
    tombstones. Time is an integer; the clock may run either way. */
module TtlCaches {
  import opened Prelude

  datatype Held<V> = Held(value: V, expiry: int)

  /** What a sweep at `now` should leave. */
  function Alive<K(==), V>(m: map<K, Held<V>>, now: int): map<K, Held<V>> {
    map k | k in m && m[k].expiry > now :: m[k]
  }

  ghost predicate IsLeast<K>(m: multiset<(int, K)>, x: (int, K)) {
    x in m && forall y | y in m :: x.0 <= y.0
  }

  lemma {:induction false} LeastExists<K>(m: multiset<(int, K)>)
    requires m != multiset{}
    ensures exists x :: IsLeast(m, x)
    decreases |m|
  {
    var x :| x in m;
    var rest := m - multiset{x};
    assert m == rest + multiset{x};
    if rest == multiset{} {
      assert IsLeast(m, x);
    } else {
      LeastExists(rest);
      var z :| IsLeast(rest, z);
      assert IsLeast(m, if x.0 <= z.0 then x else z);
    }
  }

  ghost predicate Covers<K, V>(heap: multiset<(int, K)>, m: map<K, Held<V>>) {
    forall k | k in m :: (m[k].expiry, k) in heap
  }

  /** The entries once heap item `x` is popped: evicted when its expiry still matches. */
  function Popped<K(==), V>(m: map<K, Held<V>>, x: (int, K)): map<K, Held<V>> {
    if x.1 in m && m[x.1].expiry == x.0 then m - {x.1} else m
  }

  lemma PopKeeps<K, V>(m: map<K, Held<V>>, heap: multiset<(int, K)>, x: (int, K), now: int)
    requires Covers(heap, m) && x in heap && x.0 <= now
    ensures Covers(heap - multiset{x}, Popped(m, x))
    ensures Alive(Popped(m, x), now) == Alive(m, now)
  {}

  lemma NothingLeft<K, V>(m: map<K, Held<V>>, heap: multiset<(int, K)>, now: int)
    requires Covers(heap, m) && forall x | x in heap :: x.0 > now
    ensures m == Alive(m, now)
  {}

  class TtlCache<K(==), V> {
    var entries: map<K, Held<V>>
    var expirations: multiset<(int, K)>

    /** Every entry's expiry is in the heap. */
    ghost predicate Valid()
      reads this
    {
      Covers(expirations, entries)
    }

    constructor ()
      ensures Valid() && entries == map[]
    {
      entries, expirations := map[], multiset{};
    }

    /** The heap's least item, ties in any order. */
    method Peek() returns (top: Option<(int, K)>)
      ensures top.None? ==> expirations == multiset{}
      ensures top.Some? ==> IsLeast(expirations, top.value)
    {
      if expirations == multiset{} {
        return None;
      }
      LeastExists(expirations);
      var x :| x in expirations && forall y | y in expirations :: x.0 <= y.0;
      return Some(x);
    }

    /** Leaves exactly the unexpired entries, whatever duplicates and tombstones the heap holds. */
    method Sweep(now: int)
      requires Valid()
      modifies this
      ensures Valid() && entries == Alive(old(entries), now)
      ensures forall x | x in expirations :: x.0 > now
    {
      var top := Peek();
      while top.Some? && top.value.0 <= now
        invariant Valid() && Alive(entries, now) == Alive(old(entries), now)
        invariant top.None? ==> expirations == multiset{}
        invariant top.Some? ==> IsLeast(expirations, top.value)
        decreases |expirations|
      {
        var (expiry, k) := top.value;
        PopKeeps(entries, expirations, top.value, now);
        expirations := expirations - multiset{top.value};
        if k in entries && entries[k].expiry == expiry {
          entries := entries - {k};
        }
        top := Peek();
      }
      NothingLeft(entries, expirations, now);
    }

    method GetWithExpiry(key: K, now: int) returns (r: Option<Held<V>>)
      requires Valid()
      modifies this
      ensures Valid() && entries == Alive(old(entries), now)
      ensures r == if key in entries then Some(entries[key]) else None
    {
      Sweep(now);
      r := if key in entries then Some(entries[key]) else None;
    }

    method Insert(key: K, value: V, expiry: int, now: int)
      requires Valid()
      modifies this
      ensures Valid() && entries == Alive(old(entries), now)[key := Held(value, expiry)]
    {
      Sweep(now);
      expirations := expirations + multiset{(expiry, key)};
      entries := entries[key := Held(value, expiry)];
    }

    method Invalidate(key: K)
      requires Valid()
      modifies this
      ensures Valid() && entries == old(entries) - {key}
    {
      entries := entries - {key};
    }
  }

  // ----- histories ---------------------------------------------------------

  datatype Op<K, V> = Get(key: K, now: int) | Put(key: K, held: Held<V>, now: int) | Drop(key: K)

  function Apply<K(==), V>(m: map<K, Held<V>>, op: Op<K, V>): map<K, Held<V>> {
    match op
    case Get(_, now) => Alive(m, now)
    case Put(k, held, now) => Alive(m, now)[k := held]
    case Drop(k) => m - {k}
  }

  /** The entries after a history of operations on a new cache. */
  function After<K(==), V>(ops: seq<Op<K, V>>): map<K, Held<V>> {
    if ops == [] then map[] else Apply(After(ops[..|ops| - 1]), ops[|ops| - 1])
  }

  /** Operation `i` is the last insert of `key`, and nothing has invalidated it since. */
  ghost predicate Latest<K, V>(ops: seq<Op<K, V>>, key: K, i: int) {
    && 0 <= i < |ops| && ops[i].Put? && ops[i].key == key
    && forall j | i < j < |ops| :: !((ops[j].Put? || ops[j].Drop?) && ops[j].key == key)
  }

  /** No clock reading after operation `i` has reached `expiry`. */
  ghost predicate Outlives<K, V>(ops: seq<Op<K, V>>, i: int, expiry: int) {
    forall j | 0 <= j < |ops| && i < j && !ops[j].Drop? :: ops[j].now < expiry
  }

  ghost predicate Cached<K, V>(ops: seq<Op<K, V>>, key: K, held: Held<V>) {
    exists i :: Latest(ops, key, i) && ops[i].held == held && Outlives(ops, i, held.expiry)
  }

  /** One more operation, as the history sees it. */
  ghost predicate Lasts<K, V>(before: seq<Op<K, V>>, op: Op<K, V>, key: K, held: Held<V>) {
    match op
    case Get(_, now) => Cached(before, key, held) && now < held.expiry
    case Put(k, h, now) => if k == key then h == held else Cached(before, key, held) && now < held.expiry
    case Drop(k) => k != key && Cached(before, key, held)
  }

  lemma CachedThenLasts<K, V>(before: seq<Op<K, V>>, op: Op<K, V>, key: K, held: Held<V>)
    requires Cached(before + [op], key, held)
    ensures Lasts(before, op, key, held)
  {
    var ops := before + [op];
    var i :| Latest(ops, key, i) && ops[i].held == held && Outlives(ops, i, held.expiry);
    assert ops[|before|] == op;
    if i < |before| {
      assert forall j | 0 <= j < |before| :: before[j] == ops[j];
      assert Latest(before, key, i) && Outlives(before, i, held.expiry);
    }
  }

  lemma LastsThenCached<K, V>(before: seq<Op<K, V>>, op: Op<K, V>, key: K, held: Held<V>)
    requires Lasts(before, op, key, held)
    ensures Cached(before + [op], key, held)
  {
    var ops := before + [op];
    if op.Put? && op.key == key {
      assert Latest(ops, key, |before|) && Outlives(ops, |before|, held.expiry);
    } else {
      var i :| Latest(before, key, i) && before[i].held == held && Outlives(before, i, held.expiry);
      assert Latest(ops, key, i) && Outlives(ops, i, held.expiry);
    }
  }

  /** For any clock at all: a key is held exactly when its latest insert has not been invalidated and
      expires after every clock reading taken since. */
  lemma {:induction false} HeldIffCached<K, V>(ops: seq<Op<K, V>>, key: K, held: Held<V>)
    ensures (key in After(ops) && After(ops)[key] == held) <==> Cached(ops, key, held)
    decreases |ops|
  {
    if ops != [] {
      var (before, op) := (ops[..|ops| - 1], ops[|ops| - 1]);
      HeldIffCached(before, key, held);
      assert ops == before + [op];
      if Cached(ops, key, held) {
        CachedThenLasts(before, op, key, held);
      }
      if Lasts(before, op, key, held) {
        LastsThenCached(before, op, key, held);
      }
    }
  }

  /** What a get at `now` answers after a history. */
  function Answer<K(==), V>(ops: seq<Op<K, V>>, key: K, now: int): Option<Held<V>> {
    var m := After(ops + [Get(key, now)]);
    if key in m then Some(m[key]) else None
  }

  ghost predicate MonotoneTo<K, V>(ops: seq<Op<K, V>>, now: int) {
    forall i | 0 <= i < |ops| && !ops[i].Drop? :: ops[i].now <= now
  }

  /** Refinement of a plain map: when no earlier reading is past `now`, a get answers exactly the latest
      insert not since invalidated whose expiry is after `now`. */
  lemma GetRefinesPlainMap<K, V>(ops: seq<Op<K, V>>, key: K, now: int, held: Held<V>)
    requires MonotoneTo(ops, now)
    ensures Answer(ops, key, now) == Some(held) <==>
              held.expiry > now && exists i :: Latest(ops, key, i) && ops[i].held == held
  {
    var all := ops + [Get(key, now)];
    HeldIffCached(all, key, held);
    if exists i :: Latest(ops, key, i) && ops[i].held == held && held.expiry > now {
      var i :| Latest(ops, key, i) && ops[i].held == held && held.expiry > now;
      assert Latest(all, key, i) && Outlives(all, i, held.expiry);
    }
    if Cached(all, key, held) {
      var i :| Latest(all, key, i) && all[i].held == held && Outlives(all, i, held.expiry);
      assert all[|ops|].now < held.expiry;
      assert Latest(ops, key, i);
    }
  }

  /** With any clock, a get never answers an entry that has expired by its own reading. */
  lemma NeverExpired<K, V>(ops: seq<Op<K, V>>, key: K, now: int)
    requires Answer(ops, key, now).Some?
    ensures Answer(ops, key, now).value.expiry > now
    ensures exists i :: Latest(ops, key, i) && ops[i].held == Answer(ops, key, now).value
  {
    var (all, held) := (ops + [Get(key, now)], Answer(ops, key, now).value);
    HeldIffCached(all, key, held);
    var i :| Latest(all, key, i) && all[i].held == held && Outlives(all, i, held.expiry);
    assert all[|ops|].now < held.expiry;
    assert Latest(ops, key, i);
  }
}
