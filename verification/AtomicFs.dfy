/** Atomic file replacement (src/atomic_fs.rs) over a file system with a volatile and a stable
    side.

    A name has the entry a running process sees and the set of entries a power loss may leave
    behind; file data that was never synced may read back as anything after a power loss. */
module AtomicFs {
  import opened Prelude

  datatype Path = Path(parent: Option<string>, name: Option<string>)

  /** What one path can show: its content now, and every content it may have after a power loss. */
  datatype File<!T(==)> = File(live: Option<T>, crash: iset<Option<T>>)

  ghost predicate Sound<T>(f: File<T>) {
    f.live in f.crash
  }

  /** The file was not replaced; at most some writeback reached stable storage. */
  ghost predicate Settles<T(!new)>(before: File<T>, after: File<T>) {
    after.live == before.live && after.crash <= before.crash && Sound(after)
  }

  /** `Interrupted`: the future was dropped at one of its awaits. */
  datatype Ending = Completed | Failed | Interrupted

  /** How a write of `content` may leave the file it replaces. */
  ghost predicate WriteEnds<T(!new)>(before: File<T>, content: T, after: File<T>, ending: Ending) {
    if ending.Completed? then
      after == File(Some(content), iset{Some(content)})
    else
      || Settles(before, after)
      || (&& after.live == Some(content) && Sound(after)
          && after.crash <= before.crash + iset{Some(content)})
  }

  type Inode = nat

  /** `dir` and `data` are what a running process sees; `stable` and `synced` what reached stable
      storage. A name missing from `stable` was never entered. */
  datatype Fs<!T> = Fs(data: map<Inode, T>, synced: set<Inode>, dir: map<Path, Inode>,
                       stable: map<Path, set<Option<Inode>>>)
  {
    function Entry(p: Path): Option<Inode> {
      if p in dir then Some(dir[p]) else None
    }

    function StableEntries(p: Path): set<Option<Inode>> {
      if p in stable then stable[p] else {None}
    }

    ghost predicate Valid() {
      && synced <= data.Keys
      && (forall p | p in dir :: dir[p] in data)
      && (forall p, e | e in StableEntries(p) && e.Some? :: e.value in data)
      && (forall p :: Entry(p) in StableEntries(p))
    }

    function Live(p: Path): Option<T> {
      if p in dir && dir[p] in data then Some(data[dir[p]]) else None
    }

    /** Contents a stable entry may turn out to have: its data if that was synced, anything at all
        otherwise. */
    ghost predicate MayRead(e: Option<Inode>, c: Option<T>) {
      match e
      case None => c == None
      case Some(i) => c.Some? && (i in synced ==> i in data && data[i] == c.value)
    }

    ghost predicate MayShow(p: Path, c: Option<T>) {
      exists e :: e in StableEntries(p) && MayRead(e, c)
    }

    // The system calls `atomic_write` makes, as changes to the file system.

    function Create(p: Path, i: Inode, junk: T): (r: Fs<T>)
      ensures forall q :: r.Entry(q) == if q == p then Some(i) else Entry(q)
      ensures forall q :: r.StableEntries(q) == if q == p then StableEntries(q) + {Some(i)} else StableEntries(q)
    {
      Fs(data[i := junk], synced, dir[p := i], stable[p := StableEntries(p) + {Some(i)}])
    }

    function Fill(i: Inode, content: T): (r: Fs<T>)
      ensures forall q :: r.Entry(q) == Entry(q) && r.StableEntries(q) == StableEntries(q)
    {
      this.(data := data[i := content])
    }

    function SyncFile(i: Inode): (r: Fs<T>)
      ensures forall q :: r.Entry(q) == Entry(q) && r.StableEntries(q) == StableEntries(q)
    {
      this.(synced := synced + {i})
    }

    function Remove(p: Path): (r: Fs<T>)
      ensures forall q :: r.Entry(q) == if q == p then None else Entry(q)
      ensures forall q :: r.StableEntries(q) == if q == p then StableEntries(q) + {None} else StableEntries(q)
    {
      this.(dir := dir - {p}, stable := stable[p := StableEntries(p) + {None}])
    }

    function Rename(from: Path, to: Path): (r: Fs<T>)
      requires from in dir && from != to
      ensures forall q :: r.Entry(q) == if q == to then Entry(from) else if q == from then None else Entry(q)
      ensures forall q :: r.StableEntries(q) ==
                          if q == to then StableEntries(q) + {Entry(from)}
                          else if q == from then StableEntries(q) + {None} else StableEntries(q)
    {
      this.(dir := (dir - {from})[to := dir[from]],
            stable := stable[from := StableEntries(from) + {None}][to := StableEntries(to) + {Some(dir[from])}])
    }

    /** Every name in the directory is pinned to what it shows now. */
    function SyncDir(parent: Option<string>): (r: Fs<T>)
      ensures forall q :: r.Entry(q) == Entry(q)
      ensures forall q: Path | q in stable.Keys + dir.Keys ::
                r.StableEntries(q) == if q.parent == parent then {Entry(q)} else StableEntries(q)
      ensures forall q | q !in stable.Keys + dir.Keys :: r.StableEntries(q) == {None} == StableEntries(q)
    {
      this.(stable := map p | p in stable.Keys + dir.Keys ::
                        if p.parent == parent then {Entry(p)} else StableEntries(p))
    }
  }

  ghost function View<T(!new)>(fs: Fs<T>, p: Path): (f: File<T>) {
    File(fs.Live(p), iset c: Option<T> | fs.MayShow(p, c))
  }

  lemma ViewSound<T(!new)>(fs: Fs<T>, p: Path)
    requires fs.Valid()
    ensures Sound(View(fs, p)) && Settles(View(fs, p), View(fs, p))
  {
    assert fs.Entry(p) in fs.StableEntries(p) && fs.MayRead(fs.Entry(p), fs.Live(p));
  }

  /** A path whose entries did not change, and whose inodes read the same, shows the same. */
  lemma SameView<T(!new)>(fs: Fs<T>, after: Fs<T>, p: Path)
    requires fs.Valid()
    requires fs.Entry(p) == after.Entry(p) && fs.StableEntries(p) == after.StableEntries(p)
    requires forall i | i in fs.data :: i in after.data && after.data[i] == fs.data[i]
    requires forall i | i in fs.data :: i in after.synced <==> i in fs.synced
    ensures View(after, p) == View(fs, p)
  {}

  /** What the temporary file looks like between its creation and the rename: a private inode. */
  ghost predicate Private<T(!new)>(fs: Fs<T>, tmp: Path, i: Inode) {
    && fs.Valid() && fs.Entry(tmp) == Some(i)
    && forall p | p != tmp :: Some(i) !in fs.StableEntries(p)
  }

  /** Creating, filling and syncing the temporary file shows through no other path. */
  lemma TempHidden<T(!new)>(fs: Fs<T>, tmp: Path, i: Inode, junk: T, content: T)
    requires fs.Valid() && i !in fs.data
    ensures var f1 := fs.Create(tmp, i, junk); var f2 := f1.Fill(i, content); var f3 := f2.SyncFile(i);
            && Private(f1, tmp, i) && Private(f2, tmp, i) && Private(f3, tmp, i)
            && forall p | p != tmp :: View(f1, p) == View(fs, p) && View(f2, p) == View(fs, p)
                                   && View(f3, p) == View(fs, p)
  {
    var f1 := fs.Create(tmp, i, junk);
    var f2 := f1.Fill(i, content);
    var f3 := f2.SyncFile(i);
    forall p | p != tmp
      ensures View(f1, p) == View(fs, p) && View(f2, p) == View(fs, p) && View(f3, p) == View(fs, p)
    {
      SameView(fs, f1, p);
      SameView(fs, f2, p);
      SameView(fs, f3, p);
    }
  }

  lemma RemoveHidden<T(!new)>(fs: Fs<T>, tmp: Path)
    requires fs.Valid()
    ensures fs.Remove(tmp).Valid() && forall p | p != tmp :: View(fs.Remove(tmp), p) == View(fs, p)
  {}

  /** Renaming a synced private file over `path` adds its content, whole, to what `path` may show
      after a power loss, and nothing else. */
  lemma RenameLands<T(!new)>(fs: Fs<T>, tmp: Path, path: Path, i: Inode)
    requires Private(fs, tmp, i) && i in fs.synced && tmp != path
    ensures var f := fs.Rename(tmp, path);
            && f.Valid() && f.Entry(path) == Some(i)
            && View(f, path) == File(Some(fs.data[i]), View(fs, path).crash + iset{Some(fs.data[i])})
            && forall p | p != tmp && p != path :: View(f, p) == View(fs, p)
  {
    var f := fs.Rename(tmp, path);
    forall p | p != tmp && p != path ensures View(f, p) == View(fs, p) {
      SameView(fs, f, p);
    }
    forall c: Option<T> ensures f.MayShow(path, c) <==> fs.MayShow(path, c) || c == Some(fs.data[i]) {
      assert forall e :: f.MayRead(e, c) == fs.MayRead(e, c);
      assert Some(i) in f.StableEntries(path);
    }
  }

  lemma SyncDirShrinks<T(!new)>(fs: Fs<T>, parent: Option<string>)
    requires fs.Valid()
    ensures var f := fs.SyncDir(parent); f.Valid() && forall p :: Settles(View(fs, p), View(f, p))
  {
    var f := fs.SyncDir(parent);
    forall p ensures f.Entry(p) in f.StableEntries(p) && f.StableEntries(p) <= fs.StableEntries(p) {
      assert fs.Entry(p) in fs.StableEntries(p);
    }
    forall p ensures Settles(View(fs, p), View(f, p)) {
      assert forall e, c :: f.MayRead(e, c) == fs.MayRead(e, c);
      ViewSound(f, p);
    }
  }

  lemma SyncDirPins<T(!new)>(fs: Fs<T>, p: Path)
    requires fs.Valid() && p in fs.dir && fs.dir[p] in fs.synced
    ensures View(fs.SyncDir(p.parent), p).crash == iset{fs.Live(p)}
  {
    var f := fs.SyncDir(p.parent);
    assert f.StableEntries(p) == {f.Entry(p)};
    forall c: Option<T> ensures f.MayShow(p, c) <==> c == fs.Live(p) {
      assert f.MayRead(f.Entry(p), c) <==> c == fs.Live(p);
    }
  }

  lemma SyncDirSettles<T(!new)>(fs: Fs<T>, parent: Option<string>)
    requires fs.Valid()
    ensures var f := fs.SyncDir(parent);
            && f.Valid()
            && (forall p :: Settles(View(fs, p), View(f, p)))
            && (forall p: Path | p.parent == parent && p in fs.dir && fs.dir[p] in fs.synced ::
                  View(f, p).crash == iset{fs.Live(p)})
  {
    SyncDirShrinks(fs, parent);
    forall p: Path | p.parent == parent && p in fs.dir && fs.dir[p] in fs.synced
      ensures View(fs.SyncDir(parent), p).crash == iset{fs.Live(p)}
    {
      SyncDirPins(fs, p);
    }
  }

  function TempFor(path: Path, ulid: string): (t: Path)
    requires path.name.Some?
    ensures t != path && t.parent == path.parent
  {
    var name := path.name.value + ".tmp." + ulid;
    assert |name| > |path.name.value|;
    Path(path.parent, Some(name))
  }

  /** What goes wrong in one call, and where. `stop` is the number of operations after which the
      future is dropped (any value past the last operation: never); `junk` is what a failed or
      dropped data write left in the temporary file. */
  datatype Faults<T> = Faults(open: bool, write: bool, sync: bool, rename: bool, remove: bool,
                              dirSync: bool, stop: nat, junk: T)

  class Volume<T(!new)> {
    var fs: Fs<T>

    constructor ()
      ensures fs.Valid() && fs.dir == map[]
    {
      fs := Fs(map[], {}, map[], map[]);
    }

    /** `atomic_write`. Whatever fails and wherever the caller stops waiting, `path` afterwards
        shows its old content or all of the new one, now and after a power loss; only a completed
        write pins the new one; and no other file is disturbed. The temporary name carries a fresh
        ULID, so it is not in use; `i` is the inode the kernel hands out. */
    method AtomicWrite(path: Path, content: T, ulid: string, i: Inode, faults: Faults<T>)
      returns (ending: Ending)
      requires fs.Valid() && i !in fs.data
      requires path.name.Some? ==> TempFor(path, ulid) !in fs.dir
      modifies this
      ensures fs.Valid()
      ensures WriteEnds(old(View(fs, path)), content, View(fs, path), ending)
      ensures forall p | p != path && (path.name.None? || p != TempFor(path, ulid)) ::
                Settles(old(View(fs, p)), View(fs, p))
      ensures ending.Completed? <==>
                && path.parent.Some? && path.name.Some?
                && !faults.open && !faults.write && !faults.sync && !faults.rename && !faults.dirSync
                && faults.stop >= 5
    {
      forall p { ViewSound(fs, p); }
      if path.parent.None? || path.name.None? {
        return Failed;
      }
      var tmp := TempFor(path, ulid);
      TempHidden(fs, tmp, i, faults.junk, content);
      if faults.stop == 0 { return Interrupted; }
      if faults.open { return Failed; }
      fs := fs.Create(tmp, i, faults.junk);
      if faults.stop == 1 { return Interrupted; }
      if faults.write { return Failed; }
      fs := fs.Fill(i, content);
      if faults.stop == 2 { return Interrupted; }
      if faults.sync { return Failed; }
      fs := fs.SyncFile(i);
      if faults.stop == 3 { return Interrupted; }
      if faults.rename {
        RemoveHidden(fs, tmp);
        if !faults.remove && faults.stop != 4 { fs := fs.Remove(tmp); }
        return if faults.stop == 4 then Interrupted else Failed;
      }
      RenameLands(fs, tmp, path, i);
      fs := fs.Rename(tmp, path);
      if faults.stop == 4 { return Interrupted; }
      if faults.dirSync { return Failed; }
      SyncDirSettles(fs, path.parent);
      fs := fs.SyncDir(path.parent);
      return Completed;
    }
  }
}
