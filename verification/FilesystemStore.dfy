/**
  The store as one thread runs it, over real paths: the fields it updates in place, its four
  operations, and the lock map it collects every twenty-five successful operations.
*/
module FilesystemStore {
  import opened Names
  import opened Directory
  import KvSpec
  import StoreMachine

  /** A node of the file system. */
  datatype Node = FileNode(bytes: Bytes) | DirNode

  datatype Outcome = Ok | Failed(why: KvSpec.Error)

  /** The names in the directory at `stem`. */
  function ReadDir(disk: map<string, Node>, stem: string): (names: set<string>)
    ensures forall name :: name in names <==> name != "" && '/' !in name && stem + "/" + name in disk
  {
    var names := set p | p in disk && stem + "/" < p && '/' !in p[|stem|+1..] :: p[|stem|+1..];
    assert forall name :: name in names <==> name != "" && '/' !in name && stem + "/" + name in disk by {
      forall name | name != "" && '/' !in name && stem + "/" + name in disk ensures name in names {
        assert (stem + "/" + name)[|stem|+1..] == name;
      }
      forall name | name in names ensures stem + "/" + name in disk {
        var p :| p in disk && stem + "/" < p && p[|stem|+1..] == name;
        assert p == stem + "/" + name;
      }
    }
    names
  }

  /** Is the entry the file of a key: neither temporary nor a directory? */
  predicate IsKeyEntry(disk: map<string, Node>, path: string) {
    Extension(path) != "tmp" && path in disk && disk[path].FileNode?
  }

  /** What a key file holds. */
  function ValueIn(disk: map<string, Node>, path: string): Option<Bytes> {
    if path in disk && disk[path].FileNode? then Some(disk[path].bytes) else None
  }

  /** The file system is a tree: what has an entry in a namespace directory has that directory. */
  ghost predicate TreeOk(r: Rules, root: string, disk: map<string, Node>) {
    forall d, name :: ValidDir(r, d) && '/' !in name && Stem(root, d) + "/" + name in disk ==>
      Stem(root, d) in disk && disk[Stem(root, d)].DirNode?
  }

  /** One more node keeps the tree a tree if the directory it is put in is there. */
  lemma TreeGrows(r: Rules, root: string, disk: map<string, Node>, d: Dir, name: string, node: Node)
    requires Sane(r) && TreeOk(r, root, disk) && ValidDir(r, d) && '/' !in name
    requires Stem(root, d) in disk && disk[Stem(root, d)].DirNode?
    requires Stem(root, d) + "/" + name in disk && disk[Stem(root, d) + "/" + name].DirNode? ==> node.DirNode?
    ensures TreeOk(r, root, disk[Stem(root, d) + "/" + name := node])
  {
    var path := Stem(root, d) + "/" + name;
    forall e, other | ValidDir(r, e) && '/' !in other && Stem(root, e) + "/" + other in disk[path := node]
      ensures Stem(root, e) in disk[path := node] && disk[path := node][Stem(root, e)].DirNode?
    {
      if Stem(root, e) + "/" + other == path {
        SplitLast(Stem(root, e), Stem(root, d), other, name, '/');
      }
    }
  }

  /** So does the data directory itself. */
  lemma RootGrows(r: Rules, root: string, disk: map<string, Node>)
    requires TreeOk(r, root, disk)
    ensures TreeOk(r, root, disk[root := DirNode])
  {
    forall e, other | ValidDir(r, e) && '/' !in other && Stem(root, e) + "/" + other in disk[root := DirNode]
      ensures Stem(root, e) in disk[root := DirNode] && disk[root := DirNode][Stem(root, e)].DirNode?
    {
      assert |Stem(root, e) + "/" + other| > |root|;
    }
  }

  /** A file has nothing under it: without it the tree is a tree. */
  lemma FileGone(r: Rules, root: string, disk: map<string, Node>, path: string)
    requires TreeOk(r, root, disk) && path in disk && disk[path].FileNode?
    ensures TreeOk(r, root, disk - {path})
  {
    forall e, other | ValidDir(r, e) && '/' !in other && Stem(root, e) + "/" + other in disk - {path}
      ensures Stem(root, e) in disk - {path} && (disk - {path})[Stem(root, e)].DirNode?
    {
      assert Stem(root, e) + "/" + other in disk;
    }
  }

  ghost predicate NoKeyAt(r: Rules, root: string, path: string) {
    forall l :: ValidKey(r, l) ==> KeyPath(root, l) != path
  }

  /** A temporary path is at no key, its own included. */
  lemma TempIsOther(r: Rules, root: string, k: Key, n: nat)
    requires Sane(r) && ProperRoot(root) && ValidKey(r, k)
    ensures NoKeyAt(r, root, TempPath(root, k, n))
  {
    forall l | ValidKey(r, l) ensures KeyPath(root, l) != TempPath(root, k, n) {
      TempPathIsNoKey(r, root, k, n, l);
    }
  }

  /** No other key is at the path of `k`. */
  lemma OthersSee(r: Rules, root: string, k: Key)
    requires Sane(r) && ProperRoot(root) && ValidKey(r, k)
    ensures forall l :: ValidKey(r, l) && l != k ==> KeyPath(root, l) != KeyPath(root, k)
  {
    forall l | ValidKey(r, l) && l != k ensures KeyPath(root, l) != KeyPath(root, k) {
      KeyPathInjective(r, root, k, l);
    }
  }

  /** The entries `list` accepts are the files of valid keys, and all of those are accepted. */
  lemma EntryIsKeyFile(r: Rules, root: string, disk: map<string, Node>, d: Dir, name: string)
    requires Sane(r) && ProperRoot(root) && ValidDir(r, d)
    ensures var stem := Stem(root, d);
      name in ReadDir(disk, stem) && IsKeyEntry(disk, stem + "/" + name) && ValidStr(r, name) <==>
      ValidKey(r, Key(d, name)) && ValueIn(disk, KeyPath(root, Key(d, name))).Some?
  {
    if name != "" && ValidStr(r, name) {
      KeyPathSplits(r, root, Key(d, name));
      ExtensionTells(r, root, Key(d, name), 0);
    }
  }

  /** Where there is no directory there are no keys. */
  lemma NoDirNoKeys(r: Rules, root: string, disk: map<string, Node>, d: Dir)
    requires Sane(r) && ProperRoot(root) && ValidDir(r, d) && TreeOk(r, root, disk) && Stem(root, d) !in disk
    ensures forall name :: ValidKey(r, Key(d, name)) ==> ValueIn(disk, KeyPath(root, Key(d, name))) == None
  {
    forall name | ValidKey(r, Key(d, name)) ensures ValueIn(disk, KeyPath(root, Key(d, name))) == None {
      KeyPathSplits(r, root, Key(d, name));
    }
  }

  /** All that is new is directories, and they are among those on the way to the namespace. */
  ghost predicate AddsDirs(root: string, d: Dir, before: map<string, Node>, after: map<string, Node>) {
    && (forall p :: p in before ==> p in after && after[p] == before[p])
    && (forall p :: p in after && p !in before ==>
          after[p] == DirNode && p in [root, Stem(root, Dir(d.primary, "")), Stem(root, d)])
  }

  /** New directories hide no file, and are where no key's file or temporary file is to be. */
  lemma AddedDirsKeep(root: string, d: Dir, before: map<string, Node>, after: map<string, Node>)
    requires AddsDirs(root, d, before, after)
    ensures forall p :: ValueIn(after, p) == ValueIn(before, p) && FileAt(after, p) == FileAt(before, p)
    ensures forall p :: |p| > |Stem(root, d)| ==> DirAt(after, p) == DirAt(before, p)
  {
  }

  predicate DirAt(disk: map<string, Node>, path: string) {
    path in disk && disk[path].DirNode?
  }

  predicate FileAt(disk: map<string, Node>, path: string) {
    path in disk && disk[path].FileNode?
  }

  /** What rename makes of the tree. */
  function Renamed(disk: map<string, Node>, tmp: string, path: string): map<string, Node>
    requires tmp in disk
  {
    disk[path := disk[tmp]] - {tmp}
  }

  /** No file is where a directory on the way to the namespace is to be. */
  predicate WayClear(root: string, disk: map<string, Node>, d: Dir) {
    !FileAt(disk, root) && !FileAt(disk, Stem(root, Dir(d.primary, ""))) && !FileAt(disk, Stem(root, d))
  }

  /** Nor is a directory where the key's file, or the temporary file `tmp`, is to be. */
  predicate Clear(root: string, disk: map<string, Node>, k: Key, tmp: string) {
    WayClear(root, disk, k.dir) && !DirAt(disk, tmp) && !DirAt(disk, KeyPath(root, k))
  }

  /** A file in a directory that is not a temporary one: its name does not end in `.tmp`. */
  predicate IsEntry(disk: map<string, Node>, stem: string, name: string) {
    && FileAt(disk, stem + "/" + name) && name != "" && '/' !in name
    && !(|name| > 4 && name[|name|-4..] == ".tmp")
  }

  /** Every such file has a name that the alphabet and the length limit allow. */
  ghost predicate EntriesFine(r: Rules, disk: map<string, Node>, stem: string) {
    forall name :: IsEntry(disk, stem, name) ==> |name| <= r.maxLen && forall c :: c in name ==> c in r.alphabet
  }

  lemma EntriesAre(disk: map<string, Node>, stem: string, name: string)
    ensures IsEntry(disk, stem, name) <==> name in ReadDir(disk, stem) && IsKeyEntry(disk, stem + "/" + name)
  {
    hide Extension;
    if '/' !in name {
      TempEntries(stem, name);
    }
  }

  /** Between calls nobody has a handle to a lock, and the map has grown no more than it may since
      the last of the sweeps that come with every twenty-fifth success, failures apart. */
  ghost predicate LocksFine(locks: map<string, nat>, gcCounter: nat, stale: nat) {
    && gcCounter >= 1 && (forall p :: p in locks ==> locks[p] == 1)
    && |locks| <= (gcCounter - 1) % 25 + stale
  }

  lemma OneLock(before: map<string, nat>, path: string)
    ensures |before[path := 1]| <= |before| + 1
  {
    assert before[path := 1].Keys == before.Keys + {path};
  }

  lemma OneCall(gcCounter: nat)
    requires gcCounter >= 1 && gcCounter % 25 != 0
    ensures gcCounter % 25 == (gcCounter - 1) % 25 + 1
  {
  }

  lemma OneMore(before: map<string, nat>, path: string, gcCounter: nat, stale: nat)
    requires LocksFine(before, gcCounter, stale)
    ensures LocksFine(before[path := 1], gcCounter, stale + 1)
    ensures gcCounter % 25 != 0 ==> LocksFine(before[path := 1], gcCounter + 1, stale)
  {
    OneLock(before, path);
    if gcCounter % 25 != 0 {
      OneCall(gcCounter);
    }
  }

  /** A namespace directory is one, or two, or three directories down. */
  lemma StemSteps(root: string, d: Dir)
    requires d.primary == "" ==> d.secondary == ""
    ensures Stem(root, Dir("", "")) == root
    ensures Stem(root, Dir(d.primary, "")) == if d.primary == "" then root else root + "/" + d.primary
    ensures d.secondary == "" ==> Stem(root, d) == Stem(root, Dir(d.primary, ""))
    ensures d.secondary != "" ==> Stem(root, d) == Stem(root, Dir(d.primary, "")) + "/" + d.secondary
    ensures |root| <= |Stem(root, Dir(d.primary, ""))| <= |Stem(root, d)|
  {
  }

  lemma AddsNone(root: string, d: Dir, disk: map<string, Node>)
    ensures AddsDirs(root, d, disk, disk)
  {
  }

  /** One more directory on the way, if it was not there. */
  lemma AddsOne(root: string, d: Dir, before: map<string, Node>, mid: map<string, Node>, after: map<string, Node>,
                path: string)
    requires AddsDirs(root, d, before, mid) && path in [root, Stem(root, Dir(d.primary, "")), Stem(root, d)]
    requires after == mid || (path !in mid && after == mid[path := DirNode])
    ensures AddsDirs(root, d, before, after)
    ensures forall p :: FileAt(after, p) == FileAt(before, p)
  {
    hide Stem;
  }

  /** None of the I/O operations from the `a`-th up to the `b`-th fails. */
  ghost predicate NoFailure(fails: nat -> bool, a: nat, b: nat) {
    forall i :: a <= i < b ==> !fails(i)
  }

  class FilesystemStore {
    const rules: Rules
    const dataDir: string
    const fails: nat -> bool          // which I/O operations fail, as they come
    var io: nat                       // how many there have been
    var tmpCounter: nat
    var gcCounter: nat
    var locks: map<string, nat>       // a path's lock, by its strong count
    var disk: map<string, Node>
    ghost var stale: nat              // calls since the last sweep that failed with a lock in the map

    /** Between calls nobody holds a handle, and the map has grown no more than it may. */
    ghost predicate Valid()
      reads this
    {
      && Sane(rules) && ProperRoot(dataDir)
      && TreeOk(rules, dataDir, disk)
      && LocksFine(locks, gcCounter, stale)
    }

    /** A success is counted, and every twenty-fifth sweeps; a failure may leave one lock behind. */
    twostate predicate Counted(success: bool)
      reads this
    {
      if success then
        && gcCounter == old(gcCounter) + 1
        && stale == if old(gcCounter) % 25 == 0 then 0 else old(stale)
      else
        && gcCounter == old(gcCounter)
        && old(stale) <= stale <= old(stale) + 1
    }

    function Value(k: Key): Option<Bytes>
      reads this
    {
      ValueIn(disk, KeyPath(dataDir, k))
    }

    constructor (r: Rules, root: string, initial: map<string, Node>, faults: nat -> bool)
      requires Sane(r) && ProperRoot(root) && TreeOk(r, root, initial)
      ensures Valid() && rules == r && dataDir == root && disk == initial
      ensures locks == map[] && tmpCounter == 0 && gcCounter == 1 && fails == faults && io == 0
    {
      rules, dataDir, disk, fails, io := r, root, initial, faults, 0;
      tmpCounter, gcCounter, locks := 0, 1, map[];
      stale := 0;
    }

    /** Keep the locks that someone besides the map refers to. */
    method GarbageCollectLocks()
      requires forall p :: p in locks ==> locks[p] == 1
      modifies this`gcCounter, this`locks, this`stale
      ensures gcCounter == old(gcCounter) + 1
      ensures old(gcCounter) % 25 == 0 ==> locks == map[] && stale == 0
      ensures old(gcCounter) % 25 != 0 ==> locks == old(locks) && stale == old(stale)
    {
      var count := gcCounter;
      gcCounter := gcCounter + 1;
      if count % StoreMachine.GC_LOCK_INTERVAL == 0 {
        var todo := locks.Keys;
        while todo != {}
          invariant todo == locks.Keys && gcCounter == old(gcCounter) + 1
          invariant forall p :: p in locks ==> locks[p] == 1
          decreases todo
        {
          var p :| p in todo;
          if locks[p] <= 1 {
            locks := locks - {p};
          }
          todo := todo - {p};
        }
        stale := 0;
      }
    }

    /** Take the lock of a path from the map, making it if need be; the guard is dropped with it. */
    method Enter(path: string)
      requires LocksFine(locks, gcCounter, stale)
      modifies this`locks
      ensures locks == old(locks)[path := 2]
    {
      locks := locks[path := (if path in locks then locks[path] else 1) + 1];
    }

    /** Let go of the lock; only a success goes on to collect locks. */
    method Exit(path: string, ok: bool, ghost before: map<string, nat>)
      requires LocksFine(before, gcCounter, stale) && locks == before[path := 2]
      modifies this`gcCounter, this`locks, this`stale
      ensures LocksFine(locks, gcCounter, stale)
      ensures Counted(ok)
    {
      locks := locks[path := locks[path] - 1];
      assert locks == before[path := 1];
      OneMore(before, path, gcCounter, stale);
      if ok {
        GarbageCollectLocks();
      } else {
        stale := stale + 1;
      }
    }

    /** Does the next I/O operation fail? */
    method Fails() returns (b: bool)
      modifies this`io
      ensures b == fails(old(io)) && io == old(io) + 1
    {
      b := fails(io);
      io := io + 1;
    }

    method Read(k: Key) returns (r: KvSpec.Result)
      requires Valid()
      modifies this`gcCounter, this`locks, this`stale, this`io
      ensures Valid()
      ensures var parts := [k.dir.primary, k.dir.secondary, k.name];
        (r.Err? && r.why.Invalid?) <==>
          || k.name == "" || (k.dir.primary == "" && k.dir.secondary != "")
          || (exists part :: part in parts && (|part| > rules.maxLen || exists c :: c in part && c !in rules.alphabet))
      ensures !ValidKey(rules, k) ==> locks == old(locks) && io == old(io)
      ensures ValidKey(rules, k) ==>
        && io == old(io) + 1
        && (r == KvSpec.Err(KvSpec.Io) <==> fails(old(io)) || DirAt(disk, KeyPath(dataDir, k)))
        && (r == KvSpec.Err(KvSpec.NotFound) <==> !fails(old(io)) && KeyPath(dataDir, k) !in disk)
        && (r.Got? <==> !fails(old(io)) && Value(k).Some?)
      ensures r.Got? ==> Value(k) == Some(r.bytes)
      ensures r.Got? || r.Err?
      ensures Counted(r.Got?)
    {
      hide LocksFine;
      hide TreeOk;
      hide CheckKey;
      hide ValidStr;
      hide KeyPath;
      KeyRefusal(rules, k);
      var c := CheckKey(rules, k);
      if c.Refused? {
        return KvSpec.Err(KvSpec.Invalid(c.why));
      }
      var path := KeyPath(dataDir, k);
      Enter(path);
      var bad := Fails();
      if bad || path !in disk || disk[path].DirNode? {
        Exit(path, false, old(locks));
        return KvSpec.Err(if bad || path in disk then KvSpec.Io else KvSpec.NotFound);
      }
      var buf := disk[path].bytes;
      Exit(path, true, old(locks));
      r := KvSpec.Got(buf);
    }

    method CreateDir(path: string) returns (ok: bool)
      requires TreeOk(rules, dataDir, disk) && TreeOk(rules, dataDir, disk[path := DirNode])
      modifies this`disk, this`io
      ensures TreeOk(rules, dataDir, disk) && io == old(io) + 1
      ensures ok <==> !fails(old(io)) && !FileAt(old(disk), path)
      ensures disk == if ok && path !in old(disk) then old(disk)[path := DirNode] else old(disk)
      ensures ok ==> DirAt(disk, path)
    {
      hide TreeOk;
      var bad := Fails();
      if bad || (path in disk && disk[path].FileNode?) {
        return false;
      }
      if path !in disk {
        disk := disk[path := DirNode];
      }
      ok := true;
    }

    /** fs::create_dir_all of a namespace directory: whatever is missing of the way to it. */
    method CreateDirs(d: Dir) returns (ok: bool)
      requires Sane(rules) && ProperRoot(dataDir) && TreeOk(rules, dataDir, disk) && ValidDir(rules, d)
      modifies this`disk, this`io
      ensures AddsDirs(dataDir, d, old(disk), disk) && TreeOk(rules, dataDir, disk)
      ensures old(io) < io <= old(io) + 3 && (ok <==> NoFailure(fails, old(io), io) && WayClear(dataDir, old(disk), d))
      ensures ok ==> DirAt(disk, Stem(dataDir, d))
    {
      hide TreeOk;
      hide Stem;
      hide AddsDirs;
      StemSteps(dataDir, d);
      RootGrows(rules, dataDir, disk);
      ghost var disk0 := disk;
      assert AddsDirs(dataDir, d, disk0, disk0) by { AddsNone(dataDir, d, disk0); }
      ok := CreateDir(dataDir);
      AddsOne(dataDir, d, disk0, disk0, disk, dataDir);
      if ok && d.primary != "" {
        ghost var disk1 := disk;
        ok := CreateUnder(Dir("", ""), d.primary);
        AddsOne(dataDir, d, disk0, disk1, disk, Stem(dataDir, Dir(d.primary, "")));
      }
      if ok && d.secondary != "" {
        ghost var disk2 := disk;
        ok := CreateUnder(Dir(d.primary, ""), d.secondary);
        AddsOne(dataDir, d, disk0, disk2, disk, Stem(dataDir, d));
      }
    }

    method CreateUnder(d: Dir, name: string) returns (ok: bool)
      requires Sane(rules) && TreeOk(rules, dataDir, disk) && ValidDir(rules, d) && ValidStr(rules, name)
      requires DirAt(disk, Stem(dataDir, d))
      modifies this`disk, this`io
      ensures TreeOk(rules, dataDir, disk) && io == old(io) + 1
      ensures var p := Stem(dataDir, d) + "/" + name;
        && (ok <==> !fails(old(io)) && !FileAt(old(disk), p))
        && disk == (if ok && p !in old(disk) then old(disk)[p := DirNode] else old(disk))
        && (ok ==> DirAt(disk, p))
    {
      hide TreeOk;
      assert '/' !in name;
      TreeGrows(rules, dataDir, disk, d, name, DirNode);
      ok := CreateDir(Stem(dataDir, d) + "/" + name);
    }

    /** Fill a temporary file of directory `d`: with all of `buf`, or fail part of the way. */
    method FillTemp(tmp: string, buf: Bytes, ghost d: Dir, ghost name: string) returns (ok: bool)
      requires Sane(rules) && TreeOk(rules, dataDir, disk) && ValidDir(rules, d)
      requires DirAt(disk, Stem(dataDir, d))
      requires '/' !in name && tmp == Stem(dataDir, d) + "/" + name
      modifies this`disk, this`io
      ensures old(io) < io <= old(io) + |buf| + 2 && (ok <==> NoFailure(fails, old(io), io) && !DirAt(old(disk), tmp))
      ensures disk == old(disk) || exists part :: disk == old(disk)[tmp := FileNode(part)]
      ensures ok ==> disk == old(disk)[tmp := FileNode(buf)]
      ensures TreeOk(rules, dataDir, disk)
    {
      hide TreeOk;
      var bad := Fails();
      if bad || (tmp in disk && disk[tmp].DirNode?) {
        return false;
      }
      var done := 0;
      TreeGrows(rules, dataDir, disk, d, name, FileNode([]));
      disk := disk[tmp := FileNode([])];
      while done < |buf|
        invariant done <= |buf| && disk == old(disk)[tmp := FileNode(buf[..done])]
        invariant old(io) < io <= old(io) + 1 + done && NoFailure(fails, old(io), io)
        invariant TreeOk(rules, dataDir, disk)
      {
        bad := Fails();
        if bad {
          return false;
        }
        var len :| 0 < len <= |buf| - done;
        done := done + len;
        TreeGrows(rules, dataDir, disk, d, name, FileNode(buf[..done]));
        disk := disk[tmp := FileNode(buf[..done])];
      }
      assert buf[..done] == buf;
      bad := Fails();
      ok := !bad;
    }

    /** The temporary file takes the place of the key's. */
    method Rename(tmp: string, path: string, ghost d: Dir, ghost name: string) returns (ok: bool)
      requires Sane(rules) && TreeOk(rules, dataDir, disk) && ValidDir(rules, d) && tmp != path
      requires DirAt(disk, Stem(dataDir, d))
      requires '/' !in name && path == Stem(dataDir, d) + "/" + name
      requires tmp in disk && disk[tmp].FileNode?
      modifies this`disk, this`io
      ensures io == old(io) + 1 && (ok <==> !fails(old(io)) && !DirAt(old(disk), path))
      ensures disk == if ok then Renamed(old(disk), tmp, path) else old(disk)
      ensures TreeOk(rules, dataDir, disk)
    {
      hide TreeOk;
      var bad := Fails();
      if bad || (path in disk && disk[path].DirNode?) {
        return false;
      }
      TreeGrows(rules, dataDir, disk, d, name, disk[tmp]);
      FileGone(rules, dataDir, disk[path := disk[tmp]], tmp);
      disk := disk[path := disk[tmp]] - {tmp};
      ok := true;
    }

    /** Under the lock of the path: rename the temporary file, then sync the directory. */
    method Install(tmp: string, path: string, ghost d: Dir, ghost name: string) returns (ok: bool)
      requires Valid() && ValidDir(rules, d) && tmp != path
      requires DirAt(disk, Stem(dataDir, d))
      requires '/' !in name && path == Stem(dataDir, d) + "/" + name
      requires tmp in disk && disk[tmp].FileNode?
      modifies this`disk, this`locks, this`gcCounter, this`stale, this`io
      ensures Valid()
      ensures old(io) < io <= old(io) + 2 && (ok <==> NoFailure(fails, old(io), io) && !DirAt(old(disk), path))
      ensures disk == if fails(old(io)) || DirAt(old(disk), path) then old(disk) else Renamed(old(disk), tmp, path)
      ensures Counted(ok)
    {
      hide LocksFine;
      hide TreeOk;
      hide Stem;
      hide Sane;
      hide ProperRoot;
      hide ValidDir;
      hide DirAt;
      hide Renamed;
      Enter(path);
      ok := Rename(tmp, path, d, name);
      if ok {
        var bad := Fails();
        ok := !bad;
      }
      Exit(path, ok, old(locks));
    }

    /** Put the bytes in a temporary file of their own, beside where they will go. */
    method Prepare(k: Key, buf: Bytes) returns (ok: bool, tmp: string)
      requires Valid() && ValidKey(rules, k)
      modifies this`disk, this`tmpCounter, this`io
      ensures Valid() && old(io) < io <= old(io) + |buf| + 5
      ensures ok <==> NoFailure(fails, old(io), io) && WayClear(dataDir, old(disk), k.dir) && !DirAt(old(disk), tmp)
      ensures DirAt(disk, KeyPath(dataDir, k)) == DirAt(old(disk), KeyPath(dataDir, k))
      ensures forall p :: p != tmp ==> ValueIn(disk, p) == ValueIn(old(disk), p)
      ensures NoKeyAt(rules, dataDir, tmp)
      ensures ok ==> tmp in disk && disk[tmp] == FileNode(buf)
      ensures tmp == TempPath(dataDir, k, old(tmpCounter))
      ensures tmpCounter == old(tmpCounter) + 1 || (!ok && tmpCounter == old(tmpCounter))
      ensures ok ==> DirAt(disk, Stem(dataDir, k.dir))
    {
      hide TreeOk;
      hide Stem;
      hide KeyPath;
      hide TempPath;
      hide TempExtension;
      hide ValidKey;
      hide ValidDir;
      hide ValidStr;
      hide ProperRoot;
      KeyHasDir(rules, k);
      KeyPathSplits(rules, dataDir, k);
      ghost var disk0 := disk;
      tmp := TempPath(dataDir, k, tmpCounter);
      TempIsOther(rules, dataDir, k, tmpCounter);
      ok := CreateDirs(k.dir);
      AddedDirsKeep(dataDir, k.dir, disk0, disk);
      if !ok {
        return;
      }
      ghost var n := tmpCounter;
      TempPathIs(rules, dataDir, k, n);
      tmpCounter := tmpCounter + 1;
      ok := FillTemp(tmp, buf, k.dir, k.name + "." + TempExtension(n));
    }

    method Write(k: Key, buf: Bytes) returns (r: Outcome)
      requires Valid()
      modifies this
      ensures Valid()
      ensures var parts := [k.dir.primary, k.dir.secondary, k.name];
        (r.Failed? && r.why.Invalid?) <==>
          || k.name == "" || (k.dir.primary == "" && k.dir.secondary != "")
          || (exists part :: part in parts && (|part| > rules.maxLen || exists c :: c in part && c !in rules.alphabet))
      ensures !ValidKey(rules, k) ==> disk == old(disk) && locks == old(locks) && io == old(io)
      ensures ValidKey(rules, k) ==>
        (r.Ok? <==> NoFailure(fails, old(io), io) &&
                    Clear(dataDir, old(disk), k, TempPath(dataDir, k, old(tmpCounter))))
      ensures io <= old(io) + |buf| + 7
      ensures r.Ok? ==> Value(k) == Some(buf)
      ensures r.Ok? ==> tmpCounter == old(tmpCounter) + 1 && TempPath(dataDir, k, old(tmpCounter)) !in disk
      ensures Counted(r.Ok?)
      ensures r.Failed? ==> Value(k) == old(Value(k)) || Value(k) == Some(buf)
      ensures forall l :: ValidKey(rules, l) && l != k ==> Value(l) == old(Value(l))
      ensures forall p :: p != KeyPath(dataDir, k) && p != TempPath(dataDir, k, old(tmpCounter)) ==>
        ValueIn(disk, p) == ValueIn(old(disk), p)
    {
      hide TempPath;
      hide LocksFine;
      hide TreeOk;
      hide CheckKey;
      hide ValidStr;
      hide KeyPath;
      hide Stem;
      KeyRefusal(rules, k);
      var c := CheckKey(rules, k);
      if c.Refused? {
        return Failed(KvSpec.Invalid(c.why));
      }
      var ok, tmp := Prepare(k, buf);
      if !ok {
        return Failed(KvSpec.Io);
      }
      var path := KeyPath(dataDir, k);
      KeyHasDir(rules, k);
      KeyPathSplits(rules, dataDir, k);
      OthersSee(rules, dataDir, k);
      ok := Install(tmp, path, k.dir, k.name);
      r := if ok then Ok else Failed(KvSpec.Io);
    }

    /** Unlink a file. */
    method Unlink(path: string) returns (ok: bool)
      requires TreeOk(rules, dataDir, disk)
      modifies this`disk, this`io
      ensures io == old(io) + 1 && (ok <==> !fails(old(io)) && FileAt(old(disk), path))
      ensures disk == if ok then old(disk) - {path} else old(disk)
      ensures TreeOk(rules, dataDir, disk)
    {
      hide TreeOk;
      var bad := Fails();
      if bad || path !in disk || disk[path].DirNode? {
        return false;
      }
      FileGone(rules, dataDir, disk, path);
      disk := disk - {path};
      ok := true;
    }

    /** The first I/O operation is the look at the file, the next the unlink, then the sync. */
    method Remove(k: Key, lazy: bool) returns (r: Outcome)
      requires Valid()
      modifies this`disk, this`locks, this`gcCounter, this`stale, this`io
      ensures Valid()
      ensures var parts := [k.dir.primary, k.dir.secondary, k.name];
        (r.Failed? && r.why.Invalid?) <==>
          || k.name == "" || (k.dir.primary == "" && k.dir.secondary != "")
          || (exists part :: part in parts && (|part| > rules.maxLen || exists c :: c in part && c !in rules.alphabet))
      ensures !ValidKey(rules, k) ==> disk == old(disk) && locks == old(locks) && io == old(io)
      ensures ValidKey(rules, k) && (fails(old(io)) || old(Value(k)) == None) ==> r.Ok? && disk == old(disk)
      ensures ValidKey(rules, k) && !fails(old(io)) && old(Value(k)).Some? ==>
        && (r.Ok? <==> !fails(old(io) + 1) && (lazy || !fails(old(io) + 2)))
        && Value(k) == if fails(old(io) + 1) then old(Value(k)) else None
      ensures r.Ok? ==> (Value(k) == None <==> !fails(old(io)) || old(Value(k)) == None)
      ensures Counted(r.Ok? && !fails(old(io)) && old(Value(k)).Some?)
      ensures forall l :: ValidKey(rules, l) && l != k ==> Value(l) == old(Value(l))
      ensures disk == old(disk) || disk == old(disk) - {KeyPath(dataDir, k)}
    {
      hide LocksFine;
      hide TreeOk;
      hide CheckKey;
      hide ValidStr;
      hide KeyPath;
      KeyRefusal(rules, k);
      var c := CheckKey(rules, k);
      if c.Refused? {
        return Failed(KvSpec.Invalid(c.why));
      }
      OthersSee(rules, dataDir, k);
      var path := KeyPath(dataDir, k);
      var bad := Fails();
      if bad || path !in disk || !disk[path].FileNode? {
        return Ok;
      }
      var ok := Uninstall(path, lazy);
      r := if ok then Ok else Failed(KvSpec.Io);
    }

    /** Under the lock of the path: unlink it, then, unless lazy, sync the directory. */
    method Uninstall(path: string, lazy: bool) returns (ok: bool)
      requires Valid() && FileAt(disk, path)
      modifies this`disk, this`locks, this`gcCounter, this`stale, this`io
      ensures Valid()
      ensures ok <==> !fails(old(io)) && (lazy || !fails(old(io) + 1))
      ensures disk == if fails(old(io)) then old(disk) else old(disk) - {path}
      ensures Counted(ok)
    {
      hide LocksFine;
      hide TreeOk;
      hide Sane;
      hide ProperRoot;
      Enter(path);
      ok := Unlink(path);
      if ok && !lazy {
        var bad := Fails();
        ok := !bad;
      }
      Exit(path, ok, old(locks));
    }

    /** The entries of a directory, in any order, less temporary files and directories. */
    method ScanEntries(stem: string) returns (ok: bool, keys: seq<string>)
      modifies this`io
      ensures old(io) <= io
      ensures NoFailure(fails, old(io), io) ==> (ok <==> EntriesFine(rules, disk, stem))
      ensures ok ==> KvSpec.Distinct(keys) && EntriesFine(rules, disk, stem)
      ensures ok ==> forall name :: name in keys <==> IsEntry(disk, stem, name)
    {
      hide IsKeyEntry;
      hide IsEntry;
      forall name
        ensures IsEntry(disk, stem, name) <==> name in ReadDir(disk, stem) && IsKeyEntry(disk, stem + "/" + name)
      {
        EntriesAre(disk, stem, name);
      }
      var all := ReadDir(disk, stem);
      var todo := all;
      keys, ok := [], false;
      while todo != {}
        invariant todo <= all && old(io) <= io
        invariant KvSpec.Distinct(keys)
        invariant forall name :: name in keys <==> name !in todo && IsEntry(disk, stem, name)
        invariant forall name :: name in keys ==> ValidStr(rules, name)
        decreases todo
      {
        var name :| name in todo;
        var bad := Fails();
        if bad {
          return;
        }
        assert IsEntry(disk, stem, name) <==> IsKeyEntry(disk, stem + "/" + name);
        if IsKeyEntry(disk, stem + "/" + name) {
          if !ValidStr(rules, name) {
            return;
          }
          keys := keys + [name];
        }
        todo := todo - {name};
      }
      ok := true;
    }

    /** The names are those of the keys of the namespace. */
    ghost predicate Lists(d: Dir, names: seq<string>)
      reads this
    {
      forall name :: name in names <==> ValidKey(rules, Key(d, name)) && Value(Key(d, name)).Some?
    }

    method Scan(d: Dir) returns (r: KvSpec.Result)
      requires Sane(rules) && ProperRoot(dataDir) && ValidDir(rules, d)
      modifies this`io
      ensures r.Keys? || r == KvSpec.Err(KvSpec.Io)
      ensures old(io) <= io
      ensures NoFailure(fails, old(io), io) ==> (r.Keys? <==> EntriesFine(rules, disk, Stem(dataDir, d)))
      ensures r.Keys? ==> KvSpec.Distinct(r.names)
      ensures r.Keys? ==> Lists(d, r.names)
    {
      hide Stem;
      hide KeyPath;
      hide IsKeyEntry;
      hide IsEntry;
      var ok, keys := ScanEntries(Stem(dataDir, d));
      if !ok {
        return KvSpec.Err(KvSpec.Io);
      }
      forall name ensures name in keys <==> ValidKey(rules, Key(d, name)) && Value(Key(d, name)).Some? {
        EntriesAre(disk, Stem(dataDir, d), name);
        EntryIsKeyFile(rules, dataDir, disk, d, name);
      }
      r := KvSpec.Keys(keys);
    }

    /** The first I/O operation is the look at the directory. */
    method List(d: Dir) returns (r: KvSpec.Result)
      requires Valid()
      modifies this`locks, this`gcCounter, this`stale, this`io
      ensures Valid()
      ensures var parts := [d.primary, d.secondary];
        (r.Err? && r.why.Invalid?) <==>
          || (d.primary == "" && d.secondary != "")
          || (exists part :: part in parts && (|part| > rules.maxLen || exists c :: c in part && c !in rules.alphabet))
      ensures r.Keys? || r.Err?
      ensures Counted(r.Keys? && !fails(old(io)) && Stem(dataDir, d) in disk)
      ensures r.Keys? ==> KvSpec.Distinct(r.names)
      ensures r.Keys? ==> (Lists(d, r.names) <==> !fails(old(io)) || Lists(d, []))
      ensures ValidDir(rules, d) && (fails(old(io)) || Stem(dataDir, d) !in disk) ==> r == KvSpec.Keys([])
      ensures ValidDir(rules, d) && Stem(dataDir, d) in disk && NoFailure(fails, old(io), io) ==>
        (r.Keys? <==> DirAt(disk, Stem(dataDir, d)) && EntriesFine(rules, disk, Stem(dataDir, d)))
    {
      hide TreeOk;
      DirRefusal(rules, d);
      var c := CheckDir(rules, d);
      if c.Refused? {
        return KvSpec.Err(KvSpec.Invalid(c.why));
      }
      var bad := Fails();
      if bad {
        return KvSpec.Keys([]);
      }
      if Stem(dataDir, d) !in disk {
        NoDirNoKeys(rules, dataDir, disk, d);
        return KvSpec.Keys([]);
      }
      if disk[Stem(dataDir, d)].FileNode? {
        return KvSpec.Err(KvSpec.Io);
      }
      r := Scan(d);
      if r.Keys? {
        GarbageCollectLocks();
      }
    }
  }
}
