/**
  One directory of the file system under the store, seen two ways: as running processes see it,
  and as it may come back after a power loss.

  Every file the store touches is created, renamed and unlinked inside one directory, so a
  directory carries its own inode table. A change to a directory entry is queued in `log` until
  the directory is synced; a crash keeps any subset of the queue, in order. The bytes of an inode
  are on disk only while it is `synced`; a crash leaves any bytes at all in one that is not.
*/
module Directory {
  type Byte = x: int | 0 <= x < 256
  type Bytes = seq<Byte>
  type Ino = nat

  datatype Option<+T> = None | Some(value: T)

  /** A directory entry: the file of a key, or the n-th temporary file, made to write a key. */
  datatype Entry = KeyName(name: string) | TempName(name: string, n: nat)

  datatype File = File(bytes: Bytes, synced: bool)

  datatype DirOp =
    | Link(e: Entry, ino: Ino)
    | Move(src: Entry, dst: Entry, ino: Ino)
    | Unlink(e: Entry)

  datatype Folder = Folder(
    files: map<Ino, File>,   // inode table
    vol: map<Entry, Ino>,    // entries as running processes see them
    dur: map<Entry, Ino>,    // entries on disk
    log: seq<DirOp>,         // entry changes not known to be on disk, oldest first
    next: Ino)               // first inode number never used

  const EMPTY := Folder(map[], map[], map[], [], 0)

  // ---------- what a directory shows ----------

  ghost function Content(f: Folder, links: map<Entry, Ino>, name: string): Option<Bytes> {
    if KeyName(name) in links && links[KeyName(name)] in f.files
    then Some(f.files[links[KeyName(name)]].bytes)
    else None
  }

  /** What a process reads at the key file `name`. */
  ghost function Visible(f: Folder, name: string): Option<Bytes> {
    Content(f, f.vol, name)
  }

  /** Does `op` put inode `i` at entry `e`? */
  ghost predicate Links(op: DirOp, e: Entry, i: Ino) {
    match op
    case Link(e', i') => e == e' && i == i'
    case Move(_, dst, i') => e == dst && i == i'
    case Unlink(_) => false
  }

  /** Is entry `e` inode `i` on disk, or made so by one of the first `n` queued changes? */
  ghost predicate Linked(dur: map<Entry, Ino>, log: seq<DirOp>, n: nat, e: Entry, i: Ino)
    requires n <= |log|
  {
    (e in dur && dur[e] == i) || exists j :: 0 <= j < n && Links(log[j], e, i)
  }

  /** Can entry `e` be inode `i` after a crash? */
  ghost predicate MayLink(f: Folder, e: Entry, i: Ino) {
    Linked(f.dur, f.log, |f.log|, e, i)
  }

  /** Can key file `name` be missing after a crash? */
  ghost predicate MayMiss(f: Folder, name: string) {
    KeyName(name) !in f.dur || Unlink(KeyName(name)) in f.log
  }

  /** Can key file `name` read as `v` after a crash? */
  ghost predicate MayRead(f: Folder, name: string, v: Option<Bytes>) {
    match v
    case None => MayMiss(f, name)
    case Some(b) => exists i :: MayLink(f, KeyName(name), i) && i in f.files && f.files[i].bytes == b
  }

  // ---------- operations ----------

  /** File::create: truncates the file an entry already names, else links a new inode. */
  function Create(f: Folder, e: Entry): Folder {
    if e in f.vol then
      f.(files := f.files[f.vol[e] := File([], false)])
    else
      f.(files := f.files[f.next := File([], false)],
         vol := f.vol[e := f.next],
         log := f.log + [Link(e, f.next)],
         next := f.next + 1)
  }

  function Append(f: Folder, i: Ino, chunk: Bytes): Folder
    requires i in f.files
  {
    f.(files := f.files[i := File(f.files[i].bytes + chunk, false)])
  }

  function SyncFile(f: Folder, i: Ino): Folder
    requires i in f.files
  {
    f.(files := f.files[i := f.files[i].(synced := true)])
  }

  function Rename(f: Folder, src: Entry, dst: Entry): Folder
    requires src in f.vol
  {
    f.(vol := (f.vol - {src})[dst := f.vol[src]],
       log := f.log + [Move(src, dst, f.vol[src])])
  }

  function Remove(f: Folder, e: Entry): Folder {
    f.(vol := f.vol - {e}, log := f.log + [Unlink(e)])
  }

  function SyncDir(f: Folder): Folder {
    f.(dur := f.vol, log := [])
  }

  function DoOp(links: map<Entry, Ino>, op: DirOp): map<Entry, Ino> {
    match op
    case Link(e, i) => links[e := i]
    case Move(src, dst, i) => (links - {src})[dst := i]
    case Unlink(e) => links - {e}
  }

  /** The on-disk entries once the queued changes marked in `keep` have reached the disk. */
  function Kept(dur: map<Entry, Ino>, log: seq<DirOp>, keep: seq<bool>): map<Entry, Ino>
    requires |keep| == |log|
    decreases |log|
  {
    if log == [] then dur
    else
      var n := |log| - 1;
      var before := Kept(dur, log[..n], keep[..n]);
      if keep[n] then DoOp(before, log[n]) else before
  }

  /** Power loss: `keep` says which queued changes survive, `torn` what unsynced files hold. */
  function Crash(f: Folder, keep: seq<bool>, torn: map<Ino, Bytes>): Folder
    requires |keep| == |f.log|
  {
    var links := Kept(f.dur, f.log, keep);
    var files := map i | i in f.files ::
      if f.files[i].synced || i !in torn then f.files[i].(synced := true) else File(torn[i], true);
    Folder(files, links, links, [], f.next)
  }

  // ---------- invariant ----------

  ghost predicate Injective(links: map<Entry, Ino>) {
    forall e, e' :: e in links && e' in links && links[e] == links[e'] ==> e == e'
  }

  /** Inodes in use are in the table; a queued change has the shape the store gives it. */
  ghost predicate InTable(f: Folder) {
    && (forall i :: i in f.files ==> i < f.next)
    && (forall e, i :: MayLink(f, e, i) ==> i in f.files)
    && (forall j :: 0 <= j < |f.log| ==>
          match f.log[j]
          case Link(e, _) => e.TempName?
          case Move(src, dst, _) => src.TempName? && dst.KeyName?
          case Unlink(e) => e.KeyName?)
  }

  /** An inode is new when it is linked, and when moved it can be nowhere but where it moves from. */
  ghost predicate InOrder(dur: map<Entry, Ino>, log: seq<DirOp>, j: nat)
    requires j < |log|
  {
    match log[j]
    case Link(_, i) => forall e :: !Linked(dur, log, j, e, i)
    case Move(src, _, i) => forall e :: Linked(dur, log, j, e, i) ==> e == src
    case Unlink(_) => true
  }

  ghost predicate Ordered(dur: map<Entry, Ino>, log: seq<DirOp>) {
    forall j :: 0 <= j < |log| ==> InOrder(dur, log, j)
  }

  ghost predicate Valid(f: Folder) {
    Ordered(f.dur, f.log) && Sound(f)
  }

  ghost predicate Sound(f: Folder) {
    && InTable(f)
    && Injective(f.vol) && Injective(f.dur)
    // what is visible may survive a crash
    && (forall e :: e in f.vol ==> MayLink(f, e, f.vol[e]))
    // a temporary file shares its inode with no other entry, now or after a crash
    && (forall t, e :: t in f.vol && t.TempName? && MayLink(f, e, f.vol[t]) ==> e == t)
    // a key file is never torn
    && (forall name, i :: MayLink(f, KeyName(name), i) ==> i in f.files && f.files[i].synced)
  }

  lemma EmptyValid()
    ensures Valid(EMPTY)
  {
  }

  /** Nothing about key files changes. */
  ghost predicate SameKeys(f: Folder, f': Folder) {
    && (forall name :: Visible(f', name) == Visible(f, name))
    && (forall name, v :: MayRead(f', name, v) <==> MayRead(f, name, v))
  }

  /** Changing the bytes of a temporary file changes no key file, visible or possible. */
  lemma TempBytesChange(f: Folder, t: Entry, file: File)
    requires Valid(f) && t in f.vol && t.TempName?
    ensures var f' := f.(files := f.files[f.vol[t] := file]); Valid(f') && SameKeys(f, f')
  {
    var i := f.vol[t];
    var f' := f.(files := f.files[i := file]);
    assert MayLink(f, t, i);
    assert forall e, x :: MayLink(f', e, x) <==> MayLink(f, e, x);
    forall name ensures Visible(f', name) == Visible(f, name) {
      assert KeyName(name) in f.vol ==> MayLink(f, KeyName(name), f.vol[KeyName(name)]);
    }
    forall name, v ensures MayRead(f', name, v) <==> MayRead(f, name, v) {
      assert forall x :: MayLink(f, KeyName(name), x) ==> x != i;
    }
  }

  /** A link to an inode already in the table says nothing new about key files. */
  lemma SameLinksSameReads(f: Folder, f': Folder)
    requires f'.dur == f.dur
    requires forall name, i :: MayLink(f', KeyName(name), i) <==> MayLink(f, KeyName(name), i)
    requires forall name :: Unlink(KeyName(name)) in f'.log <==> Unlink(KeyName(name)) in f.log
    requires forall name, i :: MayLink(f, KeyName(name), i) ==>
      i in f.files && i in f'.files && f'.files[i] == f.files[i]
    ensures forall name, v :: MayRead(f', name, v) <==> MayRead(f, name, v)
  {
    forall name, v ensures MayRead(f', name, v) <==> MayRead(f, name, v) {
    }
  }

  lemma NewTemp(f: Folder, t: Entry)
    requires Valid(f) && t.TempName? && t !in f.vol
    ensures Valid(Create(f, t)) && SameKeys(f, Create(f, t))
  {
    forall e, i ensures MayLink(Create(f, t), e, i) <==> MayLink(f, e, i) || (e == t && i == f.next) {
      Appended(f, Create(f, t), Link(t, f.next), e, i);
    }
    OrderedAppended(f, Link(t, f.next));
    NewTempSound(f, t);
    SameLinksSameReads(f, Create(f, t));
  }

  lemma NewTempSound(f: Folder, t: Entry)
    requires Sound(f) && t.TempName? && t !in f.vol
    requires forall e, i :: MayLink(Create(f, t), e, i) <==> MayLink(f, e, i) || (e == t && i == f.next)
    ensures Sound(Create(f, t))
    ensures forall name :: Visible(Create(f, t), name) == Visible(f, name)
  {
    hide MayLink;
    assert InTable(Create(f, t));
  }

  lemma LinkedBefore(dur: map<Entry, Ino>, log: seq<DirOp>, op: DirOp, n: nat, e: Entry, i: Ino)
    requires n <= |log|
    ensures Linked(dur, log + [op], n, e, i) <==> Linked(dur, log, n, e, i)
  {
    assert forall j :: 0 <= j < n ==> (log + [op])[j] == log[j];
  }

  /** Queueing one more change adds exactly the link it makes. */
  lemma Appended(f: Folder, f': Folder, op: DirOp, e: Entry, i: Ino)
    requires f'.dur == f.dur && f'.log == f.log + [op]
    ensures MayLink(f', e, i) <==> MayLink(f, e, i) || Links(op, e, i)
  {
    LinkedBefore(f.dur, f.log, op, |f.log|, e, i);
    assert f'.log[|f.log|] == op;
  }

  lemma OrderedAppended(f: Folder, op: DirOp)
    requires Ordered(f.dur, f.log)
    requires op.Link? ==> forall e :: !MayLink(f, e, op.ino)
    requires op.Move? ==> forall e :: MayLink(f, e, op.ino) ==> e == op.src
    ensures Ordered(f.dur, f.log + [op])
  {
    forall j | 0 <= j < |f.log + [op]| ensures InOrder(f.dur, f.log + [op], j) {
      forall e, i ensures Linked(f.dur, f.log + [op], j, e, i) <==> Linked(f.dur, f.log, j, e, i) {
        LinkedBefore(f.dur, f.log, op, j, e, i);
      }
      if j < |f.log| {
        assert InOrder(f.dur, f.log, j);
      } else {
        assert forall e, i :: Linked(f.dur, f.log, j, e, i) <==> MayLink(f, e, i);
      }
    }
  }

  lemma CreateKeeps(f: Folder, t: Entry)
    requires Valid(f) && t.TempName?
    ensures Valid(Create(f, t)) && SameKeys(f, Create(f, t))
    ensures t in Create(f, t).vol && Create(f, t).vol[t] in Create(f, t).files
    ensures Create(f, t).files[Create(f, t).vol[t]] == File([], false)
  {
    if t in f.vol {
      TempBytesChange(f, t, File([], false));
    } else {
      NewTemp(f, t);
    }
  }

  /** The rename of a complete, synced temporary file: one key changes, to those bytes. */
  lemma RenameInstalls(f: Folder, t: Entry, name: string)
    requires Valid(f) && t in f.vol && t.TempName? && f.files[f.vol[t]].synced
    ensures var f' := Rename(f, t, KeyName(name)); var b := f.files[f.vol[t]].bytes;
      && Valid(f')
      && Visible(f', name) == Some(b)
      && (forall x :: x != name ==> Visible(f', x) == Visible(f, x))
      && (forall x, v :: MayRead(f', x, v) <==> MayRead(f, x, v) || (x == name && v == Some(b)))
  {
    var f' := Rename(f, t, KeyName(name));
    var op := Move(t, KeyName(name), f.vol[t]);
    assert MayLink(f, t, f.vol[t]);
    forall e, x ensures MayLink(f', e, x) <==> MayLink(f, e, x) || (e == KeyName(name) && x == f.vol[t]) {
      Appended(f, f', op, e, x);
    }
    OrderedAppended(f, op);
    RenameSound(f, t, name);
    RenameReads(f, t, name);
  }

  lemma RenameSound(f: Folder, t: Entry, name: string)
    requires Sound(f) && t in f.vol && t.TempName? && f.files[f.vol[t]].synced
    requires var f' := Rename(f, t, KeyName(name));
      forall e, x :: MayLink(f', e, x) <==> MayLink(f, e, x) || (e == KeyName(name) && x == f.vol[t])
    ensures Sound(Rename(f, t, KeyName(name)))
  {
    var f' := Rename(f, t, KeyName(name));
    assert MayLink(f, t, f.vol[t]);
  }

  lemma RenameReads(f: Folder, t: Entry, name: string)
    requires InTable(f) && t in f.vol && t.TempName? && MayLink(f, t, f.vol[t])
    requires var f' := Rename(f, t, KeyName(name));
      forall e, x :: MayLink(f', e, x) <==> MayLink(f, e, x) || (e == KeyName(name) && x == f.vol[t])
    ensures var f' := Rename(f, t, KeyName(name));
      forall x, v :: MayRead(f', x, v) <==> MayRead(f, x, v) || (x == name && v == Some(f.files[f.vol[t]].bytes))
  {
    var i := f.vol[t];
    var f' := Rename(f, t, KeyName(name));
    forall x, v ensures MayRead(f', x, v) <==> MayRead(f, x, v) || (x == name && v == Some(f.files[i].bytes)) {
      if v == None {
        assert Unlink(KeyName(x)) in f'.log <==> Unlink(KeyName(x)) in f.log;
      } else if x == name && v == Some(f.files[i].bytes) {
        assert MayLink(f', KeyName(x), i);
      }
    }
  }

  /** Unlinking a key file: one key changes, to absent. */
  lemma RemoveDeletes(f: Folder, name: string)
    requires Valid(f)
    ensures var f' := Remove(f, KeyName(name));
      && Valid(f')
      && Visible(f', name) == None
      && (forall x :: x != name ==> Visible(f', x) == Visible(f, x))
      && (forall x, v :: MayRead(f', x, v) <==> MayRead(f, x, v) || (x == name && v == None))
  {
    var f' := Remove(f, KeyName(name));
    var op := Unlink(KeyName(name));
    forall e, i ensures MayLink(f', e, i) <==> MayLink(f, e, i) {
      Appended(f, f', op, e, i);
    }
    OrderedAppended(f, op);
    forall x, v ensures MayRead(f', x, v) <==> MayRead(f, x, v) || (x == name && v == None) {
      assert Unlink(KeyName(x)) in f'.log <==> Unlink(KeyName(x)) in f.log || x == name;
    }
  }

  /** Syncing the directory makes the visible state the only one a crash can leave. */
  lemma SyncDirSettles(f: Folder)
    requires Valid(f)
    ensures var f' := SyncDir(f);
      && Valid(f')
      && (forall name :: Visible(f', name) == Visible(f, name))
      && (forall name, v :: MayRead(f', name, v) <==> v == Visible(f, name))
  {
    var f' := SyncDir(f);
    assert forall e, i :: MayLink(f', e, i) <==> e in f.vol && f.vol[e] == i;
    forall name, v ensures MayRead(f', name, v) <==> v == Visible(f, name) {
      if KeyName(name) in f.vol {
        assert MayLink(f', KeyName(name), f.vol[KeyName(name)]);
      }
    }
  }

  // ---------- what an operation leaves alone ----------

  /** Entry `e` and its file are the same in both. */
  ghost predicate SameAt(f: Folder, f': Folder, e: Entry) {
    && (e in f.vol <==> e in f'.vol)
    && (e in f.vol ==>
          && f'.vol[e] == f.vol[e]
          && (f.vol[e] in f.files ==> f.vol[e] in f'.files && f'.files[f.vol[e]] == f.files[f.vol[e]]))
  }

  /** A temporary file has the inode it had, or one never used before. */
  ghost predicate NewTempsOnly(f: Folder, f': Folder) {
    && f.next <= f'.next
    && forall t :: t in f'.vol && t.TempName? ==> (t in f.vol && f'.vol[t] == f.vol[t]) || f'.vol[t] >= f.next
  }

  ghost predicate SameKeyEntries(f: Folder, f': Folder) {
    forall name :: SameAt(f, f', KeyName(name))
  }

  lemma CreateLeaves(f: Folder, t: Entry)
    requires Valid(f) && t.TempName?
    ensures NewTempsOnly(f, Create(f, t))
    ensures forall e :: e != t ==> SameAt(f, Create(f, t), e)
  {
    forall e | e != t ensures SameAt(f, Create(f, t), e) {
      assert e in f.vol ==> MayLink(f, e, f.vol[e]);
    }
  }

  lemma WriteLeaves(f: Folder, t: Entry, file: File)
    requires Valid(f) && t in f.vol && t.TempName?
    ensures var f' := f.(files := f.files[f.vol[t] := file]);
      NewTempsOnly(f, f') && forall e :: e != t ==> SameAt(f, f', e)
  {
  }

  lemma RenameLeaves(f: Folder, t: Entry, name: string)
    requires Valid(f) && t in f.vol && t.TempName?
    ensures NewTempsOnly(f, Rename(f, t, KeyName(name)))
    ensures forall e :: e != t && e != KeyName(name) ==> SameAt(f, Rename(f, t, KeyName(name)), e)
  {
  }

  lemma RemoveLeaves(f: Folder, name: string)
    ensures NewTempsOnly(f, Remove(f, KeyName(name)))
    ensures forall e :: e != KeyName(name) ==> SameAt(f, Remove(f, KeyName(name)), e)
  {
  }

  lemma SyncDirLeaves(f: Folder)
    ensures NewTempsOnly(f, SyncDir(f)) && forall e :: SameAt(f, SyncDir(f), e)
  {
  }

  // ---------- crashes ----------

  /** What one surviving change does to a possible state: still possible, still no inode twice. */
  lemma OpIsPossible(dur: map<Entry, Ino>, log: seq<DirOp>, n: nat, before: map<Entry, Ino>)
    requires n < |log| && InOrder(dur, log, n) && Injective(before)
    requires forall e :: e in before ==> Linked(dur, log, n, e, before[e])
    ensures var m := DoOp(before, log[n]);
      && Injective(m)
      && forall e :: e in m ==> Linked(dur, log, n + 1, e, m[e])
  {
    var m := DoOp(before, log[n]);
    forall e | e in m ensures Linked(dur, log, n + 1, e, m[e]) {
      if Links(log[n], e, m[e]) {
      } else {
        assert Linked(dur, log, n, e, before[e]);
      }
    }
  }

  /** Entries that survive a crash are among those that may, and no inode survives twice. */
  lemma {:induction false} KeptIsPossible(dur: map<Entry, Ino>, log: seq<DirOp>, n: nat, keep: seq<bool>)
    requires Ordered(dur, log) && Injective(dur) && n <= |log| && |keep| == n
    ensures var m := Kept(dur, log[..n], keep);
      && Injective(m)
      && (forall e :: e in m ==> Linked(dur, log, n, e, m[e]))
    decreases n
  {
    if n > 0 {
      assert log[..n][..n-1] == log[..n-1];
      KeptIsPossible(dur, log, n - 1, keep[..n-1]);
      var before := Kept(dur, log[..n-1], keep[..n-1]);
      if keep[n-1] {
        assert InOrder(dur, log, n - 1);
        OpIsPossible(dur, log, n - 1, before);
      } else {
        forall e | e in before ensures Linked(dur, log, n, e, before[e]) {
          assert Linked(dur, log, n - 1, e, before[e]);
        }
      }
    }
  }

  /** A key file is missing after a crash only if it was on disk or an unlink survived. */
  lemma {:induction false} MissingIsPossible(dur: map<Entry, Ino>, log: seq<DirOp>, keep: seq<bool>, e: Entry)
    requires |keep| == |log|
    requires forall j :: 0 <= j < |log| ==> log[j].Move? ==> log[j].src != e
    requires e in dur && e !in Kept(dur, log, keep)
    ensures Unlink(e) in log
    decreases |log|
  {
    if log != [] {
      var n := |log| - 1;
      if e !in Kept(dur, log[..n], keep[..n]) {
        MissingIsPossible(dur, log[..n], keep[..n], e);
      } else {
        assert log[n] == Unlink(e);
      }
    }
  }

  /** After a crash every key reads as one of the values it might, and that is then settled. */
  lemma CrashIsPossible(f: Folder, keep: seq<bool>, torn: map<Ino, Bytes>)
    requires Valid(f) && |keep| == |f.log|
    ensures var f' := Crash(f, keep, torn);
      && Valid(f')
      && (forall name :: MayRead(f, name, Visible(f', name)))
      && (forall name, v :: MayRead(f', name, v) <==> v == Visible(f', name))
  {
    var f' := Crash(f, keep, torn);
    var m := f'.vol;
    assert f.log[..|f.log|] == f.log;
    KeptIsPossible(f.dur, f.log, |f.log|, keep);
    assert forall e, i :: MayLink(f', e, i) <==> e in m && m[e] == i;
    assert forall e :: e in m ==> MayLink(f, e, m[e]);
    forall name ensures MayRead(f, name, Visible(f', name)) {
      if KeyName(name) in m {
        assert MayLink(f, KeyName(name), m[KeyName(name)]);
      } else if KeyName(name) in f.dur {
        MissingIsPossible(f.dur, f.log, keep, KeyName(name));
      }
    }
    forall name, v ensures MayRead(f', name, v) <==> v == Visible(f', name) {
      if KeyName(name) in m {
        assert MayLink(f', KeyName(name), m[KeyName(name)]);
      }
    }
  }

  /** Keeping no change but the j-th. */
  function Only(n: nat, j: int): (keep: seq<bool>)
    ensures |keep| == n
  {
    seq(n, i => i == j)
  }

  lemma {:induction false} KeptOnly(dur: map<Entry, Ino>, log: seq<DirOp>, j: int)
    requires -1 <= j < |log|
    ensures Kept(dur, log, Only(|log|, j)) == if j < 0 then dur else DoOp(dur, log[j])
    decreases |log|
  {
    if log != [] {
      var n := |log| - 1;
      if j < n {
        assert Only(|log|, j)[..n] == Only(n, j);
        KeptOnly(dur, log[..n], j);
      } else {
        assert Only(|log|, j)[..n] == Only(n, -1);
        KeptOnly(dur, log[..n], -1);
      }
    }
  }

  /** `MayRead` is exact: some crash really does leave each value it allows. */
  lemma EveryPossibilityHappens(f: Folder, name: string, v: Option<Bytes>)
    requires Valid(f)
    ensures MayRead(f, name, v) <==>
      exists keep :: |keep| == |f.log| && Visible(Crash(f, keep, map[]), name) == v
  {
    if MayRead(f, name, v) {
      var j := -1;
      if v == None {
        if KeyName(name) in f.dur {
          j :| 0 <= j < |f.log| && f.log[j] == Unlink(KeyName(name));
        }
      } else {
        var i :| MayLink(f, KeyName(name), i) && i in f.files && f.files[i].bytes == v.value;
        if !(KeyName(name) in f.dur && f.dur[KeyName(name)] == i) {
          j :| 0 <= j < |f.log| && Links(f.log[j], KeyName(name), i);
        }
      }
      KeptOnly(f.dur, f.log, j);
      assert Visible(Crash(f, Only(|f.log|, j), map[]), name) == v;
    }
    forall keep: seq<bool> | |keep| == |f.log| && Visible(Crash(f, keep, map[]), name) == v
      ensures MayRead(f, name, v)
    {
      CrashIsPossible(f, keep, map[]);
    }
  }

  /** A rename whose directory sync failed, or has not come yet: a crash may undo it or not. */
  lemma UnsyncedRenameGoesEitherWay(f: Folder, t: Entry, name: string, v: Option<Bytes>)
    requires Valid(f) && t in f.vol && t.TempName? && f.files[f.vol[t]].synced
    ensures var f' := Rename(f, t, KeyName(name)); var b := f.files[f.vol[t]].bytes;
      (MayRead(f, name, v) || v == Some(b)) <==>
        exists keep :: |keep| == |f'.log| && Visible(Crash(f', keep, map[]), name) == v
  {
    RenameInstalls(f, t, name);
    EveryPossibilityHappens(Rename(f, t, KeyName(name)), name, v);
  }

  /** Why the file is synced before the rename: bytes that are not can come back as any others, at
      the key itself. */
  lemma UnsyncedFileTears(f: Folder, t: Entry, chunk: Bytes, name: string, b: Bytes)
    requires Valid(f) && t in f.vol && t.TempName? && f.vol[t] in f.files
    ensures var f' := Rename(Append(f, f.vol[t], chunk), t, KeyName(name));
      exists keep, torn :: |keep| == |f'.log| && Visible(Crash(f', keep, torn), name) == Some(b)
  {
    var f' := Rename(Append(f, f.vol[t], chunk), t, KeyName(name));
    var keep, torn := Only(|f'.log|, |f.log|), map[f.vol[t] := b];
    KeptOnly(f'.dur, f'.log, |f.log|);
    assert Visible(Crash(f', keep, torn), name) == Some(b);
  }

  /** With it synced, and the directory after the rename, they come back as they were written. */
  lemma SyncedFileIsWhole(f: Folder, t: Entry, chunk: Bytes, name: string, keep: seq<bool>, torn: map<Ino, Bytes>)
    requires Valid(f) && t in f.vol && t.TempName? && f.vol[t] in f.files
    requires |keep| == |SyncDir(Rename(SyncFile(Append(f, f.vol[t], chunk), f.vol[t]), t, KeyName(name))).log|
    ensures var f' := SyncDir(Rename(SyncFile(Append(f, f.vol[t], chunk), f.vol[t]), t, KeyName(name)));
      Visible(Crash(f', keep, torn), name) == Some(f.files[f.vol[t]].bytes + chunk)
  {
  }

  /** A key removed lazily can come back: with any value it could have had after a crash before. */
  lemma LazyRemovalCanComeBack(f: Folder, name: string, v: Option<Bytes>)
    requires Valid(f)
    ensures var f' := Remove(f, KeyName(name));
      (MayRead(f, name, v) || v == None) <==>
        exists keep :: |keep| == |f'.log| && Visible(Crash(f', keep, map[]), name) == v
  {
    RemoveDeletes(f, name);
    EveryPossibilityHappens(Remove(f, KeyName(name)), name, v);
  }
}
