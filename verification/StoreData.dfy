/**
  What each point of each call knows of the files: which temporary file a write owns and how
  much of it is written, which inode a read has open, what a scan has seen.
*/
module StoreData {
  import opened Names
  import opened KvSpec
  import opened StoreMachine
  import opened StoreLocks
  import D = Directory

  /** The number of the temporary file a call is using. */
  function NumberAt(at: Point): D.Option<nat> {
    match at
    case Named(n) => D.Some(n)
    case Filling(n, _, _) => D.Some(n)
    case NeedLock(tmp) => tmp
    case Held(_, Waiting(tmp)) => tmp
    case Held(_, Locked(tmp)) => tmp
    case _ => D.None
  }

  function NumberOf(th: Thread): D.Option<nat> {
    if th.Busy? then NumberAt(th.at) else D.None
  }

  /** Every write has drawn a number of its own. */
  ghost predicate NumbersOk(s: State) {
    && (forall t :: t in s.threads && NumberOf(s.threads[t]).Some? ==> NumberOf(s.threads[t]).value < s.tmpCounter)
    && (forall t, u :: t in s.threads && u in s.threads && t != u && NumberOf(s.threads[t]).Some?
          ==> NumberOf(s.threads[u]) != NumberOf(s.threads[t]))
  }

  /** The temporary file of a write is complete and synced; other calls have none. */
  ghost predicate Ready(f: D.Folder, op: Op, tmp: D.Option<nat>) {
    if op.Write? then
      && tmp.Some? && D.TempName(op.key.name, tmp.value) in f.vol
      && f.vol[D.TempName(op.key.name, tmp.value)] in f.files
      && f.files[f.vol[D.TempName(op.key.name, tmp.value)]] == D.File(op.buf, true)
    else tmp.None?
  }

  ghost predicate SnapOk(f: D.Folder, snap: map<D.Entry, D.Ino>) {
    forall name :: D.KeyName(name) in snap ==>
      && snap[D.KeyName(name)] < f.next
      && forall t :: t in f.vol && t.TempName? ==> f.vol[t] != snap[D.KeyName(name)]
  }

  ghost predicate FoundOk(seen: set<D.Entry>, found: seq<string>) {
    Distinct(found) && forall name :: D.KeyName(name) in seen <==> name in found
  }

  ghost predicate StageOk(f: D.Folder, op: Op, stage: Stage) {
    match stage
    case Waiting(tmp) => Ready(f, op, tmp)
    case Locked(tmp) => Ready(f, op, tmp)
    case Reading(ino, got) =>
      && op.Read? && D.KeyName(op.key.name) in f.vol && f.vol[D.KeyName(op.key.name)] == ino
      && ino in f.files && got <= f.files[ino].bytes
    case Changed => (op.Write? || op.Remove?) && D.Visible(f, op.key.name) == Effect(op)
    case _ => true
  }

  ghost predicate PointOk(f: D.Folder, op: Op, at: Point) {
    match at
    case Start => !op.Read?
    case DirMade => op.Write?
    case Named(_) => op.Write?
    case Filling(n, ino, pos) =>
      && op.Write? && D.TempName(op.key.name, n) in f.vol && f.vol[D.TempName(op.key.name, n)] == ino
      && ino in f.files && pos <= |op.buf| && f.files[ino].bytes == op.buf[..pos]
    case NeedLock(tmp) => !op.List? && Ready(f, op, tmp)
    case Held(_, stage) => !op.List? && StageOk(f, op, stage)
    case Scanning(snap, seen, found) => op.List? && SnapOk(f, snap) && FoundOk(seen, found)
    case Examining(snap, seen, found, e) => op.List? && SnapOk(f, snap) && FoundOk(seen, found) && e !in seen
    case _ => true
  }

  ghost predicate ThreadOk(s: State, t: Tid)
    requires t in s.threads
  {
    var th := s.threads[t];
    th.Busy? ==>
      && PointOk(Home(s, th.op), th.op, th.at)
      && (th.at.Returning? || Check(s.rules, th.op).Fine?)
  }

  ghost predicate FolderOk(r: Rules, f: D.Folder) {
    D.Valid(f) && KeysNamed(r, f)
  }

  ghost predicate FoldersOk(s: State) {
    forall d :: d in s.folders ==> FolderOk(s.rules, s.folders[d])
  }

  ghost predicate Inv(s: State) {
    && LocksOk(s)
    && FoldersOk(s)
    && NumbersOk(s)
    && (forall t :: t in s.threads ==> ThreadOk(s, t))
  }

  lemma HomeOk(s: State, op: Op)
    requires FoldersOk(s)
    ensures FolderOk(s.rules, Home(s, op))
  {
    D.EmptyValid();
  }

  lemma InitInv(s: State)
    requires Init(s)
    ensures Inv(s)
  {
  }

  // ---------- numbers ----------

  /** A call keeps its number, gives it up, or draws the next one. */
  ghost predicate NumbersMove(s: State, t: Tid, s': State) {
    && t in s.threads && t in s'.threads && s'.threads == s.threads[t := s'.threads[t]]
    && s.tmpCounter <= s'.tmpCounter
    && (|| NumberOf(s'.threads[t]).None?
        || NumberOf(s'.threads[t]) == NumberOf(s.threads[t])
        || (NumberOf(s'.threads[t]) == D.Some(s.tmpCounter) && s'.tmpCounter == s.tmpCounter + 1))
  }

  lemma NumbersKept(s: State, t: Tid, s': State)
    requires NumbersOk(s) && NumbersMove(s, t, s')
    ensures NumbersOk(s')
  {
  }

  // ---------- what other threads know stays true ----------

  ghost predicate NeedsKey(at: Point) {
    at.Held? && (at.stage.Reading? || at.stage.Changed?)
  }

  lemma PointFrame(f: D.Folder, f': D.Folder, op: Op, at: Point)
    requires D.Valid(f) && PointOk(f, op, at) && D.NewTempsOnly(f, f')
    requires NumberAt(at).Some? && !op.List? ==> D.SameAt(f, f', D.TempName(op.key.name, NumberAt(at).value))
    requires NeedsKey(at) && !op.List? ==> D.SameAt(f, f', D.KeyName(op.key.name))
    ensures PointOk(f', op, at)
  {
    if NeedsKey(at) && D.KeyName(op.key.name) in f.vol {
      assert D.MayLink(f, D.KeyName(op.key.name), f.vol[D.KeyName(op.key.name)]);
    }
  }

  /** What other threads know is not disturbed when one directory changes. */
  ghost predicate Undisturbed(s: State, t: Tid, d: Dir, f': D.Folder)
  {
    forall u :: u in s.threads && u != t && s.threads[u].Busy? ==>
      !s.threads[u].op.List? && s.threads[u].op.key.dir == d ==>
      && (NumberOf(s.threads[u]).Some? ==>
            D.SameAt(FolderAt(s, d), f', D.TempName(s.threads[u].op.key.name, NumberOf(s.threads[u]).value)))
      && (NeedsKey(s.threads[u].at) ==> D.SameAt(FolderAt(s, d), f', D.KeyName(s.threads[u].op.key.name)))
  }

  lemma OthersKept(s: State, t: Tid, d: Dir, f': D.Folder, s': State, u: Tid)
    requires FoldersOk(s) && u in s.threads && u != t && ThreadOk(s, u)
    requires Undisturbed(s, t, d, f') && D.NewTempsOnly(FolderAt(s, d), f')
    requires s'.rules == s.rules && s'.folders == s.folders[d := f'] && u in s'.threads && s'.threads[u] == s.threads[u]
    ensures ThreadOk(s', u)
  {
    if s.threads[u].Busy? {
      var op := s.threads[u].op;
      HomeOk(s, op);
      if (if op.List? then op.dir else op.key.dir) == d {
        PointFrame(FolderAt(s, d), f', op, s.threads[u].at);
      }
    }
  }

  // ---------- each action keeps what its own thread knows, and the files sound ----------

  /** An action that works in directory `d`: its own thread and the directory are in order after. */
  ghost predicate LeavesOk(s: State, t: Tid, d: Dir, s': State) {
    && NumbersMove(s, t, s')
    && s'.rules == s.rules
    && s'.folders == s.folders[d := FolderAt(s', d)]
    && FolderOk(s.rules, FolderAt(s', d))
    && D.NewTempsOnly(FolderAt(s, d), FolderAt(s', d))
    && Undisturbed(s, t, d, FolderAt(s', d))
    && ThreadOk(s', t)
  }

  /** An action that changes no directory. */
  ghost predicate QuietOk(s: State, t: Tid, s': State) {
    && NumbersMove(s, t, s')
    && s'.rules == s.rules
    && s'.folders == s.folders
    && ThreadOk(s', t)
  }

  lemma LeavesOkKeeps(s: State, t: Tid, d: Dir, s': State)
    requires Inv(s) && LeavesOk(s, t, d, s') && LocksOk(s')
    ensures Inv(s')
  {
    NumbersKept(s, t, s');
    forall u | u in s'.threads ensures ThreadOk(s', u) {
      if u != t {
        OthersKept(s, t, d, FolderAt(s', d), s', u);
      }
    }
  }

  lemma QuietOkKeeps(s: State, t: Tid, s': State)
    requires Inv(s) && QuietOk(s, t, s') && LocksOk(s')
    ensures Inv(s')
  {
    NumbersKept(s, t, s');
    forall u | u in s'.threads ensures ThreadOk(s', u) {
      if u != t {
        assert ThreadOk(s, u);
      }
    }
  }

  ghost predicate At(s: State, t: Tid, op: Op, at: Point) {
    && t in s.threads && s.threads[t] == Busy(op, at) && ThreadOk(s, t) && FoldersOk(s) && NumbersOk(s)
  }

  lemma MakeDirOk(s: State, t: Tid, op: Op, at: Point)
    requires At(s, t, op, at) && CanWrite(s, op, at, MakeDir)
    ensures LeavesOk(s, t, op.key.dir, DoWrite(s, t, op, at, MakeDir))
    ensures var f, f' := FolderAt(s, op.key.dir), FolderAt(DoWrite(s, t, op, at, MakeDir), op.key.dir);
      D.SameKeys(f, f') && D.SameKeyEntries(f, f')
  {
    HomeOk(s, op);
  }

  lemma CreateTempOk(s: State, t: Tid, op: Op, at: Point)
    requires At(s, t, op, at) && CanWrite(s, op, at, CreateTemp)
    ensures LeavesOk(s, t, op.key.dir, DoWrite(s, t, op, at, CreateTemp))
    ensures var f, f' := FolderAt(s, op.key.dir), FolderAt(DoWrite(s, t, op, at, CreateTemp), op.key.dir);
      D.SameKeys(f, f') && D.SameKeyEntries(f, f')
  {
    hide D.Valid;
    var f, e := Home(s, op), D.TempName(op.key.name, at.n);
    HomeOk(s, op);
    D.CreateKeeps(f, e);
    D.CreateLeaves(f, e);
  }

  lemma SameKeysNamed(r: Rules, f: D.Folder, f': D.Folder)
    requires KeysNamed(r, f) && D.SameKeys(f, f')
    ensures KeysNamed(r, f')
  {
    hide D.MayRead;
  }

  lemma FillPoint(s: State, t: Tid, op: Op, at: Point, w: WriteAction)
    requires At(s, t, op, at) && CanWrite(s, op, at, w) && (w.Put? || w.SyncTemp?)
    ensures ThreadOk(DoWrite(s, t, op, at, w), t)
    ensures NumbersMove(s, t, DoWrite(s, t, op, at, w))
  {
    hide NumbersOk;
    hide FoldersOk;
    assert w.Put? ==> op.buf[..at.pos] + op.buf[at.pos..at.pos + w.len] == op.buf[..at.pos + w.len];
  }

  lemma FillOk(s: State, t: Tid, op: Op, at: Point, w: WriteAction)
    requires At(s, t, op, at) && CanWrite(s, op, at, w) && (w.Put? || w.SyncTemp?)
    ensures LeavesOk(s, t, op.key.dir, DoWrite(s, t, op, at, w))
    ensures var f, f' := FolderAt(s, op.key.dir), FolderAt(DoWrite(s, t, op, at, w), op.key.dir);
      D.SameKeys(f, f') && D.SameKeyEntries(f, f')
  {
    hide NumbersMove;
    var f, e := Home(s, op), D.TempName(op.key.name, at.n);
    HomeOk(s, op);
    FillPoint(s, t, op, at, w);
    assert f.vol[e] == at.ino;
    var file := FolderAt(DoWrite(s, t, op, at, w), op.key.dir).files[at.ino];
    D.TempBytesChange(f, e, file);
    D.WriteLeaves(f, e, file);
    SameKeysNamed(s.rules, f, FolderAt(DoWrite(s, t, op, at, w), op.key.dir));
    hide ThreadOk;
    hide D.Valid;
    hide KeysNamed;
    hide D.MayRead;
    hide D.Visible;
  }

  /** No other thread relies on the key file of `k`. */
  ghost predicate Alone(s: State, t: Tid, k: Key) {
    forall u :: u in s.threads && u != t && s.threads[u].Busy? && !s.threads[u].op.List? && NeedsKey(s.threads[u].at)
      ==> s.threads[u].op.key != k
  }

  /** The thread inside a path's lock to change it is alone with its key file. */
  lemma WriterIsAlone(s: State, t: Tid, op: Op, at: Point)
    requires LocksOk(s) && t in s.threads && s.threads[t] == Busy(op, at)
    requires (op.Write? || op.Remove?) && at.Held? && !at.stage.Waiting? && !at.stage.Dropping?
    ensures Alone(s, t, op.key)
  {
    forall u | u in s.threads && u != t && s.threads[u].Busy? && !s.threads[u].op.List? && NeedsKey(s.threads[u].at)
      ensures s.threads[u].op.key != op.key
    {
      if s.threads[u].op.key == op.key {
        Exclusion(s, t, u);
      }
    }
  }

  lemma InstallOk(s: State, t: Tid, op: Op, at: Point)
    requires At(s, t, op, at) && CanWrite(s, op, at, Install) && Alone(s, t, op.key)
    ensures LeavesOk(s, t, op.key.dir, DoWrite(s, t, op, at, Install))
    ensures var f, f' := FolderAt(s, op.key.dir), FolderAt(DoWrite(s, t, op, at, Install), op.key.dir);
      && D.Visible(f', op.key.name) == D.Some(op.buf)
      && (forall x :: x != op.key.name ==> D.Visible(f', x) == D.Visible(f, x))
      && (forall x, v :: D.MayRead(f', x, v) <==> D.MayRead(f, x, v) || (x == op.key.name && v == D.Some(op.buf)))
  {
    hide D.Valid;
    var f, e := Home(s, op), D.TempName(op.key.name, at.stage.tmp.value);
    HomeOk(s, op);
    D.RenameInstalls(f, e, op.key.name);
    D.RenameLeaves(f, e, op.key.name);
  }

  lemma DeleteOk(s: State, t: Tid, op: Op, at: Point)
    requires At(s, t, op, at) && CanRemove(op, at, Delete) && Alone(s, t, op.key)
    requires D.KeyName(op.key.name) in Home(s, op).vol
    ensures LeavesOk(s, t, op.key.dir, DoRemove(s, t, op, at, Delete))
    ensures var f, f' := FolderAt(s, op.key.dir), FolderAt(DoRemove(s, t, op, at, Delete), op.key.dir);
      && D.Visible(f', op.key.name) == D.None
      && (forall x :: x != op.key.name ==> D.Visible(f', x) == D.Visible(f, x))
      && (forall x, v :: D.MayRead(f', x, v) <==> D.MayRead(f, x, v) || (x == op.key.name && v == D.None))
  {
    hide D.Valid;
    HomeOk(s, op);
    D.RemoveDeletes(Home(s, op), op.key.name);
    D.RemoveLeaves(Home(s, op), op.key.name);
  }

  lemma SyncOk(s: State, t: Tid, op: Op, at: Point)
    requires At(s, t, op, at) && CanFlush(op, at) && !(op.Remove? && op.lazy)
    ensures LeavesOk(s, t, op.key.dir, DoFlush(s, t, op, at))
    ensures var f, f' := FolderAt(s, op.key.dir), FolderAt(DoFlush(s, t, op, at), op.key.dir);
      && (forall x :: D.Visible(f', x) == D.Visible(f, x))
      && (forall x, v :: D.MayRead(f', x, v) <==> v == D.Visible(f, x))
  {
    hide D.Valid;
    var f := Home(s, op);
    HomeOk(s, op);
    D.SyncDirSettles(f);
    D.SyncDirLeaves(f);
    forall x | D.Visible(f, x).Some? ensures ValidStr(s.rules, x) {
      VisibleMayRead(f, x);
    }
  }

  lemma VisibleMayRead(f: D.Folder, name: string)
    requires D.Valid(f) && D.Visible(f, name).Some?
    ensures D.MayRead(f, name, D.Visible(f, name))
  {
    assert D.MayLink(f, D.KeyName(name), f.vol[D.KeyName(name)]);
  }

  // ---------- actions that change no directory ----------

  lemma DrawOk(s: State, t: Tid, op: Op, at: Point)
    requires At(s, t, op, at) && CanWrite(s, op, at, DrawNumber)
    ensures QuietOk(s, t, DoWrite(s, t, op, at, DrawNumber))
  {
  }

  lemma LinkedHasFile(f: D.Folder, e: D.Entry)
    requires D.Valid(f)
    ensures e in f.vol ==> f.vol[e] in f.files
  {
    if e in f.vol {
      assert D.MayLink(f, e, f.vol[e]);
    }
  }

  lemma ReadOk(s: State, t: Tid, op: Op, at: Point, r: ReadAction)
    requires At(s, t, op, at) && CanRead(s, op, at, r)
    ensures QuietOk(s, t, DoRead(s, t, op, at, r))
  {
    hide NumbersOk;
    hide FoldersOk;
    HomeOk(s, op);
    hide D.Valid;
    if r.Open? {
      LinkedHasFile(Home(s, op), D.KeyName(op.key.name));
    }
  }

  lemma RemoveQuietOk(s: State, t: Tid, op: Op, at: Point, m: RemoveAction)
    requires At(s, t, op, at) && CanRemove(op, at, m)
    requires !m.Delete? || D.KeyName(op.key.name) !in Home(s, op).vol
    ensures QuietOk(s, t, DoRemove(s, t, op, at, m))
  {
  }

  lemma ExamineOk(s: State, t: Tid, op: Op, at: Point)
    requires At(s, t, op, at) && CanList(s, op, at, Examine)
    ensures QuietOk(s, t, DoList(s, t, op, at, Examine))
  {
    hide FoldersOk;
    hide NumbersOk;
    hide SnapOk;
  }

  lemma ListOk(s: State, t: Tid, op: Op, at: Point, l: ListAction)
    requires At(s, t, op, at) && CanList(s, op, at, l)
    ensures QuietOk(s, t, DoList(s, t, op, at, l))
  {
    hide FoldersOk;
    hide NumbersOk;
    match l {
      case OpenDir =>
        HomeOk(s, op);
        if op.dir in s.folders { SnapshotOk(Home(s, op)); }
      case Examine => ExamineOk(s, t, op, at);
      case _ => hide SnapOk; hide FoundOk;
    }
  }

  lemma SnapshotOk(f: D.Folder)
    requires D.Valid(f)
    ensures SnapOk(f, f.vol)
  {
    forall name | D.KeyName(name) in f.vol
      ensures f.vol[D.KeyName(name)] < f.next
      ensures forall t :: t in f.vol && t.TempName? ==> f.vol[t] != f.vol[D.KeyName(name)]
    {
      assert D.MayLink(f, D.KeyName(name), f.vol[D.KeyName(name)]);
    }
  }

  lemma LockOk(s: State, t: Tid, op: Op, at: Point, k: LockAction)
    requires At(s, t, op, at) && CanLock(s, op, at, k)
    ensures QuietOk(s, t, DoLock(s, t, op, at, k))
  {
    hide FoldersOk;
    hide NumbersOk;
    hide Ready;
  }

  lemma SweepOk(s: State, t: Tid, op: Op, at: Point, g: SweepAction)
    requires At(s, t, op, at) && CanSweep(s, at, g)
    ensures QuietOk(s, t, DoSweep(s, t, op, at, g))
  {
    hide FoldersOk;
    hide NumbersOk;
  }

  lemma CallOk(s: State, t: Tid, op: Op)
    requires t in s.threads && s.threads[t].Idle?
    ensures QuietOk(s, t, Enter(s, t, op))
  {
  }

  lemma FailOk(s: State, t: Tid, op: Op, at: Point)
    requires At(s, t, op, at) && DoesIo(op, at)
    ensures QuietOk(s, t, To(s, t, op, Finish(at, Err(Io))))
  {
  }

  lemma LeaveOk(s: State, t: Tid, op: Op, at: Point)
    requires At(s, t, op, at)
    ensures QuietOk(s, t, s.(threads := s.threads[t := Idle]))
  {
  }

  lemma LazyFlushOk(s: State, t: Tid, op: Op, at: Point)
    requires At(s, t, op, at) && CanFlush(op, at) && op.Remove? && op.lazy
    ensures QuietOk(s, t, DoFlush(s, t, op, at))
  {
  }

  lemma WriteInv(s: State, t: Tid, op: Op, at: Point, w: WriteAction)
    requires Inv(s) && t in s.threads && s.threads[t] == Busy(op, at) && CanWrite(s, op, at, w)
    requires LocksOk(DoWrite(s, t, op, at, w))
    ensures Inv(DoWrite(s, t, op, at, w)) && DoWrite(s, t, op, at, w).rules == s.rules
  {
    var s' := DoWrite(s, t, op, at, w);
    assert ThreadOk(s, t);
    match w {
      case MakeDir => MakeDirOk(s, t, op, at);
      case DrawNumber => DrawOk(s, t, op, at);
      case CreateTemp => CreateTempOk(s, t, op, at);
      case Install => WriterIsAlone(s, t, op, at); InstallOk(s, t, op, at);
      case _ => FillOk(s, t, op, at, w);
    }
    if w.DrawNumber? { QuietOkKeeps(s, t, s'); } else { LeavesOkKeeps(s, t, op.key.dir, s'); }
  }

  lemma RemoveInv(s: State, t: Tid, op: Op, at: Point, m: RemoveAction)
    requires Inv(s) && t in s.threads && s.threads[t] == Busy(op, at) && CanRemove(op, at, m)
    requires LocksOk(DoRemove(s, t, op, at, m))
    ensures Inv(DoRemove(s, t, op, at, m)) && DoRemove(s, t, op, at, m).rules == s.rules
  {
    var s' := DoRemove(s, t, op, at, m);
    assert ThreadOk(s, t);
    if m.Delete? && D.KeyName(op.key.name) in Home(s, op).vol {
      WriterIsAlone(s, t, op, at);
      DeleteOk(s, t, op, at);
      LeavesOkKeeps(s, t, op.key.dir, s');
    } else {
      RemoveQuietOk(s, t, op, at, m);
      QuietOkKeeps(s, t, s');
    }
  }

  lemma FlushInv(s: State, t: Tid, op: Op, at: Point)
    requires Inv(s) && t in s.threads && s.threads[t] == Busy(op, at) && CanFlush(op, at)
    requires LocksOk(DoFlush(s, t, op, at))
    ensures Inv(DoFlush(s, t, op, at)) && DoFlush(s, t, op, at).rules == s.rules
  {
    assert ThreadOk(s, t);
    if op.Remove? && op.lazy {
      LazyFlushOk(s, t, op, at);
      QuietOkKeeps(s, t, DoFlush(s, t, op, at));
    } else {
      SyncOk(s, t, op, at);
      LeavesOkKeeps(s, t, op.key.dir, DoFlush(s, t, op, at));
    }
  }

  lemma QuietInv(s: State, t: Tid, a: Action)
    requires Inv(s) && Enabled(s, t, a) && !a.OfWrite? && !a.OfRemove? && !a.Flush?
    requires LocksOk(After(s, t, a))
    ensures Inv(After(s, t, a)) && After(s, t, a).rules == s.rules
  {
    assert ThreadOk(s, t);
    match a {
      case Call(op) => CallOk(s, t, op);
      case OfRead(r) => ReadOk(s, t, s.threads[t].op, s.threads[t].at, r);
      case OfList(l) => ListOk(s, t, s.threads[t].op, s.threads[t].at, l);
      case OfLock(k) => LockOk(s, t, s.threads[t].op, s.threads[t].at, k);
      case OfSweep(g) => SweepOk(s, t, s.threads[t].op, s.threads[t].at, g);
      case Fail => FailOk(s, t, s.threads[t].op, s.threads[t].at);
      case Leave => LeaveOk(s, t, s.threads[t].op, s.threads[t].at);
    }
    QuietOkKeeps(s, t, After(s, t, a));
  }

  /** Every action keeps the invariant. */
  lemma ActionInv(s: State, t: Tid, a: Action)
    requires Inv(s) && Enabled(s, t, a)
    ensures Inv(After(s, t, a)) && After(s, t, a).rules == s.rules
  {
    LocksKept(s, t, a);
    match a {
      case OfWrite(w) => WriteInv(s, t, s.threads[t].op, s.threads[t].at, w);
      case OfRemove(m) => RemoveInv(s, t, s.threads[t].op, s.threads[t].at, m);
      case Flush => FlushInv(s, t, s.threads[t].op, s.threads[t].at);
      case _ => QuietInv(s, t, a);
    }
  }

  lemma CrashSettles(s: State, s': State)
    requires Crashes(s, s')
    ensures LocksOk(s') && NumbersOk(s') && forall t :: t in s'.threads ==> ThreadOk(s', t)
  {
    hide CrashesTo;
  }

  /** So does a power loss: no key file is torn, and no file is both a key's and temporary. */
  lemma CrashInv(s: State, s': State)
    requires Inv(s) && Crashes(s, s')
    ensures Inv(s') && s'.rules == s.rules
  {
    hide LocksOk;
    hide NumbersOk;
    hide ThreadOk;
    hide FolderOk;
    hide CrashesTo;
    CrashSettles(s, s');
    forall d | d in s'.folders ensures FolderOk(s'.rules, s'.folders[d]) {
      CrashFolderOk(s.rules, s.folders[d], s'.folders[d]);
    }
  }

  lemma CrashFolderOk(r: Rules, f: D.Folder, f': D.Folder)
    requires FolderOk(r, f) && CrashesTo(f, f')
    ensures FolderOk(r, f')
    ensures forall name :: D.MayRead(f, name, D.Visible(f', name))
    ensures forall name, v :: D.MayRead(f', name, v) <==> v == D.Visible(f', name)
  {
    var keep: seq<bool>, torn :| |keep| == |f.log| && f' == D.Crash(f, keep, torn);
    D.CrashIsPossible(f, keep, torn);
  }

  lemma KillInv(s: State)
    requires Inv(s)
    ensures Inv(Killed(s))
  {
    hide FolderOk;
  }

  lemma StepInv(s: State, step: Step, s': State)
    requires Inv(s) && StepTo(s, step, s')
    ensures Inv(s') && s'.rules == s.rules
  {
    match step
    case Do(t, a) => ActionInv(s, t, a);
    case Kill => KillInv(s);
    case PowerLoss => CrashInv(s, s');
  }

  lemma {:induction false} ExecutionInv(run: seq<State>, steps: seq<Step>, n: nat)
    requires IsExecution(run, steps) && n <= |steps|
    ensures Inv(run[n])
  {
    if n == 0 {
      InitInv(run[0]);
    } else {
      ExecutionInv(run, steps, n - 1);
      assert StepTo(run[n-1], steps[n-1], run[n]);
      StepInv(run[n-1], steps[n-1], run[n]);
    }
  }
}
