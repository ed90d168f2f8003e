/**
  The concurrent store does what `KvSpec` promises: every action is one step of the
  specification or none, and so is a power loss.
*/
module StoreRefinement {
  import opened Names
  import opened KvSpec
  import opened StoreMachine
  import opened StoreLocks
  import opened StoreData
  import D = Directory

  // ---------- what a state of the store means ----------

  /** The names of a snapshot whose entries have not been touched since. */
  ghost function StableIn(f: D.Folder, snap: map<D.Entry, D.Ino>): iset<string> {
    iset name | StillThere(snap, f.vol, D.KeyName(name))
  }

  ghost function StatusOf(f: D.Folder, at: Point): Status {
    match at
    case Held(_, Changed) => Applied
    case Held(_, Unlocking(res)) => Finished(res)
    case Held(_, Dropping(res)) => Finished(res)
    case Scanning(snap, _, found) => Scan(found, StableIn(f, snap))
    case Examining(snap, _, found, _) => Scan(found, StableIn(f, snap))
    case Counting(res) => Finished(res)
    case WantSweep(res) => Finished(res)
    case Sweeping(res, _) => Finished(res)
    case Returning(res) => Finished(res)
    case _ => Pending
  }

  ghost function CallOf(s: State, th: Thread): KvSpec.Call {
    if th.Idle? then NoCall else KvSpec.Call.Call(th.op, StatusOf(Home(s, th.op), th.at))
  }

  ghost function VisibleAt(s: State, k: Key): D.Option<D.Bytes> {
    D.Visible(FolderAt(s, k.dir), k.name)
  }

  ghost predicate MayReadAt(s: State, k: Key, v: D.Option<D.Bytes>) {
    D.MayRead(FolderAt(s, k.dir), k.name, v)
  }

  ghost function KvOf(s: State): imap<Key, D.Bytes> {
    imap k: Key | VisibleAt(s, k).Some? :: VisibleAt(s, k).value
  }

  ghost function MayOf(s: State): iset<(Key, D.Option<D.Bytes>)> {
    iset k: Key, v: D.Option<D.Bytes> | MayReadAt(s, k, v) :: (k, v)
  }

  ghost function CallsOf(s: State): map<Tid, KvSpec.Call> {
    map t | t in s.threads :: CallOf(s, s.threads[t])
  }

  ghost function Abs(s: State): Spec {
    Spec(KvOf(s), MayOf(s), CallsOf(s))
  }

  /** The step of the specification an action takes: where a call takes effect is one action of it. */
  function EventOf(s: State, t: Tid, a: Action): Event
    requires Enabled(s, t, a)
  {
    if a.Call? then Invoke(t, a.op)
    else
      var op, at := s.threads[t].op, s.threads[t].at;
      match a
      case OfWrite(Install) => Apply(t)
      case OfRead(Open) => if D.KeyName(op.key.name) in Home(s, op).vol then Stutter else Answer(t, Err(NotFound))
      case OfRead(ReadEnd) => Answer(t, Got(at.stage.got))
      case OfRemove(CheckFile) => if D.KeyName(op.key.name) in Home(s, op).vol then Stutter else Answer(t, Done)
      case OfRemove(MissFile) => Overlook(t, Done)
      case OfRemove(Delete) => if D.KeyName(op.key.name) in Home(s, op).vol then Apply(t) else Answer(t, Err(NotFound))
      case Flush => if op.Remove? && op.lazy then Answer(t, Done) else Settle(t)
      case OfList(OpenDir) => if op.dir in s.folders then Event.Begin(t) else Answer(t, Keys([]))
      case OfList(MissDir) => Overlook(t, Keys([]))
      case OfList(Examine) =>
        if at.e.TempName? then Stutter
        else if at.e in Home(s, op).vol && ValidStr(s.rules, at.e.name) then Hit(t, at.e.name)
        else Answer(t, Err(Io))
      case OfList(EndScan) => Answer(t, Keys(at.found))
      case Fail => Answer(t, Err(Io))
      case Leave => Return(t)
      case _ => Stutter
  }

  function EventOfStep(s: State, step: Step, s': State): Event
    requires step.Do? ==> Enabled(s, step.t, step.a)
  {
    match step
    case Do(t, a) => EventOf(s, t, a)
    case Kill => Event.Restart
    case PowerLoss => Event.Crash
  }

  // ---------- actions that change no key ----------

  lemma SameMaps(s: State, s': State)
    requires forall k :: VisibleAt(s', k) == VisibleAt(s, k)
    requires forall k, v :: MayReadAt(s', k, v) <==> MayReadAt(s, k, v)
    ensures KvOf(s') == KvOf(s) && MayOf(s') == MayOf(s)
  {
    hide VisibleAt;
    hide MayReadAt;
  }

  lemma SameOtherCalls(s: State, t: Tid, s': State)
    requires t in s.threads && t in s'.threads && s'.threads == s.threads[t := s'.threads[t]]
    requires forall u :: u in s.threads && u != t ==> CallOf(s', s.threads[u]) == CallOf(s, s.threads[u])
    ensures CallsOf(s') == CallsOf(s)[t := CallOf(s', s'.threads[t])]
  {
    hide CallOf;
  }

  lemma QuietAbs(s: State, t: Tid, s': State)
    requires s'.folders == s.folders
    requires t in s.threads && t in s'.threads && s'.threads == s.threads[t := s'.threads[t]]
    ensures Abs(s') == Abs(s).(calls := Abs(s).calls[t := CallOf(s', s'.threads[t])])
  {
    hide D.Visible;
    hide D.MayRead;
    forall d ensures FolderAt(s', d) == FolderAt(s, d) {
    }
    SameMaps(s, s');
    SameOtherCalls(s, t, s');
  }

  lemma SameStatus(f: D.Folder, f': D.Folder, at: Point)
    requires D.SameKeyEntries(f, f')
    ensures StatusOf(f', at) == StatusOf(f, at)
  {
    forall snap ensures StableIn(f', snap) == StableIn(f, snap) {
      forall name ensures StillThere(snap, f'.vol, D.KeyName(name)) == StillThere(snap, f.vol, D.KeyName(name)) {
        assert D.SameAt(f, f', D.KeyName(name));
      }
    }
  }

  lemma SameKeysAbs(s: State, t: Tid, d: Dir, s': State)
    requires t in s.threads && s'.folders == s.folders[d := FolderAt(s', d)]
    requires t in s'.threads && s'.threads == s.threads[t := s'.threads[t]]
    requires D.SameKeys(FolderAt(s, d), FolderAt(s', d)) && D.SameKeyEntries(FolderAt(s, d), FolderAt(s', d))
    ensures Abs(s') == Abs(s).(calls := Abs(s).calls[t := CallOf(s', s'.threads[t])])
  {
    SameReads(s, d, s');
    SameMaps(s, s');
    forall u | u in s.threads && u != t ensures CallOf(s', s.threads[u]) == CallOf(s, s.threads[u]) {
      if s.threads[u].Busy? {
        SameHomeStatus(s, d, s', s.threads[u].op, s.threads[u].at);
      }
    }
    SameOtherCalls(s, t, s');
  }

  lemma SameHomeStatus(s: State, d: Dir, s': State, op: Op, at: Point)
    requires s'.folders == s.folders[d := FolderAt(s', d)] && D.SameKeyEntries(FolderAt(s, d), FolderAt(s', d))
    ensures StatusOf(Home(s', op), at) == StatusOf(Home(s, op), at)
  {
    if (if op.List? then op.dir else op.key.dir) == d {
      SameStatus(FolderAt(s, d), FolderAt(s', d), at);
    }
  }

  lemma SameReads(s: State, d: Dir, s': State)
    requires s'.folders == s.folders[d := FolderAt(s', d)]
    requires D.SameKeys(FolderAt(s, d), FolderAt(s', d))
    ensures forall k :: VisibleAt(s', k) == VisibleAt(s, k)
    ensures forall k, v :: MayReadAt(s', k, v) <==> MayReadAt(s, k, v)
  {
    hide D.Visible;
    hide D.MayRead;
    forall k ensures VisibleAt(s', k) == VisibleAt(s, k) {
      assert k.dir != d ==> FolderAt(s', k.dir) == FolderAt(s, k.dir);
    }
    forall k, v ensures MayReadAt(s', k, v) <==> MayReadAt(s, k, v) {
      assert k.dir != d ==> FolderAt(s', k.dir) == FolderAt(s, k.dir);
    }
  }

  // ---------- the action that changes a key ----------

  /** One key of one directory has changed, to `v`. */
  ghost predicate OneKeyChanged(f: D.Folder, f': D.Folder, name: string, v: D.Option<D.Bytes>) {
    && D.Visible(f', name) == v
    && (forall x :: x != name ==> D.Visible(f', x) == D.Visible(f, x))
    && (forall x, w :: D.MayRead(f', x, w) <==> D.MayRead(f, x, w) || (x == name && w == v))
    && (forall x :: x != name ==> D.SameAt(f, f', D.KeyName(x)))
  }

  /** The entry of the changed key is not one any scan began with. */
  ghost predicate NewEntry(s: State, k: Key, f': D.Folder) {
    forall u :: u in s.threads && s.threads[u].Busy? && s.threads[u].op == List(k.dir) ==>
      (s.threads[u].at.Scanning? || s.threads[u].at.Examining?) ==>
        !StillThere(s.threads[u].at.snap, f'.vol, D.KeyName(k.name))
  }

  lemma ChangedReads(s: State, k: Key, v: D.Option<D.Bytes>, s': State)
    requires s'.folders == s.folders[k.dir := FolderAt(s', k.dir)]
    requires OneKeyChanged(FolderAt(s, k.dir), FolderAt(s', k.dir), k.name, v)
    ensures VisibleAt(s', k) == v
    ensures forall l :: l != k ==> VisibleAt(s', l) == VisibleAt(s, l)
    ensures forall l, w :: MayReadAt(s', l, w) <==> MayReadAt(s, l, w) || (l == k && w == v)
  {
    hide D.Visible;
    hide D.MayRead;
    forall l | l != k ensures VisibleAt(s', l) == VisibleAt(s, l) {
      assert l.dir == k.dir ==> l.name != k.name;
    }
    forall l, w ensures MayReadAt(s', l, w) <==> MayReadAt(s, l, w) || (l == k && w == v) {
      assert l.dir != k.dir ==> FolderAt(s', l.dir) == FolderAt(s, l.dir);
    }
  }

  lemma DisturbedStatus(f: D.Folder, f': D.Folder, name: string, at: Point)
    requires forall x :: x != name ==> D.SameAt(f, f', D.KeyName(x))
    requires at.Scanning? || at.Examining? ==> !StillThere(at.snap, f'.vol, D.KeyName(name))
    ensures at.Scanning? || at.Examining? ==>
      StatusOf(f', at) == Scan(at.found, StableIn(f, at.snap) - iset{name})
    ensures !at.Scanning? && !at.Examining? ==> StatusOf(f', at) == StatusOf(f, at)
  {
    if at.Scanning? || at.Examining? {
      forall x ensures x in StableIn(f', at.snap) <==> x in StableIn(f, at.snap) - iset{name} {
        assert x != name ==> D.SameAt(f, f', D.KeyName(x));
      }
    }
  }

  lemma ChangedCalls(s: State, t: Tid, k: Key, v: D.Option<D.Bytes>, s': State, u: Tid)
    requires s'.folders == s.folders[k.dir := FolderAt(s', k.dir)]
    requires u in s.threads && u != t && u in s'.threads && s'.threads[u] == s.threads[u] && ThreadOk(s, u)
    requires OneKeyChanged(FolderAt(s, k.dir), FolderAt(s', k.dir), k.name, v) && NewEntry(s, k, FolderAt(s', k.dir))
    ensures CallOf(s', s'.threads[u]) == Disturb(CallsOf(s), k)[u]
  {
    hide D.Visible;
    hide D.MayRead;
    var th := s.threads[u];
    if th.Busy? {
      assert PointOk(Home(s, th.op), th.op, th.at);
      if th.op.List? && th.op.dir == k.dir {
        assert th.op == List(k.dir);
        DisturbedStatus(FolderAt(s, k.dir), FolderAt(s', k.dir), k.name, th.at);
      } else if !th.op.List? && th.op.key.dir == k.dir {
        StatusOfNoScan(FolderAt(s, k.dir), FolderAt(s', k.dir), th.at);
      }
    }
  }

  lemma StatusOfNoScan(f: D.Folder, f': D.Folder, at: Point)
    requires !at.Scanning? && !at.Examining?
    ensures StatusOf(f', at) == StatusOf(f, at)
  {
  }

  lemma ChangedAbs(s: State, t: Tid, k: Key, v: D.Option<D.Bytes>, s': State)
    requires t in s.threads && s'.folders == s.folders[k.dir := FolderAt(s', k.dir)]
    requires t in s'.threads && s'.threads == s.threads[t := s'.threads[t]]
    requires forall u :: u in s.threads ==> ThreadOk(s, u)
    requires OneKeyChanged(FolderAt(s, k.dir), FolderAt(s', k.dir), k.name, v) && NewEntry(s, k, FolderAt(s', k.dir))
    ensures Abs(s') == Spec(if v.Some? then Abs(s).kv[k := v.value] else Abs(s).kv - {k},
                            Abs(s).may + iset{(k, v)},
                            Disturb(Abs(s).calls, k)[t := CallOf(s', s'.threads[t])])
  {
    hide D.Visible;
    hide D.MayRead;
    hide ThreadOk;
    ChangedReads(s, k, v, s');
    ChangedMaps(s, k, v, s');
    ChangedCallsOf(s, t, k, v, s');
  }

  lemma ChangedMaps(s: State, k: Key, v: D.Option<D.Bytes>, s': State)
    requires VisibleAt(s', k) == v
    requires forall l :: l != k ==> VisibleAt(s', l) == VisibleAt(s, l)
    requires forall l, w :: MayReadAt(s', l, w) <==> MayReadAt(s, l, w) || (l == k && w == v)
    ensures KvOf(s') == if v.Some? then KvOf(s)[k := v.value] else KvOf(s) - {k}
    ensures MayOf(s') == MayOf(s) + iset{(k, v)}
  {
    hide VisibleAt;
    hide MayReadAt;
  }

  lemma ChangedCallsOf(s: State, t: Tid, k: Key, v: D.Option<D.Bytes>, s': State)
    requires t in s.threads && s'.folders == s.folders[k.dir := FolderAt(s', k.dir)]
    requires t in s'.threads && s'.threads == s.threads[t := s'.threads[t]]
    requires forall u :: u in s.threads ==> ThreadOk(s, u)
    requires OneKeyChanged(FolderAt(s, k.dir), FolderAt(s', k.dir), k.name, v) && NewEntry(s, k, FolderAt(s', k.dir))
    ensures CallsOf(s') == Disturb(CallsOf(s), k)[t := CallOf(s', s'.threads[t])]
  {
    hide OneKeyChanged;
    hide NewEntry;
    hide ThreadOk;
    hide CallOf;
    forall u | u in s.threads && u != t ensures CallOf(s', s'.threads[u]) == Disturb(CallsOf(s), k)[u] {
      ChangedCalls(s, t, k, v, s', u);
    }
  }

  // ---------- each action is a step of the specification ----------

  ghost predicate Refines(s: State, ev: Event, s': State) {
    Moves(s.rules, Abs(s), ev, Abs(s'))
  }

  /** What an action shows: the two maps unchanged, its own call at `call`. */
  ghost predicate OnlyCall(s: State, t: Tid, s': State) {
    && t in s.threads && t in s'.threads
    && Abs(s') == Abs(s).(calls := CallsOf(s)[t := CallOf(s', s'.threads[t])])
  }

  /** Until it renames, a write shows nothing to any other call. */
  lemma WriteShows(s: State, t: Tid, op: Op, at: Point, w: WriteAction)
    requires At(s, t, op, at) && CanWrite(s, op, at, w) && !w.Install?
    ensures OnlyCall(s, t, DoWrite(s, t, op, at, w))
  {
    hide D.SameKeys;
    hide D.SameKeyEntries;
    hide D.Valid;
    hide Undisturbed;
    hide ThreadOk;
    var s' := DoWrite(s, t, op, at, w);
    if w.DrawNumber? {
      QuietAbs(s, t, s');
    } else {
      if w.MakeDir? {
        MakeDirOk(s, t, op, at);
      } else if w.CreateTemp? {
        CreateTempOk(s, t, op, at);
      } else {
        FillOk(s, t, op, at, w);
      }
      SameKeysAbs(s, t, op.key.dir, s');
    }
  }

  lemma WriteRefines(s: State, t: Tid, op: Op, at: Point, w: WriteAction)
    requires At(s, t, op, at) && CanWrite(s, op, at, w) && !w.Install?
    ensures Refines(s, Stutter, DoWrite(s, t, op, at, w))
  {
    WriteShows(s, t, op, at, w);
    UnchangedCall(s, t, DoWrite(s, t, op, at, w));
  }

  /** A call whose status is the same has not moved. */
  lemma UnchangedCall(s: State, t: Tid, s': State)
    requires OnlyCall(s, t, s') && CallOf(s', s'.threads[t]) == CallOf(s, s.threads[t])
    ensures Abs(s') == Abs(s)
  {
    assert CallsOf(s)[t := CallOf(s, s.threads[t])] == CallsOf(s);
  }

  /** The value of a key in the specification is what a process reads there. */
  lemma LookupIsVisible(s: State, k: Key)
    ensures Lookup(Abs(s), k) == VisibleAt(s, k)
  {
  }

  // ---------- rename, unlink and sync ----------

  /** The inode a rename puts at a key was a temporary file's: no scan began with it there. */
  lemma InstallIsNew(s: State, t: Tid, op: Op, at: Point)
    requires Inv(s) && At(s, t, op, at) && CanWrite(s, op, at, Install)
    ensures NewEntry(s, op.key, FolderAt(DoWrite(s, t, op, at, Install), op.key.dir))
  {
    hide D.Valid;
    hide LocksOk;
    var f' := FolderAt(DoWrite(s, t, op, at, Install), op.key.dir);
    var e := D.TempName(op.key.name, at.stage.tmp.value);
    forall u | u in s.threads && s.threads[u].Busy? && s.threads[u].op == List(op.key.dir)
        && (s.threads[u].at.Scanning? || s.threads[u].at.Examining?)
      ensures !StillThere(s.threads[u].at.snap, f'.vol, D.KeyName(op.key.name))
    {
      assert ThreadOk(s, u);
      assert SnapOk(Home(s, op), s.threads[u].at.snap);
      assert e in Home(s, op).vol;
    }
  }

  lemma DeleteIsNew(s: State, t: Tid, op: Op, at: Point)
    requires At(s, t, op, at) && CanRemove(op, at, Delete) && D.KeyName(op.key.name) in Home(s, op).vol
    ensures NewEntry(s, op.key, FolderAt(DoRemove(s, t, op, at, Delete), op.key.dir))
  {
  }

  lemma InstallShows(s: State, t: Tid, op: Op, at: Point)
    requires Inv(s) && At(s, t, op, at) && CanWrite(s, op, at, Install)
    ensures var s' := DoWrite(s, t, op, at, Install);
      Abs(s') == Spec(KvOf(s)[op.key := op.buf], MayOf(s) + iset{(op.key, D.Some(op.buf))},
                      Disturb(CallsOf(s), op.key)[t := KvSpec.Call.Call(op, Applied)])
  {
    hide D.Valid;
    hide D.Visible;
    hide D.MayRead;
    hide LocksOk;
    hide NewEntry;
    hide Undisturbed;
    var s' := DoWrite(s, t, op, at, Install);
    WriterIsAlone(s, t, op, at);
    InstallOk(s, t, op, at);
    InstallIsNew(s, t, op, at);
    HomeOk(s, op);
    D.RenameLeaves(Home(s, op), D.TempName(op.key.name, at.stage.tmp.value), op.key.name);
    ChangedAbs(s, t, op.key, D.Some(op.buf), s');
  }

  lemma InstallRefines(s: State, t: Tid, op: Op, at: Point)
    requires Inv(s) && At(s, t, op, at) && CanWrite(s, op, at, Install)
    ensures Refines(s, Apply(t), DoWrite(s, t, op, at, Install))
  {
    hide KvOf;
    hide MayOf;
    hide FoldersOk;
    hide NumbersOk;
    hide Disturb;
    hide Inv;
    hide ThreadOk;
    InstallShows(s, t, op, at);
    assert CallsOf(s)[t] == KvSpec.Call.Call(op, Pending);
  }

  lemma DeleteShows(s: State, t: Tid, op: Op, at: Point)
    requires Inv(s) && At(s, t, op, at) && CanRemove(op, at, Delete) && D.KeyName(op.key.name) in Home(s, op).vol
    ensures var s' := DoRemove(s, t, op, at, Delete);
      Abs(s') == Spec(KvOf(s) - {op.key}, MayOf(s) + iset{(op.key, D.None)},
                      Disturb(CallsOf(s), op.key)[t := KvSpec.Call.Call(op, Applied)])
  {
    hide D.Valid;
    hide D.Visible;
    hide D.MayRead;
    hide LocksOk;
    hide NewEntry;
    hide Undisturbed;
    var s' := DoRemove(s, t, op, at, Delete);
    WriterIsAlone(s, t, op, at);
    DeleteOk(s, t, op, at);
    DeleteIsNew(s, t, op, at);
    D.RemoveLeaves(Home(s, op), op.key.name);
    ChangedAbs(s, t, op.key, D.None, s');
  }

  /** A key file in its directory is a key in the map, with the bytes of its inode. */
  lemma PresentIsKey(s: State, k: Key)
    requires FoldersOk(s)
    ensures k in KvOf(s) <==> D.KeyName(k.name) in FolderAt(s, k.dir).vol
    ensures k in KvOf(s) ==>
      var f := FolderAt(s, k.dir); var i := f.vol[D.KeyName(k.name)];
      i in f.files && KvOf(s)[k] == f.files[i].bytes
  {
    HomeOk(s, Read(k));
    var f := FolderAt(s, k.dir);
    if D.KeyName(k.name) in f.vol {
      assert D.MayLink(f, D.KeyName(k.name), f.vol[D.KeyName(k.name)]);
    }
  }

  lemma DeleteRefines(s: State, t: Tid, op: Op, at: Point)
    requires Inv(s) && At(s, t, op, at) && CanRemove(op, at, Delete) && D.KeyName(op.key.name) in Home(s, op).vol
    ensures Refines(s, Apply(t), DoRemove(s, t, op, at, Delete))
  {
    hide KvOf;
    hide MayOf;
    hide FoldersOk;
    hide NumbersOk;
    hide Disturb;
    hide Inv;
    hide ThreadOk;
    DeleteShows(s, t, op, at);
    PresentIsKey(s, op.key);
    assert CallsOf(s)[t] == KvSpec.Call.Call(op, Pending);
  }

  lemma SyncShows(s: State, t: Tid, op: Op, at: Point)
    requires At(s, t, op, at) && CanFlush(op, at) && !(op.Remove? && op.lazy)
    ensures var s' := DoFlush(s, t, op, at);
      Abs(s') == Spec(KvOf(s), Settled(Abs(s), op.key.dir), CallsOf(s)[t := KvSpec.Call.Call(op, Finished(Done))])
  {
    hide D.Valid;
    hide D.Visible;
    hide D.MayRead;
    hide Undisturbed;
    hide ThreadOk;
    var s' := DoFlush(s, t, op, at);
    SyncOk(s, t, op, at);
    D.SyncDirLeaves(Home(s, op));
    forall k ensures VisibleAt(s', k) == VisibleAt(s, k) {
      assert k.dir != op.key.dir ==> FolderAt(s', k.dir) == FolderAt(s, k.dir);
    }
    forall k, v
      ensures MayReadAt(s', k, v) <==> if k.dir == op.key.dir then v == VisibleAt(s, k) else MayReadAt(s, k, v)
    {
      assert k.dir != op.key.dir ==> FolderAt(s', k.dir) == FolderAt(s, k.dir);
    }
    SettledMaps(s, op.key.dir, s');
    forall u | u in s.threads && u != t ensures CallOf(s', s.threads[u]) == CallOf(s, s.threads[u]) {
      if s.threads[u].Busy? {
        SameHomeStatus(s, op.key.dir, s', s.threads[u].op, s.threads[u].at);
      }
    }
    SameOtherCalls(s, t, s');
  }

  lemma SettledMaps(s: State, d: Dir, s': State)
    requires forall k :: VisibleAt(s', k) == VisibleAt(s, k)
    requires forall k, v :: MayReadAt(s', k, v) <==> if k.dir == d then v == VisibleAt(s, k) else MayReadAt(s, k, v)
    ensures KvOf(s') == KvOf(s) && MayOf(s') == Settled(Abs(s), d)
  {
    hide VisibleAt;
    hide MayReadAt;
    forall k ensures Lookup(Abs(s), k) == VisibleAt(s, k) {
    }
  }

  lemma SyncRefines(s: State, t: Tid, op: Op, at: Point)
    requires At(s, t, op, at) && CanFlush(op, at) && !(op.Remove? && op.lazy)
    ensures Refines(s, Settle(t), DoFlush(s, t, op, at))
  {
    hide KvOf;
    hide MayOf;
    hide FoldersOk;
    hide NumbersOk;
    hide Settled;
    SyncShows(s, t, op, at);
    assert VisibleAt(s, op.key) == Effect(op);
    LookupIsVisible(s, op.key);
    assert CallsOf(s)[t] == KvSpec.Call.Call(op, Applied);
  }

  // ---------- actions that only move their own call ----------

  lemma ReadRefines(s: State, t: Tid, op: Op, at: Point, r: ReadAction)
    requires At(s, t, op, at) && CanRead(s, op, at, r)
    ensures Enabled(s, t, OfRead(r)) && Refines(s, EventOf(s, t, OfRead(r)), DoRead(s, t, op, at, r))
  {
    hide FoldersOk;
    hide NumbersOk;
    hide KvOf;
    hide MayOf;
    var s' := DoRead(s, t, op, at, r);
    QuietAbs(s, t, s');
    PresentIsKey(s, op.key);
    if r.ReadSome? || (r.Open? && D.KeyName(op.key.name) in Home(s, op).vol) {
      UnchangedCall(s, t, s');
    }
  }

  lemma RemoveQuietRefines(s: State, t: Tid, op: Op, at: Point, m: RemoveAction)
    requires At(s, t, op, at) && CanRemove(op, at, m)
    requires !m.Delete? || D.KeyName(op.key.name) !in Home(s, op).vol
    ensures Enabled(s, t, OfRemove(m)) && Refines(s, EventOf(s, t, OfRemove(m)), DoRemove(s, t, op, at, m))
  {
    hide Refines;
    hide FoldersOk;
    hide ThreadOk;
    hide NumbersOk;
    match m {
      case CheckFile => CheckFileRefines(s, t, op, at);
      case MissFile => MissFileRefines(s, t, op, at);
      case Delete => DeleteNoneRefines(s, t, op, at);
    }
  }

  lemma CheckFileRefines(s: State, t: Tid, op: Op, at: Point)
    requires At(s, t, op, at) && CanRemove(op, at, CheckFile)
    ensures Refines(s, EventOf(s, t, OfRemove(CheckFile)), DoRemove(s, t, op, at, CheckFile))
  {
    hide FoldersOk;
    hide NumbersOk;
    hide KvOf;
    hide MayOf;
    hide PointOk;
    var s' := DoRemove(s, t, op, at, CheckFile);
    QuietAbs(s, t, s');
    PresentIsKey(s, op.key);
    if D.KeyName(op.key.name) in Home(s, op).vol {
      UnchangedCall(s, t, s');
    }
  }

  lemma MissFileRefines(s: State, t: Tid, op: Op, at: Point)
    requires At(s, t, op, at) && CanRemove(op, at, MissFile)
    ensures Refines(s, Overlook(t, Done), DoRemove(s, t, op, at, MissFile))
  {
    hide FoldersOk;
    hide NumbersOk;
    hide KvOf;
    hide MayOf;
    hide PointOk;
    QuietAbs(s, t, DoRemove(s, t, op, at, MissFile));
  }

  lemma DeleteNoneRefines(s: State, t: Tid, op: Op, at: Point)
    requires At(s, t, op, at) && CanRemove(op, at, Delete) && D.KeyName(op.key.name) !in Home(s, op).vol
    ensures Refines(s, Answer(t, Err(NotFound)), DoRemove(s, t, op, at, Delete))
  {
    hide FoldersOk;
    hide NumbersOk;
    hide KvOf;
    hide MayOf;
    hide PointOk;
    QuietAbs(s, t, DoRemove(s, t, op, at, Delete));
    PresentIsKey(s, op.key);
  }

  lemma LazyFlushRefines(s: State, t: Tid, op: Op, at: Point)
    requires At(s, t, op, at) && CanFlush(op, at) && op.Remove? && op.lazy
    ensures Refines(s, Answer(t, Done), DoFlush(s, t, op, at))
  {
    hide FoldersOk;
    hide NumbersOk;
    hide KvOf;
    hide MayOf;
    QuietAbs(s, t, DoFlush(s, t, op, at));
  }

  lemma ListRefines(s: State, t: Tid, op: Op, at: Point, l: ListAction)
    requires At(s, t, op, at) && CanList(s, op, at, l)
    ensures Enabled(s, t, OfList(l)) && Refines(s, EventOf(s, t, OfList(l)), DoList(s, t, op, at, l))
  {
    hide KvOf;
    hide MayOf;
    hide FoldersOk;
    hide NumbersOk;
    hide ThreadOk;
    hide StableIn;
    hide NamesIn;
    hide Refines;
    var s' := DoList(s, t, op, at, l);
    match l {
      case OpenDir => OpenDirRefines(s, t, op, at);
      case MissDir => MissDirRefines(s, t, op, at);
      case NextEntry(_) => NextRefines(s, t, op, at, l);
      case Examine => ExamineRefines(s, t, op, at);
      case EndScan => EndScanRefines(s, t, op, at);
    }
  }

  lemma OpenDirRefines(s: State, t: Tid, op: Op, at: Point)
    requires At(s, t, op, at) && CanList(s, op, at, OpenDir)
    ensures Refines(s, EventOf(s, t, OfList(OpenDir)), DoList(s, t, op, at, OpenDir))
  {
    hide KvOf;
    hide MayOf;
    hide FoldersOk;
    hide NumbersOk;
    hide StableIn;
    hide NamesIn;
    QuietAbs(s, t, DoList(s, t, op, at, OpenDir));
    OpenDirShows(s, op.dir);
  }

  lemma MissDirRefines(s: State, t: Tid, op: Op, at: Point)
    requires At(s, t, op, at) && CanList(s, op, at, MissDir)
    ensures Refines(s, Overlook(t, Keys([])), DoList(s, t, op, at, MissDir))
  {
    hide KvOf;
    hide MayOf;
    hide FoldersOk;
    hide NumbersOk;
    QuietAbs(s, t, DoList(s, t, op, at, MissDir));
  }

  lemma NextRefines(s: State, t: Tid, op: Op, at: Point, l: ListAction)
    requires At(s, t, op, at) && CanList(s, op, at, l) && l.NextEntry?
    ensures Refines(s, Stutter, DoList(s, t, op, at, l))
  {
    hide FoldersOk;
    hide NumbersOk;
    var s' := DoList(s, t, op, at, l);
    QuietAbs(s, t, s');
    UnchangedCall(s, t, s');
  }

  lemma ExamineRefines(s: State, t: Tid, op: Op, at: Point)
    requires At(s, t, op, at) && CanList(s, op, at, Examine)
    ensures Refines(s, EventOf(s, t, OfList(Examine)), DoList(s, t, op, at, Examine))
  {
    hide KvOf;
    hide MayOf;
    hide FoldersOk;
    hide NumbersOk;
    hide StableIn;
    var s' := DoList(s, t, op, at, Examine);
    QuietAbs(s, t, s');
    if at.e.TempName? {
      UnchangedCall(s, t, s');
    } else {
      PresentIsKey(s, Key(op.dir, at.e.name));
      assert D.KeyName(at.e.name) == at.e;
    }
  }

  lemma EndScanRefines(s: State, t: Tid, op: Op, at: Point)
    requires At(s, t, op, at) && CanList(s, op, at, EndScan)
    ensures Refines(s, Answer(t, Keys(at.found)), DoList(s, t, op, at, EndScan))
  {
    hide KvOf;
    hide MayOf;
    hide FoldersOk;
    hide NumbersOk;
    QuietAbs(s, t, DoList(s, t, op, at, EndScan));
    ScanIsOver(s, op, at);
  }

  /** The names a scan begins with are the keys of the namespace. */
  lemma OpenDirShows(s: State, d: Dir)
    requires FoldersOk(s)
    ensures NamesIn(Abs(s), d) == StableIn(FolderAt(s, d), FolderAt(s, d).vol)
    ensures d !in s.folders ==> NamesIn(Abs(s), d) == iset{}
  {
    hide KvOf;
    forall name ensures Key(d, name) in KvOf(s) <==> D.KeyName(name) in FolderAt(s, d).vol {
      PresentIsKey(s, Key(d, name));
    }
  }

  lemma ScanIsOver(s: State, op: Op, at: Point)
    requires CanList(s, op, at, EndScan) && FoundOk(at.seen, at.found)
    ensures forall name :: name in StableIn(Home(s, op), at.snap) ==> name in at.found
  {
    forall name | name in StableIn(Home(s, op), at.snap) ensures name in at.found {
      assert StillThere(at.snap, Home(s, op).vol, D.KeyName(name));
      assert D.KeyName(name) in at.seen;
    }
  }

  lemma LockRefines(s: State, t: Tid, op: Op, at: Point, k: LockAction)
    requires At(s, t, op, at) && CanLock(s, op, at, k)
    ensures Refines(s, Stutter, DoLock(s, t, op, at, k))
  {
    hide KvOf;
    hide MayOf;
    hide FoldersOk;
    hide NumbersOk;
    hide PointOk;
    var s' := DoLock(s, t, op, at, k);
    QuietAbs(s, t, s');
    UnchangedCall(s, t, s');
  }

  lemma SweepRefines(s: State, t: Tid, op: Op, at: Point, g: SweepAction)
    requires At(s, t, op, at) && CanSweep(s, at, g)
    ensures Refines(s, Stutter, DoSweep(s, t, op, at, g))
  {
    hide KvOf;
    hide MayOf;
    hide FoldersOk;
    hide NumbersOk;
    hide PointOk;
    var s' := DoSweep(s, t, op, at, g);
    QuietAbs(s, t, s');
    UnchangedCall(s, t, s');
  }

  lemma CallRefines(s: State, t: Tid, op: Op)
    requires t in s.threads && s.threads[t].Idle?
    ensures Refines(s, Invoke(t, op), Enter(s, t, op))
  {
    hide KvOf;
    hide MayOf;
    QuietAbs(s, t, Enter(s, t, op));
  }

  lemma FailRefines(s: State, t: Tid, op: Op, at: Point)
    requires At(s, t, op, at) && DoesIo(op, at)
    ensures Refines(s, Answer(t, Err(Io)), To(s, t, op, Finish(at, Err(Io))))
  {
    hide FoldersOk;
    hide NumbersOk;
    hide KvOf;
    hide MayOf;
    QuietAbs(s, t, To(s, t, op, Finish(at, Err(Io))));
  }

  lemma LeaveRefines(s: State, t: Tid, op: Op, at: Point)
    requires At(s, t, op, at) && at.Returning?
    ensures Refines(s, Return(t), s.(threads := s.threads[t := Idle]))
  {
    hide KvOf;
    hide MayOf;
    QuietAbs(s, t, s.(threads := s.threads[t := Idle]));
  }

  // ---------- crash ----------

  lemma CrashShows(s: State, s': State)
    requires FoldersOk(s) && Crashes(s, s')
    ensures forall k :: MayReadAt(s, k, VisibleAt(s', k))
    ensures forall k, v :: MayReadAt(s', k, v) <==> v == VisibleAt(s', k)
  {
    hide D.Visible;
    hide D.MayRead;
    forall d ensures forall name :: D.MayRead(FolderAt(s, d), name, D.Visible(FolderAt(s', d), name))
      ensures forall name, v :: D.MayRead(FolderAt(s', d), name, v) <==> v == D.Visible(FolderAt(s', d), name)
    {
      if d in s.folders {
        CrashFolderOk(s.rules, s.folders[d], s'.folders[d]);
      } else {
        EmptyReads();
      }
    }
  }

  lemma EmptyReads()
    ensures forall name :: D.MayRead(D.EMPTY, name, D.Visible(D.EMPTY, name))
    ensures forall name, v :: D.MayRead(D.EMPTY, name, v) <==> v == D.Visible(D.EMPTY, name)
  {
  }

  lemma CrashRefines(s: State, s': State)
    requires FoldersOk(s) && Crashes(s, s')
    ensures Refines(s, Event.Crash, s')
  {
    hide D.Visible;
    hide D.MayRead;
    hide FoldersOk;
    CrashShows(s, s');
    forall k ensures Lookup(Abs(s'), k) == VisibleAt(s', k) {
    }
  }

  /** A kill changes nothing that is on disk or seen there. */
  lemma KillRefines(s: State)
    ensures Refines(s, Event.Restart, Killed(s))
  {
    hide D.Visible;
    hide D.MayRead;
    forall d ensures FolderAt(Killed(s), d) == FolderAt(s, d) {
    }
    SameMaps(s, Killed(s));
  }

  // ---------- every step ----------

  lemma ActionRefines(s: State, t: Tid, a: Action)
    requires Inv(s) && Enabled(s, t, a)
    ensures Refines(s, EventOf(s, t, a), After(s, t, a))
  {
    hide Refines;
    hide LocksOk;
    hide FoldersOk;
    hide NumbersOk;
    hide ThreadOk;
    if a.Call? {
      CallRefines(s, t, a.op);
      return;
    }
    var op, at := s.threads[t].op, s.threads[t].at;
    assert At(s, t, op, at);
    match a {
      case OfWrite(w) => if w.Install? { InstallRefines(s, t, op, at); } else { WriteRefines(s, t, op, at, w); }
      case OfRead(r) => ReadRefines(s, t, op, at, r);
      case OfRemove(m) =>
        if m.Delete? && D.KeyName(op.key.name) in Home(s, op).vol {
          DeleteRefines(s, t, op, at);
        } else {
          RemoveQuietRefines(s, t, op, at, m);
        }
      case Flush => if op.Remove? && op.lazy { LazyFlushRefines(s, t, op, at); } else { SyncRefines(s, t, op, at); }
      case OfList(l) => ListRefines(s, t, op, at, l);
      case OfLock(k) => LockRefines(s, t, op, at, k);
      case OfSweep(g) => SweepRefines(s, t, op, at, g);
      case Fail => FailRefines(s, t, op, at);
      case Leave => LeaveRefines(s, t, op, at);
    }
  }

  /** Every step of the store, and every power loss, is a step of the specification or none. */
  lemma StepRefines(s: State, step: Step, s': State)
    requires Inv(s) && StepTo(s, step, s')
    ensures Refines(s, EventOfStep(s, step, s'), s')
  {
    match step
    case Do(t, a) => ActionRefines(s, t, a);
    case Kill => KillRefines(s);
    case PowerLoss => CrashRefines(s, s');
  }
}
