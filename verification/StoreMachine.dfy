/**
  The concurrent store, one atomic action at a time.

  Any number of threads run `read`, `write`, `remove` and `list`. What they share is the
  directories, the two counters, and the map from paths to reader/writer locks behind its own
  mutex. A lock object has an identity: a thread that cloned a handle to it keeps that object,
  whatever becomes of the map entry it came from.
*/
module StoreMachine {
  import opened Names
  import opened KvSpec
  import D = Directory

  const GC_LOCK_INTERVAL := 25

  type LockId = nat

  /** A lock object: the threads holding a handle to it, and those inside it. */
  datatype Lock = Lock(handles: set<Tid>, readers: set<Tid>, writer: D.Option<Tid>)

  /** Arc::strong_count of a lock that is in the map. */
  function StrongCount(l: Lock): nat {
    1 + |l.handles|
  }

  /** Where a call is that has a handle to the lock of its path; it is inside in all but the first and last. */
  datatype Stage =
    | Waiting(tmp: D.Option<nat>)
    | Locked(tmp: D.Option<nat>)
    | Reading(ino: D.Ino, got: D.Bytes)
    | Changed
    | Unlocking(res: Result)
    | Dropping(res: Result)

  /** Where a call is. `tmp` is the number of the temporary file a write has ready. */
  datatype Point =
    | Start
    | DirMade
    | Named(n: nat)
    | Filling(n: nat, ino: D.Ino, pos: nat)
    | NeedLock(tmp: D.Option<nat>)
    | Held(h: LockId, stage: Stage)
    | Scanning(snap: map<D.Entry, D.Ino>, seen: set<D.Entry>, found: seq<string>)
    | Examining(snap: map<D.Entry, D.Ino>, seen: set<D.Entry>, found: seq<string>, e: D.Entry)
    | Counting(res: Result)
    | WantSweep(res: Result)
    | Sweeping(res: Result, todo: set<Key>)
    | Returning(res: Result)

  datatype Thread = Idle | Busy(op: Op, at: Point)

  datatype State = State(
    rules: Rules,
    folders: map<Dir, D.Folder>,
    tmpCounter: nat,
    gcCounter: nat,
    mutex: D.Option<Tid>,
    locks: map<Key, LockId>,
    objs: map<LockId, Lock>,
    nextLock: LockId,
    threads: map<Tid, Thread>)

  datatype WriteAction = MakeDir | DrawNumber | CreateTemp | Put(len: nat) | SyncTemp | Install
  datatype ReadAction = Open | ReadSome(len: nat) | ReadEnd
  datatype RemoveAction = CheckFile | MissFile | Delete
  datatype ListAction = OpenDir | MissDir | NextEntry(e: D.Entry) | Examine | EndScan
  datatype LockAction = GetLock | Acquire | Release | Drop
  datatype SweepAction = Count | StartSweep | Visit(k: Key) | EndSweep

  datatype Action =
    | Call(op: Op)
    | OfWrite(w: WriteAction)
    | OfRead(r: ReadAction)
    | OfRemove(m: RemoveAction)
    | Flush
    | OfList(l: ListAction)
    | OfLock(k: LockAction)
    | OfSweep(g: SweepAction)
    | Fail
    | Leave

  function FolderAt(s: State, d: Dir): D.Folder {
    if d in s.folders then s.folders[d] else D.EMPTY
  }

  function Home(s: State, op: Op): D.Folder {
    FolderAt(s, if op.List? then op.dir else op.key.dir)
  }

  function To(s: State, t: Tid, op: Op, at: Point): State {
    s.(threads := s.threads[t := Busy(op, at)])
  }

  function WithFolder(s: State, d: Dir, f: D.Folder): State {
    s.(folders := s.folders[d := f])
  }

  /** Where a call begins once its names are checked. */
  function Entrance(op: Op): Point {
    if op.Read? then NeedLock(D.None) else Start
  }

  /** An I/O operation can go wrong at these points. */
  predicate DoesIo(op: Op, at: Point) {
    match at
    case Start => op.Write? || op.List?
    case Named(_) => true
    case Filling(_, _, _) => true
    case Held(_, Locked(_)) => true
    case Held(_, Reading(_, _)) => true
    case Held(_, Changed) => !(op.Remove? && op.lazy)
    case Scanning(_, _, _) => true
    case Examining(_, _, _, _) => true
    case _ => false
  }

  // ---------- write ----------

  predicate CanWrite(s: State, op: Op, at: Point, w: WriteAction) {
    && op.Write?
    && match w
       case MakeDir => at.Start?
       case DrawNumber => at.DirMade?
       case CreateTemp => at.Named?
       case Put(len) => at.Filling? && at.ino in Home(s, op).files && 0 < len && at.pos + len <= |op.buf|
       case SyncTemp => at.Filling? && at.ino in Home(s, op).files && at.pos == |op.buf|
       case Install =>
         && at.Held? && at.stage.Locked? && at.stage.tmp.Some?
         && D.TempName(op.key.name, at.stage.tmp.value) in Home(s, op).vol
  }

  function DoWrite(s: State, t: Tid, op: Op, at: Point, w: WriteAction): State
    requires CanWrite(s, op, at, w)
  {
    var f := Home(s, op);
    match w
    case MakeDir => To(WithFolder(s, op.key.dir, f), t, op, DirMade)
    case DrawNumber => To(s.(tmpCounter := s.tmpCounter + 1), t, op, Named(s.tmpCounter))
    case CreateTemp =>
      var e := D.TempName(op.key.name, at.n);
      To(WithFolder(s, op.key.dir, D.Create(f, e)), t, op, Filling(at.n, D.Create(f, e).vol[e], 0))
    case Put(len) =>
      To(WithFolder(s, op.key.dir, D.Append(f, at.ino, op.buf[at.pos..at.pos + len])), t, op,
         Filling(at.n, at.ino, at.pos + len))
    case SyncTemp => To(WithFolder(s, op.key.dir, D.SyncFile(f, at.ino)), t, op, NeedLock(D.Some(at.n)))
    case Install =>
      To(WithFolder(s, op.key.dir, D.Rename(f, D.TempName(op.key.name, at.stage.tmp.value), D.KeyName(op.key.name))),
         t, op, Held(at.h, Changed))
  }

  // ---------- read ----------

  predicate CanRead(s: State, op: Op, at: Point, r: ReadAction) {
    && op.Read?
    && match r
       case Open => at.Held? && at.stage.Locked?
       case ReadSome(len) =>
         && at.Held? && at.stage.Reading? && at.stage.ino in Home(s, op).files
         && 0 < len && |at.stage.got| + len <= |Home(s, op).files[at.stage.ino].bytes|
       case ReadEnd =>
         && at.Held? && at.stage.Reading? && at.stage.ino in Home(s, op).files
         && |at.stage.got| == |Home(s, op).files[at.stage.ino].bytes|
  }

  function DoRead(s: State, t: Tid, op: Op, at: Point, r: ReadAction): State
    requires CanRead(s, op, at, r)
  {
    var f := Home(s, op);
    match r
    case Open =>
      var e := D.KeyName(op.key.name);
      To(s, t, op, Held(at.h, if e in f.vol then Reading(f.vol[e], []) else Unlocking(Err(NotFound))))
    case ReadSome(len) =>
      var got := at.stage.got;
      To(s, t, op, Held(at.h, Reading(at.stage.ino, got + f.files[at.stage.ino].bytes[|got|..|got| + len])))
    case ReadEnd => To(s, t, op, Held(at.h, Unlocking(Got(at.stage.got))))
  }

  // ---------- remove ----------

  predicate CanRemove(op: Op, at: Point, m: RemoveAction) {
    && op.Remove?
    && match m
       case CheckFile => at.Start?
       case MissFile => at.Start?
       case Delete => at.Held? && at.stage.Locked?
  }

  /** Path::is_file answers no for a file it cannot look at, and the removal is over: `MissFile`. */
  function DoRemove(s: State, t: Tid, op: Op, at: Point, m: RemoveAction): State
    requires CanRemove(op, at, m)
  {
    var f := Home(s, op);
    var e := D.KeyName(op.key.name);
    match m
    case CheckFile => To(s, t, op, if e in f.vol then NeedLock(D.None) else Returning(Done))
    case MissFile => To(s, t, op, Returning(Done))
    case Delete =>
      if e in f.vol then To(WithFolder(s, op.key.dir, D.Remove(f, e)), t, op, Held(at.h, Changed))
      else To(s, t, op, Held(at.h, Unlocking(Err(NotFound))))
  }

  /** After a rename or an unlink: sync the directory, unless the removal is lazy. */
  predicate CanFlush(op: Op, at: Point) {
    (op.Write? || op.Remove?) && at.Held? && at.stage.Changed?
  }

  function DoFlush(s: State, t: Tid, op: Op, at: Point): State
    requires CanFlush(op, at)
  {
    if op.Remove? && op.lazy then To(s, t, op, Held(at.h, Unlocking(Done)))
    else To(WithFolder(s, op.key.dir, D.SyncDir(Home(s, op))), t, op, Held(at.h, Unlocking(Done)))
  }

  // ---------- list ----------

  predicate CanList(s: State, op: Op, at: Point, l: ListAction) {
    && op.List?
    && match l
       case OpenDir => at.Start?
       case MissDir => at.Start?
       case NextEntry(e) => at.Scanning? && e !in at.seen && (e in at.snap || e in Home(s, op).vol)
       case Examine => at.Examining?
       case EndScan =>
         at.Scanning? && forall e :: e in at.snap && StillThere(at.snap, Home(s, op).vol, e) ==> e in at.seen
  }

  predicate StillThere(snap: map<D.Entry, D.Ino>, vol: map<D.Entry, D.Ino>, e: D.Entry) {
    e in snap && e in vol && vol[e] == snap[e]
  }

  /** An entry added or removed during a scan may or may not be seen; any other is seen, once.
      Path::exists answers no for a directory it cannot look at, and the listing is over: `MissDir`. */
  function DoList(s: State, t: Tid, op: Op, at: Point, l: ListAction): State
    requires CanList(s, op, at, l)
  {
    var f := Home(s, op);
    match l
    case OpenDir =>
      To(s, t, op, if op.dir in s.folders then Scanning(f.vol, {}, []) else Returning(Keys([])))
    case MissDir => To(s, t, op, Returning(Keys([])))
    case NextEntry(e) => To(s, t, op, Examining(at.snap, at.seen, at.found, e))
    case Examine =>
      To(s, t, op,
         if at.e.TempName? then Scanning(at.snap, at.seen + {at.e}, at.found)
         else if at.e in f.vol && ValidStr(s.rules, at.e.name)
         then Scanning(at.snap, at.seen + {at.e}, at.found + [at.e.name])
         else Returning(Err(Io)))
    case EndScan => To(s, t, op, Counting(Keys(at.found)))
  }

  // ---------- the lock of a path ----------

  predicate CanLock(s: State, op: Op, at: Point, k: LockAction) {
    && !op.List?
    && match k
       case GetLock => at.NeedLock? && s.mutex.None? && (op.key in s.locks ==> s.locks[op.key] in s.objs)
       case Acquire =>
         && at.Held? && at.stage.Waiting? && at.h in s.objs && s.objs[at.h].writer.None?
         && (op.Read? || s.objs[at.h].readers == {})
       case Release => at.Held? && at.stage.Unlocking? && at.h in s.objs
       case Drop => at.Held? && at.stage.Dropping? && at.h in s.objs
  }

  function WithObj(s: State, h: LockId, l: Lock): State {
    s.(objs := s.objs[h := l])
  }

  function DoLock(s: State, t: Tid, op: Op, at: Point, k: LockAction): State
    requires CanLock(s, op, at, k)
  {
    match k
    case GetLock =>
      if op.key in s.locks then
        var h := s.locks[op.key];
        To(WithObj(s, h, s.objs[h].(handles := s.objs[h].handles + {t})), t, op, Held(h, Waiting(at.tmp)))
      else
        var h := s.nextLock;
        var made := WithObj(s, h, Lock({t}, {}, D.None)).(locks := s.locks[op.key := h], nextLock := h + 1);
        To(made, t, op, Held(h, Waiting(at.tmp)))
    case Acquire =>
      var l := s.objs[at.h];
      To(WithObj(s, at.h, if op.Read? then l.(readers := l.readers + {t}) else l.(writer := D.Some(t))),
         t, op, Held(at.h, Locked(at.stage.tmp)))
    case Release =>
      var l := s.objs[at.h];
      To(WithObj(s, at.h, if op.Read? then l.(readers := l.readers - {t}) else l.(writer := D.None)),
         t, op, Held(at.h, Dropping(at.stage.res)))
    case Drop =>
      To(WithObj(s, at.h, s.objs[at.h].(handles := s.objs[at.h].handles - {t})), t, op,
         if at.stage.res.Err? then Returning(at.stage.res) else Counting(at.stage.res))
  }

  // ---------- collecting locks ----------

  predicate CanSweep(s: State, at: Point, g: SweepAction) {
    match g
    case Count => at.Counting?
    case StartSweep => at.WantSweep? && s.mutex.None?
    case Visit(k) => at.Sweeping? && k in at.todo && k in s.locks && s.locks[k] in s.objs
    case EndSweep => at.Sweeping? && at.todo == {}
  }

  function DoSweep(s: State, t: Tid, op: Op, at: Point, g: SweepAction): State
    requires CanSweep(s, at, g)
  {
    match g
    case Count =>
      To(s.(gcCounter := s.gcCounter + 1), t, op,
         if s.gcCounter % GC_LOCK_INTERVAL == 0 then WantSweep(at.res) else Returning(at.res))
    case StartSweep => To(s.(mutex := D.Some(t)), t, op, Sweeping(at.res, s.locks.Keys))
    case Visit(k) =>
      To(if StrongCount(s.objs[s.locks[k]]) > 1 then s else s.(locks := s.locks - {k}),
         t, op, Sweeping(at.res, at.todo - {k}))
    case EndSweep => To(s.(mutex := D.None), t, op, Returning(at.res))
  }

  // ---------- all actions ----------

  predicate Enabled(s: State, t: Tid, a: Action) {
    && t in s.threads
    && if a.Call? then s.threads[t].Idle?
       else s.threads[t].Busy? && CanDo(s, s.threads[t].op, s.threads[t].at, a)
  }

  predicate CanDo(s: State, op: Op, at: Point, a: Action) {
    match a
    case Call(_) => false
    case OfWrite(w) => CanWrite(s, op, at, w)
    case OfRead(r) => CanRead(s, op, at, r)
    case OfRemove(m) => CanRemove(op, at, m)
    case Flush => CanFlush(op, at)
    case OfList(l) => CanList(s, op, at, l)
    case OfLock(k) => CanLock(s, op, at, k)
    case OfSweep(g) => CanSweep(s, at, g)
    case Fail => DoesIo(op, at)
    case Leave => at.Returning?
  }

  /** Where a call goes on from when its result is known. */
  function Finish(at: Point, res: Result): Point {
    if at.Held? then Held(at.h, Unlocking(res)) else Returning(res)
  }

  function Enter(s: State, t: Tid, op: Op): State {
    To(s, t, op, match Check(s.rules, op)
                 case Fine => Entrance(op)
                 case Refused(why) => Returning(Err(Invalid(why))))
  }

  /** The state after an action: each is one atomic step of the code. */
  function After(s: State, t: Tid, a: Action): State
    requires Enabled(s, t, a)
  {
    if a.Call? then Enter(s, t, a.op)
    else
      var op, at := s.threads[t].op, s.threads[t].at;
      match a
      case OfWrite(w) => DoWrite(s, t, op, at, w)
      case OfRead(r) => DoRead(s, t, op, at, r)
      case OfRemove(m) => DoRemove(s, t, op, at, m)
      case Flush => DoFlush(s, t, op, at)
      case OfList(l) => DoList(s, t, op, at, l)
      case OfLock(k) => DoLock(s, t, op, at, k)
      case OfSweep(g) => DoSweep(s, t, op, at, g)
      case Fail => To(s, t, op, Finish(at, Err(Io)))
      case Leave => s.(threads := s.threads[t := Idle])
  }

  /** Power loss and restart: counters, locks and threads begin anew over what the disk holds. */
  ghost predicate Crashes(s: State, s': State) {
    && s' == State(s.rules, s'.folders, 0, 1, D.None, map[], map[], 0, map t | t in s.threads :: Idle)
    && s'.folders.Keys == s.folders.Keys
    && forall d :: d in s.folders ==> CrashesTo(s.folders[d], s'.folders[d])
  }

  ghost predicate CrashesTo(f: D.Folder, f': D.Folder) {
    exists keep: seq<bool>, torn :: |keep| == |f.log| && f' == D.Crash(f, keep, torn)
  }

  /** The process is killed and started again: what running processes saw of the files stays. */
  function Killed(s: State): State {
    State(s.rules, s.folders, 0, 1, D.None, map[], map[], 0, map t | t in s.threads :: Idle)
  }

  datatype Step = Do(t: Tid, a: Action) | Kill | PowerLoss

  ghost predicate StepTo(s: State, step: Step, s': State) {
    match step
    case Do(t, a) => Enabled(s, t, a) && s' == After(s, t, a)
    case Kill => s' == Killed(s)
    case PowerLoss => Crashes(s, s')
  }

  /** A new store over directories that a store, or nothing, has left. */
  ghost predicate Init(s: State) {
    && Sane(s.rules)
    && s.tmpCounter == 0 && s.gcCounter == 1 && s.mutex.None?
    && s.locks == map[] && s.objs == map[] && s.nextLock == 0
    && (forall t :: t in s.threads ==> s.threads[t].Idle?)
    && (forall d :: d in s.folders ==> D.Valid(s.folders[d]) && KeysNamed(s.rules, s.folders[d]))
  }

  /** Every key file there is, or may be, has the name of a key. */
  ghost predicate KeysNamed(r: Rules, f: D.Folder) {
    forall name, b :: D.MayRead(f, name, D.Some(b)) ==> ValidStr(r, name)
  }

  ghost predicate IsExecution(run: seq<State>, steps: seq<Step>) {
    && |run| == |steps| + 1 && Init(run[0])
    && forall i :: 0 <= i < |steps| ==> StepTo(run[i], steps[i], run[i+1])
  }
}
