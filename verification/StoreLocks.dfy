/**
  The locking of the concurrent store: every handle to a path's lock is a handle to the one
  object in the map, which the collector never drops while a handle is out.
*/
module StoreLocks {
  import opened Names
  import opened KvSpec
  import opened StoreMachine
  import D = Directory

  /** The lock a thread has a handle to. */
  function HandleOf(th: Thread): D.Option<LockId> {
    if th.Busy? && !th.op.List? && th.at.Held? then D.Some(th.at.h) else D.None
  }

  /** The lock a thread is inside, as a reader or as the writer. */
  function Inside(th: Thread): D.Option<LockId> {
    if th.Busy? && th.at.Held? && (th.at.stage.Waiting? || th.at.stage.Dropping?) then D.None else HandleOf(th)
  }

  function ReadGuard(th: Thread): D.Option<LockId> {
    if th.Busy? && th.op.Read? then Inside(th) else D.None
  }

  function WriteGuard(th: Thread): D.Option<LockId> {
    if th.Busy? && !th.op.Read? then Inside(th) else D.None
  }

  ghost predicate Sweeps(th: Thread) {
    th.Busy? && th.at.Sweeping?
  }

  /** The map is a one-to-one map to live objects. */
  ghost predicate MapOk(s: State) {
    && (forall h :: h in s.objs ==> h < s.nextLock)
    && (forall k :: k in s.locks ==> s.locks[k] in s.objs)
    && (forall k, l :: k in s.locks && l in s.locks && s.locks[k] == s.locks[l] ==> k == l)
  }

  /** A handle is to the object in the map, and is counted there. */
  ghost predicate HandleOk(s: State, t: Tid)
    requires t in s.threads
  {
    var th := s.threads[t];
    HandleOf(th).Some? ==>
      && th.op.key in s.locks && s.locks[th.op.key] == HandleOf(th).value
      && HandleOf(th).value in s.objs && t in s.objs[HandleOf(th).value].handles
  }

  /** An object counts the threads that have handles to it, and knows who is inside. */
  ghost predicate ObjOk(s: State, h: LockId)
    requires h in s.objs
  {
    var l := s.objs[h];
    && (forall t :: t in l.handles ==> t in s.threads && HandleOf(s.threads[t]) == D.Some(h))
    && (forall t :: t in l.readers <==> t in s.threads && ReadGuard(s.threads[t]) == D.Some(h))
    && (forall t :: l.writer == D.Some(t) <==> t in s.threads && WriteGuard(s.threads[t]) == D.Some(h))
    && (l.writer.Some? ==> l.readers == {})
  }

  /** The mutex of the map is held for a sweep and for nothing else that takes more than a step. */
  ghost predicate MutexOk(s: State) {
    && (forall t :: s.mutex == D.Some(t) <==> t in s.threads && Sweeps(s.threads[t]))
    && (forall t, k :: t in s.threads && Sweeps(s.threads[t]) && k in s.threads[t].at.todo ==> k in s.locks)
  }

  ghost predicate LocksOk(s: State) {
    && MapOk(s)
    && MutexOk(s)
    && (forall t :: t in s.threads ==> HandleOk(s, t))
    && (forall h :: h in s.objs ==> ObjOk(s, h))
  }

  // ---------- what it gives ----------

  /** All handles for a path are to one object, and it is the one in the map. */
  lemma OneLockPerPath(s: State, t: Tid, u: Tid)
    requires LocksOk(s) && t in s.threads && u in s.threads
    requires HandleOf(s.threads[t]).Some? && HandleOf(s.threads[u]).Some?
    ensures HandleOf(s.threads[t]) == HandleOf(s.threads[u]) <==> s.threads[t].op.key == s.threads[u].op.key
    ensures s.threads[t].op.key in s.locks && s.locks[s.threads[t].op.key] == HandleOf(s.threads[t]).value
  {
    assert HandleOk(s, t) && HandleOk(s, u);
  }

  /** Two threads inside the lock of one path are both readers. */
  lemma Exclusion(s: State, t: Tid, u: Tid)
    requires LocksOk(s) && t in s.threads && u in s.threads && t != u
    requires Inside(s.threads[t]).Some? && Inside(s.threads[u]).Some?
    requires s.threads[t].op.key == s.threads[u].op.key
    ensures s.threads[t].op.Read? && s.threads[u].op.Read?
  {
    OneLockPerPath(s, t, u);
    assert HandleOk(s, t);
    assert ObjOk(s, HandleOf(s.threads[t]).value);
  }

  // ---------- every step keeps it ----------

  /** A step of `t` that leaves its handle, its guard, the map and the mutex as they are. */
  ghost predicate SameLocking(s: State, t: Tid, s': State) {
    && t in s.threads && s'.threads.Keys == s.threads.Keys
    && s'.locks == s.locks && s'.objs == s.objs && s'.nextLock == s.nextLock && s'.mutex == s.mutex
    && (forall u :: u in s.threads && u != t ==> s'.threads[u] == s.threads[u])
    && HandleOf(s'.threads[t]) == HandleOf(s.threads[t])
    && ReadGuard(s'.threads[t]) == ReadGuard(s.threads[t])
    && WriteGuard(s'.threads[t]) == WriteGuard(s.threads[t])
    && (HandleOf(s.threads[t]).Some? ==> s'.threads[t].op.key == s.threads[t].op.key)
    && !Sweeps(s.threads[t]) && !Sweeps(s'.threads[t])
  }

  lemma SameLockingKeeps(s: State, t: Tid, s': State)
    requires LocksOk(s) && SameLocking(s, t, s')
    ensures LocksOk(s')
  {
    forall u | u in s'.threads ensures HandleOk(s', u) {
      assert HandleOk(s, u);
    }
    forall h | h in s'.objs ensures ObjOk(s', h) {
      assert ObjOk(s, h);
    }
  }

  lemma WriteSameLocking(s: State, t: Tid, op: Op, at: Point, w: WriteAction)
    requires t in s.threads && s.threads[t] == Busy(op, at) && CanWrite(s, op, at, w)
    ensures SameLocking(s, t, DoWrite(s, t, op, at, w))
  {
  }

  lemma ReadSameLocking(s: State, t: Tid, op: Op, at: Point, r: ReadAction)
    requires t in s.threads && s.threads[t] == Busy(op, at) && CanRead(s, op, at, r)
    ensures SameLocking(s, t, DoRead(s, t, op, at, r))
  {
  }

  lemma RemoveSameLocking(s: State, t: Tid, op: Op, at: Point, m: RemoveAction)
    requires t in s.threads && s.threads[t] == Busy(op, at) && CanRemove(op, at, m)
    ensures SameLocking(s, t, DoRemove(s, t, op, at, m))
  {
  }

  lemma ListSameLocking(s: State, t: Tid, op: Op, at: Point, l: ListAction)
    requires t in s.threads && s.threads[t] == Busy(op, at) && CanList(s, op, at, l)
    ensures SameLocking(s, t, DoList(s, t, op, at, l))
  {
  }

  lemma FlushSameLocking(s: State, t: Tid, op: Op, at: Point)
    requires t in s.threads && s.threads[t] == Busy(op, at) && CanFlush(op, at)
    ensures SameLocking(s, t, DoFlush(s, t, op, at))
  {
  }

  lemma FailSameLocking(s: State, t: Tid, op: Op, at: Point)
    requires t in s.threads && s.threads[t] == Busy(op, at) && DoesIo(op, at)
    ensures SameLocking(s, t, To(s, t, op, Finish(at, Err(Io))))
  {
  }

  lemma MiscSameLocking(s: State, t: Tid, a: Action)
    requires Enabled(s, t, a) && (a.Call? || a.Leave? || a == OfSweep(Count))
    ensures SameLocking(s, t, After(s, t, a))
  {
  }

  // ---------- steps that take, enter, leave and drop locks ----------

  ghost predicate HandlesOk(s: State) {
    forall t :: t in s.threads ==> HandleOk(s, t)
  }

  /** No thread has a handle to an object not yet made. */
  lemma NobodyHas(s: State, h: LockId)
    requires HandlesOk(s) && h !in s.objs
    ensures forall u :: u in s.threads ==> HandleOf(s.threads[u]) != D.Some(h)
  {
    forall u | u in s.threads ensures HandleOf(s.threads[u]) != D.Some(h) {
      assert HandleOk(s, u);
    }
  }

  lemma GetLockMap(s: State, t: Tid, op: Op, at: Point)
    requires MapOk(s) && MutexOk(s) && t in s.threads && s.threads[t] == Busy(op, at) && CanLock(s, op, at, GetLock)
    ensures var s' := DoLock(s, t, op, at, GetLock); MapOk(s') && MutexOk(s')
  {
  }

  lemma GetLockHandle(s: State, t: Tid, op: Op, at: Point, u: Tid)
    requires MapOk(s) && HandlesOk(s)
    requires t in s.threads && s.threads[t] == Busy(op, at) && CanLock(s, op, at, GetLock) && u in s.threads
    ensures HandleOk(DoLock(s, t, op, at, GetLock), u)
  {
    assert HandleOk(s, u);
  }

  lemma GetLockObj(s: State, t: Tid, op: Op, at: Point, h: LockId)
    requires MapOk(s) && HandlesOk(s)
    requires t in s.threads && s.threads[t] == Busy(op, at) && CanLock(s, op, at, GetLock)
    requires h in s.objs && ObjOk(s, h)
    ensures ObjOk(DoLock(s, t, op, at, GetLock), h)
  {
    hide HandleOk;
  }

  lemma NewLockObj(s: State, t: Tid, op: Op, at: Point)
    requires MapOk(s) && HandlesOk(s) && !op.List? && op.key !in s.locks
    requires t in s.threads && s.threads[t] == Busy(op, at) && CanLock(s, op, at, GetLock)
    ensures ObjOk(DoLock(s, t, op, at, GetLock), s.nextLock)
  {
    NobodyHas(s, s.nextLock);
  }

  lemma GetLockKeeps(s: State, t: Tid, op: Op, at: Point)
    requires LocksOk(s) && t in s.threads && s.threads[t] == Busy(op, at) && CanLock(s, op, at, GetLock)
    ensures LocksOk(DoLock(s, t, op, at, GetLock))
  {
    var s' := DoLock(s, t, op, at, GetLock);
    GetLockMap(s, t, op, at);
    forall u | u in s'.threads ensures HandleOk(s', u) {
      GetLockHandle(s, t, op, at, u);
    }
    forall h | h in s'.objs ensures ObjOk(s', h) {
      if h in s.objs { GetLockObj(s, t, op, at, h); } else { NewLockObj(s, t, op, at); }
    }
  }

  lemma LockStepMap(s: State, t: Tid, op: Op, at: Point, k: LockAction)
    requires MapOk(s) && MutexOk(s) && t in s.threads && s.threads[t] == Busy(op, at)
    requires CanLock(s, op, at, k) && !k.GetLock?
    ensures var s' := DoLock(s, t, op, at, k); MapOk(s') && MutexOk(s')
  {
  }

  lemma LockStepHandle(s: State, t: Tid, op: Op, at: Point, k: LockAction, u: Tid)
    requires HandlesOk(s)
    requires t in s.threads && s.threads[t] == Busy(op, at) && CanLock(s, op, at, k) && !k.GetLock? && u in s.threads
    ensures HandleOk(DoLock(s, t, op, at, k), u)
  {
    assert HandleOk(s, u);
  }

  lemma AcquireObj(s: State, t: Tid, op: Op, at: Point, g: LockId)
    requires t in s.threads && s.threads[t] == Busy(op, at) && CanLock(s, op, at, Acquire)
    requires g in s.objs && ObjOk(s, at.h) && ObjOk(s, g)
    ensures ObjOk(DoLock(s, t, op, at, Acquire), g)
  {
  }

  lemma ReleaseObj(s: State, t: Tid, op: Op, at: Point, g: LockId)
    requires t in s.threads && s.threads[t] == Busy(op, at) && CanLock(s, op, at, Release)
    requires g in s.objs && ObjOk(s, at.h) && ObjOk(s, g)
    ensures ObjOk(DoLock(s, t, op, at, Release), g)
  {
  }

  lemma DropObj(s: State, t: Tid, op: Op, at: Point, g: LockId)
    requires t in s.threads && s.threads[t] == Busy(op, at) && CanLock(s, op, at, Drop)
    requires g in s.objs && ObjOk(s, at.h) && ObjOk(s, g)
    ensures ObjOk(DoLock(s, t, op, at, Drop), g)
  {
  }

  /** Entering, leaving and dropping a lock change one object and the thread that does it. */
  lemma LockStepKeeps(s: State, t: Tid, op: Op, at: Point, k: LockAction)
    requires LocksOk(s) && t in s.threads && s.threads[t] == Busy(op, at) && CanLock(s, op, at, k) && !k.GetLock?
    ensures LocksOk(DoLock(s, t, op, at, k))
  {
    var s' := DoLock(s, t, op, at, k);
    LockStepMap(s, t, op, at, k);
    forall u | u in s'.threads ensures HandleOk(s', u) {
      LockStepHandle(s, t, op, at, k, u);
    }
    forall g | g in s'.objs ensures ObjOk(s', g) {
      match k {
        case Acquire => AcquireObj(s, t, op, at, g);
        case Release => ReleaseObj(s, t, op, at, g);
        case Drop => DropObj(s, t, op, at, g);
      }
    }
  }

  lemma MutexStepMap(s: State, t: Tid, op: Op, at: Point, g: SweepAction)
    requires MapOk(s) && MutexOk(s) && t in s.threads && s.threads[t] == Busy(op, at) && CanSweep(s, at, g)
    requires g.StartSweep? || g.EndSweep?
    ensures var s' := DoSweep(s, t, op, at, g); MapOk(s') && MutexOk(s')
  {
  }

  lemma MutexStepThread(s: State, t: Tid, op: Op, at: Point, g: SweepAction, u: Tid)
    requires t in s.threads && s.threads[t] == Busy(op, at) && CanSweep(s, at, g) && (g.StartSweep? || g.EndSweep?)
    requires u in s.threads && HandleOk(s, u)
    ensures HandleOk(DoSweep(s, t, op, at, g), u)
  {
  }

  lemma MutexStepObj(s: State, t: Tid, op: Op, at: Point, g: SweepAction, h: LockId)
    requires t in s.threads && s.threads[t] == Busy(op, at) && CanSweep(s, at, g) && (g.StartSweep? || g.EndSweep?)
    requires h in s.objs && ObjOk(s, h)
    ensures ObjOk(DoSweep(s, t, op, at, g), h)
  {
  }

  lemma MutexStepKeeps(s: State, t: Tid, op: Op, at: Point, g: SweepAction)
    requires LocksOk(s) && t in s.threads && s.threads[t] == Busy(op, at) && CanSweep(s, at, g)
    requires g.StartSweep? || g.EndSweep?
    ensures LocksOk(DoSweep(s, t, op, at, g))
  {
    MutexStepMap(s, t, op, at, g);
    hide MapOk;
    hide MutexOk;
    hide HandleOk;
    hide ObjOk;
    var s' := DoSweep(s, t, op, at, g);
    forall u | u in s'.threads ensures HandleOk(s', u) {
      MutexStepThread(s, t, op, at, g, u);
    }
    forall h | h in s'.objs ensures ObjOk(s', h) {
      MutexStepObj(s, t, op, at, g, h);
    }
  }

  /** The collector keeps an entry exactly when some thread has a handle for its path. */
  lemma VisitIsExact(s: State, t: Tid, op: Op, at: Point, k: Key)
    requires LocksOk(s) && t in s.threads && s.threads[t] == Busy(op, at) && CanSweep(s, at, Visit(k))
    ensures k in DoSweep(s, t, op, at, Visit(k)).locks <==>
      exists u :: u in s.threads && HandleOf(s.threads[u]).Some? && s.threads[u].op.key == k
    ensures forall l :: l != k ==> (l in DoSweep(s, t, op, at, Visit(k)).locks <==> l in s.locks)
  {
    var h := s.locks[k];
    assert ObjOk(s, h);
    if s.objs[h].handles != {} {
      var u :| u in s.objs[h].handles;
      assert HandleOk(s, u);
    }
    forall u | u in s.threads && HandleOf(s.threads[u]).Some? && s.threads[u].op.key == k
      ensures u in s.objs[h].handles
    {
      assert HandleOk(s, u);
    }
  }

  lemma VisitMap(s: State, t: Tid, op: Op, at: Point, k: Key)
    requires MapOk(s) && MutexOk(s) && t in s.threads && s.threads[t] == Busy(op, at) && CanSweep(s, at, Visit(k))
    ensures var s' := DoSweep(s, t, op, at, Visit(k)); MapOk(s') && MutexOk(s')
  {
    assert s.mutex == D.Some(t);
  }

  lemma VisitKeeps(s: State, t: Tid, op: Op, at: Point, k: Key)
    requires LocksOk(s) && t in s.threads && s.threads[t] == Busy(op, at) && CanSweep(s, at, Visit(k))
    ensures LocksOk(DoSweep(s, t, op, at, Visit(k)))
  {
    VisitMap(s, t, op, at, k);
    VisitIsExact(s, t, op, at, k);
    var s' := DoSweep(s, t, op, at, Visit(k));
    forall u | u in s'.threads ensures HandleOk(s', u) {
      VisitHandle(s, t, op, at, k, u);
    }
    forall h | h in s'.objs ensures ObjOk(s', h) {
      VisitObj(s, t, op, at, k, h);
    }
  }

  lemma VisitHandle(s: State, t: Tid, op: Op, at: Point, k: Key, u: Tid)
    requires t in s.threads && s.threads[t] == Busy(op, at) && CanSweep(s, at, Visit(k))
    requires u in s.threads && HandleOk(s, u)
    requires HandleOf(s.threads[u]).Some? && s.threads[u].op.key == k ==> k in DoSweep(s, t, op, at, Visit(k)).locks
    ensures HandleOk(DoSweep(s, t, op, at, Visit(k)), u)
  {
  }

  lemma VisitObj(s: State, t: Tid, op: Op, at: Point, k: Key, h: LockId)
    requires t in s.threads && s.threads[t] == Busy(op, at) && CanSweep(s, at, Visit(k))
    requires h in s.objs && ObjOk(s, h)
    ensures ObjOk(DoSweep(s, t, op, at, Visit(k)), h)
  {
  }

  lemma LocksKept(s: State, t: Tid, a: Action)
    requires LocksOk(s) && Enabled(s, t, a)
    ensures LocksOk(After(s, t, a))
  {
    var s' := After(s, t, a);
    if a.OfLock? {
      var op, at := s.threads[t].op, s.threads[t].at;
      if a.k.GetLock? { GetLockKeeps(s, t, op, at); } else { LockStepKeeps(s, t, op, at, a.k); }
    } else if a.OfSweep? && a.g != Count {
      var op, at := s.threads[t].op, s.threads[t].at;
      if a.g.Visit? { VisitKeeps(s, t, op, at, a.g.k); } else { MutexStepKeeps(s, t, op, at, a.g); }
    } else {
      match a {
        case OfWrite(w) => WriteSameLocking(s, t, s.threads[t].op, s.threads[t].at, w);
        case OfRead(r) => ReadSameLocking(s, t, s.threads[t].op, s.threads[t].at, r);
        case OfRemove(m) => RemoveSameLocking(s, t, s.threads[t].op, s.threads[t].at, m);
        case OfList(l) => ListSameLocking(s, t, s.threads[t].op, s.threads[t].at, l);
        case Flush => FlushSameLocking(s, t, s.threads[t].op, s.threads[t].at);
        case Fail => FailSameLocking(s, t, s.threads[t].op, s.threads[t].at);
        case _ => MiscSameLocking(s, t, a);
      }
      SameLockingKeeps(s, t, s');
    }
  }
}
