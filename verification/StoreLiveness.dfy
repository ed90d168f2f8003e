/** The store cannot lock itself up: while any call is in progress, some thread can go on. */
module StoreLiveness {
  import opened Names
  import opened KvSpec
  import opened StoreMachine
  import opened StoreLocks
  import opened StoreData
  import D = Directory

  /** Thread `t` can take a step that is neither a new call nor an error. */
  ghost predicate CanGoOn(s: State, t: Tid) {
    exists a: Action :: !a.Call? && a != Fail && Enabled(s, t, a)
  }

  /** The thread waits for the lock of its path, or for the mutex of the lock map. */
  predicate Waits(th: Thread) {
    th.Busy? && (th.at.NeedLock? || th.at.WantSweep? || (th.at.Held? && th.at.stage.Waiting?))
  }

  lemma LockedGoesOn(s: State, t: Tid, op: Op, h: LockId, tmp: D.Option<nat>)
    requires At(s, t, op, Held(h, Locked(tmp)))
    ensures CanGoOn(s, t)
  {
    hide FoldersOk;
    hide NumbersOk;
    if op.Read? {
      assert Enabled(s, t, OfRead(Open));
    } else if op.Write? {
      assert Enabled(s, t, OfWrite(Install));
    } else {
      assert Enabled(s, t, OfRemove(Delete));
    }
  }

  lemma ReadingGoesOn(s: State, t: Tid, op: Op, h: LockId, ino: D.Ino, got: D.Bytes)
    requires At(s, t, op, Held(h, Reading(ino, got)))
    ensures CanGoOn(s, t)
  {
    hide FoldersOk;
    hide NumbersOk;
    var rest := |Home(s, op).files[ino].bytes| - |got|;
    if rest == 0 {
      assert Enabled(s, t, OfRead(ReadEnd));
    } else {
      assert Enabled(s, t, OfRead(ReadSome(rest)));
    }
  }

  lemma LeavingGoesOn(s: State, t: Tid, op: Op, h: LockId, stage: Stage)
    requires At(s, t, op, Held(h, stage)) && HandleOk(s, t) && (stage.Changed? || stage.Unlocking? || stage.Dropping?)
    ensures CanGoOn(s, t)
  {
    hide FoldersOk;
    hide NumbersOk;
    match stage
    case Changed => assert Enabled(s, t, Flush);
    case Unlocking(_) => assert Enabled(s, t, OfLock(Release));
    case Dropping(_) => assert Enabled(s, t, OfLock(Drop));
  }

  lemma InsideGoesOn(s: State, t: Tid, op: Op, h: LockId, stage: Stage)
    requires Inv(s) && t in s.threads && s.threads[t] == Busy(op, Held(h, stage)) && !stage.Waiting?
    ensures CanGoOn(s, t)
  {
    hide CanGoOn;
    assert At(s, t, op, Held(h, stage)) && HandleOk(s, t);
    match stage
    case Locked(tmp) => LockedGoesOn(s, t, op, h, tmp);
    case Reading(ino, got) => ReadingGoesOn(s, t, op, h, ino, got);
    case _ => LeavingGoesOn(s, t, op, h, stage);
  }

  lemma SweeperGoesOn(s: State, t: Tid)
    requires LocksOk(s) && t in s.threads && Sweeps(s.threads[t])
    ensures CanGoOn(s, t)
  {
    var todo := s.threads[t].at.todo;
    if todo == {} {
      assert Enabled(s, t, OfSweep(EndSweep));
    } else {
      var k :| k in todo;
      assert Enabled(s, t, OfSweep(Visit(k)));
    }
  }

  lemma ScanGoesOn(s: State, t: Tid, d: Dir, at: Point)
    requires t in s.threads && s.threads[t] == Busy(List(d), at) && at.Scanning?
    ensures CanGoOn(s, t)
  {
    var op := List(d);
    if CanList(s, op, at, EndScan) {
      assert Enabled(s, t, OfList(EndScan));
    } else {
      var e :| e in at.snap && StillThere(at.snap, Home(s, op).vol, e) && e !in at.seen;
      assert Enabled(s, t, OfList(NextEntry(e)));
    }
  }

  lemma OthersGoOn(s: State, t: Tid, op: Op, at: Point)
    requires Inv(s) && t in s.threads && s.threads[t] == Busy(op, at)
    requires !Waits(s.threads[t]) && !at.Held? && !at.Sweeping? && !at.Scanning?
    ensures CanGoOn(s, t)
  {
    hide D.Valid;
    hide LocksOk;
    assert ThreadOk(s, t);
    match at
    case Start =>
      var first := if op.Write? then OfWrite(MakeDir) else if op.Remove? then OfRemove(CheckFile) else OfList(OpenDir);
      assert Enabled(s, t, first);
    case DirMade => assert Enabled(s, t, OfWrite(DrawNumber));
    case Named(_) => assert Enabled(s, t, OfWrite(CreateTemp));
    case Filling(_, _, pos) => assert Enabled(s, t, OfWrite(if pos == |op.buf| then SyncTemp else Put(|op.buf| - pos)));
    case Examining(_, _, _, _) => assert Enabled(s, t, OfList(Examine));
    case Counting(_) => assert Enabled(s, t, OfSweep(Count));
    case Returning(_) => assert Enabled(s, t, Leave);
  }

  /** A thread that waits for nothing can go on. */
  lemma RunnerGoesOn(s: State, t: Tid)
    requires Inv(s) && t in s.threads && s.threads[t].Busy? && !Waits(s.threads[t])
    ensures CanGoOn(s, t)
  {
    hide CanGoOn;
    var op, at := s.threads[t].op, s.threads[t].at;
    assert ThreadOk(s, t);
    if at.Held? {
      InsideGoesOn(s, t, op, at.h, at.stage);
    } else if at.Sweeping? {
      SweeperGoesOn(s, t);
    } else if at.Scanning? {
      ScanGoesOn(s, t, op.dir, at);
    } else {
      OthersGoOn(s, t, op, at);
    }
  }

  lemma WaiterOrHolder(s: State, t: Tid, op: Op, at: Point) returns (u: Tid)
    requires At(s, t, op, at) && at.Held? && at.stage.Waiting? && HandleOk(s, t)
    requires at.h in s.objs ==> ObjOk(s, at.h)
    ensures u in s.threads && s.threads[u].Busy? && (u == t || !Waits(s.threads[u]))
    ensures u == t ==> CanGoOn(s, t)
  {
    hide FoldersOk;
    hide NumbersOk;
    u := t;
    var l := s.objs[at.h];
    if l.writer.Some? {
      u := l.writer.value;
    } else if !op.Read? && l.readers != {} {
      u :| u in l.readers;
    } else {
      assert Enabled(s, t, OfLock(Acquire));
    }
  }

  /** What a waiting thread waits for is held by a thread that does not wait. */
  lemma WaiterOrRunner(s: State, t: Tid) returns (u: Tid)
    requires Inv(s) && t in s.threads && Waits(s.threads[t])
    ensures u in s.threads && s.threads[u].Busy? && (u == t || !Waits(s.threads[u]))
    ensures u == t ==> CanGoOn(s, t)
  {
    hide FoldersOk;
    hide NumbersOk;
    u := t;
    var op, at := s.threads[t].op, s.threads[t].at;
    assert ThreadOk(s, t) && HandleOk(s, t);
    if at.Held? {
      u := WaiterOrHolder(s, t, op, at);
    } else if s.mutex.Some? {
      u := s.mutex.value;
      assert Sweeps(s.threads[u]);
    } else if at.NeedLock? {
      assert Enabled(s, t, OfLock(GetLock));
    } else {
      assert Enabled(s, t, OfSweep(StartSweep));
    }
  }

  /** No deadlock: if any call is in progress, some thread can take a step of its call. */
  lemma SomeoneGoesOn(s: State, t: Tid)
    requires Inv(s) && t in s.threads && s.threads[t].Busy?
    ensures exists u :: u in s.threads && CanGoOn(s, u)
  {
    hide Inv;
    hide CanGoOn;
    if Waits(s.threads[t]) {
      var u := WaiterOrRunner(s, t);
      if u != t {
        RunnerGoesOn(s, u);
      }
    } else {
      RunnerGoesOn(s, t);
    }
  }

  lemma NoDeadlock(run: seq<State>, steps: seq<Step>, n: nat, t: Tid)
    requires IsExecution(run, steps) && n <= |steps| && t in run[n].threads && run[n].threads[t].Busy?
    ensures exists u :: u in run[n].threads && CanGoOn(run[n], u)
  {
    hide StepTo;
    hide Inv;
    ExecutionInv(run, steps, n);
    SomeoneGoesOn(run[n], t);
  }
}
