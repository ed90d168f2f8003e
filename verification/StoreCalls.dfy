/**
  What a call answers and why: where its errors come from, which of its successes are counted,
  when the counting collects locks, and what a restart leaves of it.
*/
module StoreCalls {
  import opened Names
  import opened KvSpec
  import opened StoreMachine
  import opened StoreLocks
  import opened StoreData
  import opened StoreTheorems
  import D = Directory

  // ---------- errors ----------

  /** The call has this result now, and had none before. */
  predicate Gains(at: Point, th: Thread, res: Result) {
    th.Busy? && ResultAt(th.at) == D.Some(res) && ResultAt(at) == D.None
  }

  /** What a process sees at the key's file. */
  ghost function Sees(s: State, k: Key): D.Option<D.Bytes> {
    D.Visible(FolderAt(s, k.dir), k.name)
  }

  lemma SeesFile(s: State, op: Op, k: Key)
    requires Inv(s) && k.dir == if op.List? then op.dir else op.key.dir
    ensures Sees(s, k) == D.None <==> D.KeyName(k.name) !in Home(s, op).vol
    ensures Sees(s, k) != D.None ==> ValidStr(s.rules, k.name)
  {
    hide LocksOk;
    hide NumbersOk;
    hide ThreadOk;
    hide ValidStr;
    HomeOk(s, op);
    LinkedHasFile(Home(s, op), D.KeyName(k.name));
    if Sees(s, k) != D.None {
      VisibleMayRead(Home(s, op), k.name);
    }
  }

  lemma ReadGains(s: State, t: Tid, op: Op, at: Point, r: ReadAction, why: Error)
    requires CanRead(s, op, at, r) && Gains(at, DoRead(s, t, op, at, r).threads[t], Err(why))
    ensures r == Open && why == NotFound && D.KeyName(op.key.name) !in Home(s, op).vol
  {
  }

  lemma RemoveGains(s: State, t: Tid, op: Op, at: Point, m: RemoveAction, why: Error)
    requires CanRemove(op, at, m) && Gains(at, DoRemove(s, t, op, at, m).threads[t], Err(why))
    ensures m == Delete && why == NotFound && D.KeyName(op.key.name) !in Home(s, op).vol
  {
  }

  lemma ListGains(s: State, t: Tid, op: Op, at: Point, l: ListAction, why: Error)
    requires CanList(s, op, at, l) && Gains(at, DoList(s, t, op, at, l).threads[t], Err(why))
    ensures l == Examine && why == Io && at.e.KeyName?
    ensures at.e !in Home(s, op).vol || !ValidStr(s.rules, at.e.name)
  {
  }

  lemma WriteGains(s: State, t: Tid, op: Op, at: Point, w: WriteAction, res: Result)
    requires CanWrite(s, op, at, w)
    ensures !Gains(at, DoWrite(s, t, op, at, w).threads[t], res)
  {
  }

  lemma LockGains(s: State, t: Tid, op: Op, at: Point, k: LockAction, res: Result)
    requires CanLock(s, op, at, k)
    ensures !Gains(at, DoLock(s, t, op, at, k).threads[t], res)
  {
  }

  lemma SweepGains(s: State, t: Tid, op: Op, at: Point, g: SweepAction, res: Result)
    requires CanSweep(s, at, g)
    ensures !Gains(at, DoSweep(s, t, op, at, g).threads[t], res)
  {
  }

  /** A call misses a file only where there is none to see, and has any other error of an I/O
      operation, or of a file gone as it was being listed: every file there is has a valid name. */
  lemma ErrorsAreHonest(s: State, t: Tid, a: Action, s': State, why: Error)
    requires Inv(s) && Enabled(s, t, a) && !a.Call? && s' == After(s, t, a) && t in s'.threads
    requires Gains(s.threads[t].at, s'.threads[t], Err(why))
    ensures why == NotFound || why == Io
    ensures why == NotFound ==>
      (a == OfRead(Open) || a == OfRemove(Delete)) && Sees(s, s.threads[t].op.key) == D.None
    ensures why == Io && a != Fail ==>
      a == OfList(Examine) && Sees(s, Key(s.threads[t].op.dir, s.threads[t].at.e.name)) == D.None
  {
    hide Inv;
    hide Gains;
    hide DoWrite;
    hide DoRead;
    hide DoRemove;
    hide DoList;
    hide DoLock;
    hide DoSweep;
    hide ValidStr;
    hide Sees;
    var op, at := s.threads[t].op, s.threads[t].at;
    match a {
      case OfWrite(w) => WriteGains(s, t, op, at, w, Err(why));
      case OfRead(r) =>
        ReadGains(s, t, op, at, r, why);
        SeesFile(s, op, op.key);
      case OfRemove(m) =>
        RemoveGains(s, t, op, at, m, why);
        SeesFile(s, op, op.key);
      case OfList(l) =>
        ListGains(s, t, op, at, l, why);
        SeesFile(s, op, Key(op.dir, at.e.name));
      case OfLock(k) => LockGains(s, t, op, at, k, Err(why));
      case OfSweep(g) => SweepGains(s, t, op, at, g, Err(why));
      case _ => OthersGain(s, t, a, why);
    }
  }

  lemma OthersGain(s: State, t: Tid, a: Action, why: Error)
    requires Enabled(s, t, a) && (a == Flush || a == Fail || a == Leave)
    requires Gains(s.threads[t].at, After(s, t, a).threads[t], Err(why))
    ensures a == Fail && why == Io
  {
  }

  /** A call is refused, before it does anything, just when its names are. */
  lemma CallBegins(s: State, t: Tid, op: Op)
    requires Enabled(s, t, Action.Call(op))
    ensures var s' := After(s, t, Action.Call(op));
      && s' == s.(threads := s.threads[t := s'.threads[t]]) && s'.threads[t].Busy? && s'.threads[t].op == op
      && (ResultAt(s'.threads[t].at) == D.None <==> Check(s.rules, op) == Fine)
      && (ResultAt(s'.threads[t].at) != D.None ==>
            exists bad :: Check(s.rules, op) == Refused(bad) && s'.threads[t].at == Returning(Err(Invalid(bad))))
  {
  }

  /** The actions that ask the file system for something, and can be told no. */
  predicate IsIo(op: Op, a: Action) {
    match a
    case OfWrite(w) => w != DrawNumber
    case OfRead(_) => true
    case OfRemove(m) => m == Delete
    case Flush => !(op.Remove? && op.lazy)
    case OfList(l) => l != MissDir
    case _ => false
  }

  /** Whatever a call asks of the file system can fail, and then the call has failed, with no more
      done to the files than before. */
  lemma AnyIoCanFail(s: State, t: Tid, a: Action)
    requires Enabled(s, t, a) && !a.Call? && IsIo(s.threads[t].op, a)
    ensures Enabled(s, t, Fail) && After(s, t, Fail).folders == s.folders
    ensures Gains(s.threads[t].at, After(s, t, Fail).threads[t], Err(Io))
  {
  }

  // ---------- what is counted ----------

  /** Only successes are counted. */
  predicate CountsSuccess(th: Thread) {
    th.Busy? && (th.at.Counting? || th.at.WantSweep? || th.at.Sweeping?) ==> !th.at.res.Err?
  }

  /** A success is on its way back now: it was counted, or it was that nothing is there. */
  predicate EndsWell(a: Action, th: Thread) {
    th.Busy? && th.at.Returning? && !th.at.res.Err? ==>
      || a == OfSweep(Count) || a == OfSweep(EndSweep)
      || a == OfRemove(CheckFile) || a == OfRemove(MissFile) || a == OfList(OpenDir) || a == OfList(MissDir)
  }

  lemma WriteCounts(s: State, t: Tid, op: Op, at: Point, w: WriteAction)
    requires CanWrite(s, op, at, w)
    ensures var th := DoWrite(s, t, op, at, w).threads[t]; CountsSuccess(th) && EndsWell(OfWrite(w), th)
    ensures DoWrite(s, t, op, at, w).gcCounter == s.gcCounter
  {
  }

  lemma ReadCounts(s: State, t: Tid, op: Op, at: Point, r: ReadAction)
    requires CanRead(s, op, at, r)
    ensures var th := DoRead(s, t, op, at, r).threads[t]; CountsSuccess(th) && EndsWell(OfRead(r), th)
    ensures DoRead(s, t, op, at, r).gcCounter == s.gcCounter
  {
  }

  lemma RemoveCounts(s: State, t: Tid, op: Op, at: Point, m: RemoveAction)
    requires CanRemove(op, at, m)
    ensures var th := DoRemove(s, t, op, at, m).threads[t]; CountsSuccess(th) && EndsWell(OfRemove(m), th)
    ensures DoRemove(s, t, op, at, m).gcCounter == s.gcCounter
  {
  }

  lemma ListCounts(s: State, t: Tid, op: Op, at: Point, l: ListAction)
    requires CanList(s, op, at, l)
    ensures var th := DoList(s, t, op, at, l).threads[t]; CountsSuccess(th) && EndsWell(OfList(l), th)
    ensures DoList(s, t, op, at, l).gcCounter == s.gcCounter
  {
    hide ValidStr;
  }

  lemma LockCounts(s: State, t: Tid, op: Op, at: Point, k: LockAction)
    requires CanLock(s, op, at, k)
    ensures var th := DoLock(s, t, op, at, k).threads[t]; CountsSuccess(th) && EndsWell(OfLock(k), th)
    ensures DoLock(s, t, op, at, k).gcCounter == s.gcCounter
  {
  }

  lemma SweepCounts(s: State, t: Tid, op: Op, at: Point, g: SweepAction)
    requires CanSweep(s, at, g) && CountsSuccess(Busy(op, at))
    ensures var th := DoSweep(s, t, op, at, g).threads[t]; CountsSuccess(th) && EndsWell(OfSweep(g), th)
  {
  }

  /** A failure ends without being counted; and a success is counted, unless it was that there was
      nothing to remove or to list. */
  lemma SuccessIsCounted(s: State, t: Tid, a: Action, s': State)
    requires Enabled(s, t, a) && s' == After(s, t, a) && t in s'.threads && CountsSuccess(s.threads[t])
    ensures CountsSuccess(s'.threads[t]) && EndsWell(a, s'.threads[t])
  {
    hide CountsSuccess;
    hide EndsWell;
    hide DoWrite;
    hide DoRead;
    hide DoRemove;
    hide DoList;
    hide DoLock;
    hide DoSweep;
    hide ValidStr;
    if a.Call? || a == Flush || a == Fail || a == Leave {
      OthersCount(s, t, a);
    } else {
      var op, at := s.threads[t].op, s.threads[t].at;
      match a {
        case OfWrite(w) => WriteCounts(s, t, op, at, w);
        case OfRead(r) => ReadCounts(s, t, op, at, r);
        case OfRemove(m) => RemoveCounts(s, t, op, at, m);
        case OfList(l) => ListCounts(s, t, op, at, l);
        case OfLock(k) => LockCounts(s, t, op, at, k);
        case OfSweep(g) => SweepCounts(s, t, op, at, g);
      }
    }
  }

  lemma OthersCount(s: State, t: Tid, a: Action)
    requires Enabled(s, t, a) && (a.Call? || a == Flush || a == Fail || a == Leave)
    ensures CountsSuccess(After(s, t, a).threads[t]) && EndsWell(a, After(s, t, a).threads[t])
  {
    hide ValidStr;
  }

  lemma {:induction false} FailuresAreNotCounted(run: seq<State>, steps: seq<Step>, n: nat, t: Tid)
    requires IsExecution(run, steps) && n <= |steps| && t in run[n].threads
    ensures CountsSuccess(run[n].threads[t])
  {
    hide CountsSuccess;
    hide After;
    hide CanDo;
    hide CrashesTo;
    if n == 0 {
      IdleCountsNothing(run[0].threads[t]);
    } else {
      var s, step := run[n-1], steps[n-1];
      assert StepTo(s, step, run[n]);
      OnlyItsThread(s, step, run[n], t);
      if step.Do? {
        FailuresAreNotCounted(run, steps, n - 1, t);
        if step.t == t {
          SuccessIsCounted(s, t, step.a, run[n]);
        }
      } else {
        IdleCountsNothing(run[n].threads[t]);
      }
    }
  }

  lemma IdleCountsNothing(th: Thread)
    requires th.Idle?
    ensures CountsSuccess(th)
  {
  }

  lemma OnlyItsThread(s: State, step: Step, s': State, t: Tid)
    requires StepTo(s, step, s') && t in s'.threads
    ensures t in s.threads
    ensures !step.Do? ==> s'.threads[t].Idle?
    ensures step.Do? && step.t != t ==> s'.threads[t] == s.threads[t]
  {
    hide DoWrite;
    hide DoRead;
    hide DoRemove;
    hide DoList;
    hide DoLock;
    hide DoSweep;
    hide CanDo;
    hide CrashesTo;
    if step.Do? && !step.a.Call? {
      ActionIsOwn(s, step.t, step.a);
    }
  }

  /** How many of the first `n` steps have counted a success since the process last began. */
  function CountsSince(steps: seq<Step>, n: nat): nat
    requires n <= |steps|
  {
    if n == 0 || !steps[n-1].Do? then 0
    else CountsSince(steps, n - 1) + if steps[n-1].a == OfSweep(Count) then 1 else 0
  }

  lemma CounterSteps(s: State, step: Step, s': State)
    requires StepTo(s, step, s')
    ensures s'.gcCounter == if !step.Do? then 1
                            else if step.a == OfSweep(Count) then s.gcCounter + 1 else s.gcCounter
  {
    hide CountsSuccess;
    hide EndsWell;
    hide DoWrite;
    hide DoRead;
    hide DoRemove;
    hide DoList;
    hide DoLock;
    hide DoSweep;
    hide CrashesTo;
    hide ValidStr;
    if step.Do? && !step.a.Call? {
      var t := step.t;
      var op, at := s.threads[t].op, s.threads[t].at;
      match step.a {
        case OfWrite(w) => WriteCounts(s, t, op, at, w);
        case OfRead(r) => ReadCounts(s, t, op, at, r);
        case OfRemove(m) => RemoveCounts(s, t, op, at, m);
        case OfList(l) => ListCounts(s, t, op, at, l);
        case OfLock(k) => LockCounts(s, t, op, at, k);
        case OfSweep(g) => SweepCounter(s, t, op, at, g);
        case _ =>
      }
    }
  }

  lemma SweepCounter(s: State, t: Tid, op: Op, at: Point, g: SweepAction)
    requires CanSweep(s, at, g)
    ensures DoSweep(s, t, op, at, g).gcCounter == if g == Count then s.gcCounter + 1 else s.gcCounter
  {
  }

  lemma {:induction false} CounterCounts(run: seq<State>, steps: seq<Step>, n: nat)
    requires IsExecution(run, steps) && n <= |steps|
    ensures run[n].gcCounter == 1 + CountsSince(steps, n)
  {
    hide StepTo;
    if n > 0 {
      CounterCounts(run, steps, n - 1);
      assert StepTo(run[n-1], steps[n-1], run[n]);
      CounterSteps(run[n-1], steps[n-1], run[n]);
    }
  }

  /** Every twenty-fifth success since the process began goes on to collect locks, and no other. */
  lemma EveryTwentyFifth(run: seq<State>, steps: seq<Step>, n: nat, t: Tid)
    requires IsExecution(run, steps) && n < |steps| && steps[n] == Do(t, OfSweep(Count))
    ensures t in run[n+1].threads && run[n+1].threads[t].Busy?
    ensures run[n+1].threads[t].at.WantSweep? || run[n+1].threads[t].at.Returning?
    ensures run[n+1].threads[t].at.WantSweep? <==> CountsSince(steps, n + 1) % 25 == 0
  {
    hide StepTo;
    CounterCounts(run, steps, n);
    assert StepTo(run[n], steps[n], run[n+1]);
    CountGoesOn(run[n], t, run[n+1]);
  }

  lemma CountGoesOn(s: State, t: Tid, s': State)
    requires StepTo(s, Do(t, OfSweep(Count)), s')
    ensures t in s'.threads && s'.threads[t].Busy?
    ensures var at := s'.threads[t].at;
      (at.WantSweep? || at.Returning?) && (at.WantSweep? <==> s.gcCounter % 25 == 0)
  {
  }

  // ---------- restarts ----------

  /** After a kill or a power loss the store is one that begins anew, over files that are whole; only
      a power loss has changed anything in them. */
  lemma RestartIsNew(run: seq<State>, steps: seq<Step>, n: nat)
    requires IsExecution(run, steps) && n < |steps| && !steps[n].Do?
    ensures Init(run[n+1]) && run[n+1].rules == run[n].rules && run[n+1].threads.Keys == run[n].threads.Keys
    ensures steps[n] == Kill ==> run[n+1].folders == run[n].folders
    ensures run[n+1].folders.Keys == run[n].folders.Keys
  {
    hide Inv;
    hide CrashesTo;
    hide D.Valid;
    hide KeysNamed;
    ExecutionInv(run, steps, 0);
    InvAlong(run, steps, n);
    InvAlong(run, steps, n + 1);
    assert StepTo(run[n], steps[n], run[n+1]);
    InvHasFolders(run[n+1]);
  }

  lemma InvHasFolders(s: State)
    requires Inv(s)
    ensures forall d :: d in s.folders ==> D.Valid(s.folders[d]) && KeysNamed(s.rules, s.folders[d])
  {
  }
}
