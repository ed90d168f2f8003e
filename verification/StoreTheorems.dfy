/**
  What the store guarantees to those who call it, over every execution: any number of threads,
  any interleaving, any I/O errors, any number of kills and power losses.
*/
module StoreTheorems {
  import opened Names
  import opened KvSpec
  import opened StoreMachine
  import opened StoreLocks
  import opened StoreData
  import opened StoreRefinement
  import D = Directory

  // ---------- the run of the specification under an execution ----------

  ghost function AbsRun(run: seq<State>): (abs: seq<Spec>)
    ensures |abs| == |run| && forall i :: 0 <= i < |run| ==> abs[i] == Abs(run[i])
  {
    seq(|run|, i requires 0 <= i < |run| => Abs(run[i]))
  }

  ghost predicate Follows(run: seq<State>, steps: seq<Step>) {
    |run| == |steps| + 1 && forall i :: 0 <= i < |steps| ==> StepTo(run[i], steps[i], run[i+1])
  }

  function Events(run: seq<State>, steps: seq<Step>): (evs: seq<Event>)
    requires |run| == |steps| + 1
    requires forall i :: 0 <= i < |steps| && steps[i].Do? ==> Enabled(run[i], steps[i].t, steps[i].a)
    ensures |evs| == |steps|
    ensures forall i :: 0 <= i < |steps| ==> evs[i] == EventOfStep(run[i], steps[i], run[i+1])
  {
    seq(|steps|, i requires 0 <= i < |steps| => EventOfStep(run[i], steps[i], run[i+1]))
  }

  lemma FollowsEnabled(run: seq<State>, steps: seq<Step>)
    requires Follows(run, steps)
    ensures forall i :: 0 <= i < |steps| && steps[i].Do? ==> Enabled(run[i], steps[i].t, steps[i].a)
  {
    forall i | 0 <= i < |steps| && steps[i].Do? ensures Enabled(run[i], steps[i].t, steps[i].a) {
      assert StepTo(run[i], steps[i], run[i+1]);
    }
  }

  lemma {:induction false} InvAlong(run: seq<State>, steps: seq<Step>, n: nat)
    requires Follows(run, steps) && Inv(run[0]) && n <= |steps|
    ensures Inv(run[n]) && run[n].rules == run[0].rules
  {
    hide Inv;
    hide StepTo;
    if n > 0 {
      InvAlong(run, steps, n - 1);
      assert StepTo(run[n-1], steps[n-1], run[n]);
      StepInv(run[n-1], steps[n-1], run[n]);
    }
  }

  /** Every execution, from any of its states on, is a run of the specification. */
  lemma ExecutionRefines(run: seq<State>, steps: seq<Step>)
    requires Follows(run, steps) && Inv(run[0])
    ensures forall i :: 0 <= i < |steps| && steps[i].Do? ==> Enabled(run[i], steps[i].t, steps[i].a)
    ensures IsRun(run[0].rules, AbsRun(run), Events(run, steps))
  {
    hide Inv;
    hide StepTo;
    hide Moves;
    hide Abs;
    hide EventOfStep;
    FollowsEnabled(run, steps);
    var abs, evs := AbsRun(run), Events(run, steps);
    forall i | 0 <= i < |steps| ensures Moves(run[0].rules, abs[i], evs[i], abs[i+1]) {
      InvAlong(run, steps, i);
      assert StepTo(run[i], steps[i], run[i+1]);
      StepRefines(run[i], steps[i], run[i+1]);
    }
  }

  // ---------- what a caller can see of a step ----------

  /** The step renames a file onto the path of `k`, or unlinks it. */
  ghost predicate Alters(s: State, step: Step, k: Key) {
    && step.Do? && step.t in s.threads && s.threads[step.t].Busy?
    && ((step.a == OfWrite(Install) && s.threads[step.t].op.Write? && s.threads[step.t].op.key == k)
        || (step.a == OfRemove(Delete) && s.threads[step.t].op.Remove? && s.threads[step.t].op.key == k))
  }

  lemma ChangesAlters(run: seq<State>, steps: seq<Step>, i: nat, k: Key)
    requires Follows(run, steps) && i < |steps|
    requires forall i :: 0 <= i < |steps| && steps[i].Do? ==> Enabled(run[i], steps[i].t, steps[i].a)
    requires Changes(AbsRun(run), Events(run, steps), i, k)
    ensures Alters(run[i], steps[i], k)
    ensures AbsRun(run)[i].calls[Events(run, steps)[i].t].op == run[i].threads[steps[i].t].op
  {
    hide KvOf;
    hide MayOf;
    assert StepTo(run[i], steps[i], run[i+1]);
  }

  // ---------- reads ----------

  /** The bytes a read has put together are those of its key at the moment it finds the end. */
  lemma ReadIsCurrent(s: State, t: Tid)
    requires Inv(s) && Enabled(s, t, OfRead(ReadEnd))
    ensures VisibleAt(s, s.threads[t].op.key) == D.Some(s.threads[t].at.stage.got)
  {
    assert ThreadOk(s, t);
    var op, at := s.threads[t].op, s.threads[t].at;
    var bytes := Home(s, op).files[at.stage.ino].bytes;
    assert at.stage.got == bytes[..|at.stage.got|] == bytes;
  }

  /** Without a power loss, whatever fails and however often the process is killed, a key has the
      whole buffer of the last write renamed to it, or is absent since the last unlink. */
  lemma VisibleIsLastWritten(run: seq<State>, steps: seq<Step>, n: nat, k: Key)
    requires Follows(run, steps) && Inv(run[0]) && n <= |steps|
    requires forall i :: 0 <= i < n ==> steps[i] != PowerLoss
    ensures forall i :: 0 <= i < |steps| && steps[i].Do? ==> Enabled(run[i], steps[i].t, steps[i].a)
    ensures VisibleAt(run[n], k) == LastEffect(AbsRun(run), Events(run, steps), n, k)
  {
    hide Inv;
    hide Abs;
    hide Moves;
    ExecutionRefines(run, steps);
    LookupIsVisible(run[n], k);
    var evs := Events(run, steps);
    forall i | 0 <= i < n ensures evs[i] != Event.Crash {
      NoCrashEvent(run[i], steps[i], run[i+1]);
    }
    KvIsLastEffect(run[0].rules, AbsRun(run), evs, n, k);
  }

  /** So a successful read returns the complete buffer of the last write renamed into place. */
  lemma ReadReturnsLastWritten(run: seq<State>, steps: seq<Step>, n: nat, t: Tid)
    requires Follows(run, steps) && Inv(run[0]) && n < |steps|
    requires forall i :: 0 <= i < n ==> steps[i] != PowerLoss
    requires steps[n] == Do(t, OfRead(ReadEnd))
    ensures forall i :: 0 <= i < |steps| && steps[i].Do? ==> Enabled(run[i], steps[i].t, steps[i].a)
    ensures t in run[n].threads && run[n].threads[t].Busy? && run[n].threads[t].op.Read?
    ensures run[n].threads[t].at.Held? && run[n].threads[t].at.stage.Reading?
    ensures var k, got := run[n].threads[t].op.key, run[n].threads[t].at.stage.got;
      LastEffect(AbsRun(run), Events(run, steps), n, k) == D.Some(got)
  {
    hide Inv;
    hide Abs;
    hide LastEffect;
    InvAlong(run, steps, n);
    assert StepTo(run[n], steps[n], run[n+1]);
    ReadIsCurrent(run[n], t);
    VisibleIsLastWritten(run, steps, n, run[n].threads[t].op.key);
  }

  lemma NoCrashEvent(s: State, step: Step, s': State)
    requires step != PowerLoss && (step.Do? ==> Enabled(s, step.t, step.a))
    ensures EventOfStep(s, step, s') != Event.Crash
  {
  }

  // ---------- power loss ----------

  /** Never a torn or mixed buffer: after a power loss at any time, a key that was not so before
      the execution reads as absent or as all that some write of it, renamed by then, was given. */
  lemma CrashIsAtomic(run: seq<State>, steps: seq<Step>, n: nat, crashed: State, k: Key, b: D.Bytes)
    requires Follows(run, steps) && Inv(run[0]) && n <= |steps| && Crashes(run[n], crashed)
    requires VisibleAt(crashed, k) == D.Some(b) || VisibleAt(run[n], k) == D.Some(b)
    ensures MayReadAt(run[0], k, D.Some(b)) ||
      exists j :: 0 <= j < n && Alters(run[j], steps[j], k) && run[j].threads[steps[j].t].op == Write(k, b)
  {
    hide Inv;
    hide Moves;
    hide KvOf;
    hide CallsOf;
    hide Alters;
    ExecutionRefines(run, steps);
    InvAlong(run, steps, n);
    var abs, evs := AbsRun(run), Events(run, steps);
    CrashMayRead(run[n], crashed, k);
    LookupIsVisible(run[n], k);
    ValuesAreWritten(run[0].rules, abs, evs, n, k, b);
    LookupIsVisible(run[0], k);
    if Lookup(abs[0], k) == D.Some(b) {
      VisibleMayReadAt(run[0], k);
    } else if !MayReadAt(run[0], k, D.Some(b)) {
      var j :| 0 <= j < n && Changes(abs, evs, j, k) && abs[j].calls[evs[j].t].op == Write(k, b);
      ChangesAlters(run, steps, j, k);
    }
  }

  lemma CrashMayRead(s: State, crashed: State, k: Key)
    requires Inv(s) && Crashes(s, crashed)
    ensures MayReadAt(s, k, VisibleAt(crashed, k))
  {
    CrashShows(s, crashed);
  }

  lemma VisibleMayReadAt(s: State, k: Key)
    requires Inv(s) && VisibleAt(s, k).Some?
    ensures MayReadAt(s, k, VisibleAt(s, k))
  {
    HomeOk(s, Read(k));
    VisibleMayRead(FolderAt(s, k.dir), k.name);
  }

  /** The step syncs the directory of `k`, or is a power loss: what is seen of `k` is on disk. */
  ghost predicate Syncs(s: State, step: Step, d: Dir) {
    || step == PowerLoss
    || (step.Do? && step.a == Flush && step.t in s.threads && s.threads[step.t].Busy?
        && (s.threads[step.t].op.Write? || (s.threads[step.t].op.Remove? && !s.threads[step.t].op.lazy))
        && s.threads[step.t].op.key.dir == d)
  }

  lemma SyncIsSettled(s: State, step: Step, s': State, k: Key)
    requires Inv(s) && StepTo(s, step, s') && Syncs(s, step, k.dir)
    ensures IsSettled(Abs(s'), k)
  {
    hide Inv;
    hide KvOf;
    hide MayOf;
    hide CallsOf;
    hide Moves;
    StepRefines(s, step, s');
    if step.Do? {
      CallHasOp(s, step.t);
      SettleSettles(s.rules, Abs(s), step.t, Abs(s'), k);
    } else {
      CrashLeavesSettled(s.rules, Abs(s), Abs(s'), k);
    }
  }

  lemma CallHasOp(s: State, t: Tid)
    requires t in s.threads && s.threads[t].Busy?
    ensures t in CallsOf(s) && CallsOf(s)[t].Call? && CallsOf(s)[t].op == s.threads[t].op
  {
  }

  /** After a power loss a key reads as it really did at some moment since its directory was last
      synced: never lost, never older than that. */
  lemma CrashIsRecent(run: seq<State>, steps: seq<Step>, m: nat, n: nat, crashed: State, k: Key)
    requires Follows(run, steps) && Inv(run[0]) && m < n <= |steps|
    requires Syncs(run[m], steps[m], k.dir) && Crashes(run[n], crashed)
    ensures exists j :: m < j <= n && VisibleAt(crashed, k) == VisibleAt(run[j], k)
  {
    hide Inv;
    hide Moves;
    hide Abs;
    hide StepTo;
    InvAlong(run, steps, m);
    InvAlong(run, steps, m + 1);
    assert StepTo(run[m], steps[m], run[m+1]);
    SyncIsSettled(run[m], steps[m], run[m+1], k);
    SuffixFollows(run, steps, m + 1);
    var j := CrashFromSettled(run[m+1..], steps[m+1..], n - m - 1, crashed, k);
    assert run[m+1..][j] == run[m+1+j];
  }

  lemma CrashFromSettled(run: seq<State>, steps: seq<Step>, n: nat, crashed: State, k: Key) returns (j: nat)
    requires Follows(run, steps) && Inv(run[0]) && n <= |steps|
    requires IsSettled(Abs(run[0]), k) && Crashes(run[n], crashed)
    ensures j <= n && VisibleAt(crashed, k) == VisibleAt(run[j], k)
  {
    hide Inv;
    hide Moves;
    hide Abs;
    hide StepTo;
    hide Crashes;
    hide IsSettled;
    ExecutionRefines(run, steps);
    InvAlong(run, steps, n);
    CrashMayReadAbs(run[n], crashed, k);
    CrashGivesRecentValue(run[0].rules, AbsRun(run), Events(run, steps), n, k, VisibleAt(crashed, k));
    j :| 0 <= j <= n && Lookup(AbsRun(run)[j], k) == VisibleAt(crashed, k);
    LookupIsVisible(run[j], k);
  }

  lemma CrashMayReadAbs(s: State, crashed: State, k: Key)
    requires Inv(s) && Crashes(s, crashed)
    ensures (k, VisibleAt(crashed, k)) in Abs(s).may
  {
    hide Inv;
    CrashMayRead(s, crashed, k);
  }

  lemma SuffixFollows(run: seq<State>, steps: seq<Step>, m: nat)
    requires Follows(run, steps) && m <= |steps|
    ensures Follows(run[m..], steps[m..])
  {
    hide StepTo;
    forall i | 0 <= i < |steps[m..]| ensures StepTo(run[m..][i], steps[m..][i], run[m..][i+1]) {
      assert StepTo(run[m+i], steps[m+i], run[m+i+1]);
    }
  }

  /** Once synced, a key keeps its value until the next rename or unlink at its path, whatever
      happens to other keys of its directory and however often the power fails. */
  lemma SyncedEndures(run: seq<State>, steps: seq<Step>, m: nat, n: nat, k: Key)
    requires Follows(run, steps) && Inv(run[0]) && m < n <= |steps|
    requires Syncs(run[m], steps[m], k.dir)
    requires forall i :: m < i < n ==> !Alters(run[i], steps[i], k)
    ensures VisibleAt(run[n], k) == VisibleAt(run[m+1], k)
  {
    hide Inv;
    hide Moves;
    hide Abs;
    hide StepTo;
    hide Alters;
    InvAlong(run, steps, m);
    InvAlong(run, steps, m + 1);
    assert StepTo(run[m], steps[m], run[m+1]);
    SyncIsSettled(run[m], steps[m], run[m+1], k);
    var run', steps' := run[m+1..], steps[m+1..];
    SuffixFollows(run, steps, m + 1);
    ExecutionRefines(run', steps');
    var abs, evs := AbsRun(run'), Events(run', steps');
    forall i | 0 <= i < n - m - 1 ensures !Changes(abs, evs, i, k) {
      assert !Alters(run[m + 1 + i], steps[m + 1 + i], k);
      if Changes(abs, evs, i, k) {
        ChangesAlters(run', steps', i, k);
      }
    }
    SettledEndures(run'[0].rules, abs, evs, n - m - 1, k);
    LookupIsVisible(run[n], k);
    LookupIsVisible(run[m+1], k);
  }

  // ---------- a call that returned Ok ----------

  /** The result a call has come to. */
  function ResultAt(at: Point): D.Option<Result> {
    match at
    case Held(_, Unlocking(res)) => D.Some(res)
    case Held(_, Dropping(res)) => D.Some(res)
    case Counting(res) => D.Some(res)
    case WantSweep(res) => D.Some(res)
    case Sweeping(res, _) => D.Some(res)
    case Returning(res) => D.Some(res)
    case _ => D.None
  }

  /** Thread `t` is in a write or a removal about to say Ok. */
  ghost predicate SaysOk(s: State, t: Tid) {
    && t in s.threads && s.threads[t].Busy?
    && (s.threads[t].op.Write? || s.threads[t].op.Remove?) && ResultAt(s.threads[t].at) == D.Some(Done)
  }

  /** The actions that can bring a write or a removal its Ok. */
  predicate BringsOk(a: Action) {
    a == Flush || a == OfRemove(CheckFile) || a == OfRemove(MissFile)
  }

  /** An action is its own thread's: it goes on with its call. */
  ghost predicate OwnStep(s: State, t: Tid, op: Op, s': State) {
    && t in s'.threads && s'.threads == s.threads[t := s'.threads[t]]
    && s.tmpCounter <= s'.tmpCounter
    && (s'.threads[t].Busy? ==> s'.threads[t].op == op)
  }

  /** The call has its Ok now and had it not before. */
  ghost predicate GainsOk(op: Op, at: Point, th: Thread) {
    th.Busy? && (op.Write? || op.Remove?) && ResultAt(th.at) == D.Some(Done) && ResultAt(at) != D.Some(Done)
  }

  lemma WriteIsOwn(s: State, t: Tid, op: Op, at: Point, w: WriteAction)
    requires CanWrite(s, op, at, w)
    ensures var s' := DoWrite(s, t, op, at, w); OwnStep(s, t, op, s') && !GainsOk(op, at, s'.threads[t])
  {
  }

  lemma ReadIsOwn(s: State, t: Tid, op: Op, at: Point, r: ReadAction)
    requires CanRead(s, op, at, r)
    ensures var s' := DoRead(s, t, op, at, r); OwnStep(s, t, op, s') && !GainsOk(op, at, s'.threads[t])
  {
  }

  lemma RemoveIsOwn(s: State, t: Tid, op: Op, at: Point, m: RemoveAction)
    requires CanRemove(op, at, m)
    ensures var s' := DoRemove(s, t, op, at, m);
      OwnStep(s, t, op, s') && (GainsOk(op, at, s'.threads[t]) ==> !m.Delete?)
  {
  }

  lemma ListIsOwn(s: State, t: Tid, op: Op, at: Point, l: ListAction)
    requires CanList(s, op, at, l)
    ensures var s' := DoList(s, t, op, at, l); OwnStep(s, t, op, s') && !GainsOk(op, at, s'.threads[t])
  {
  }

  lemma LockIsOwn(s: State, t: Tid, op: Op, at: Point, k: LockAction)
    requires CanLock(s, op, at, k)
    ensures var s' := DoLock(s, t, op, at, k); OwnStep(s, t, op, s') && !GainsOk(op, at, s'.threads[t])
  {
  }

  lemma SweepIsOwn(s: State, t: Tid, op: Op, at: Point, g: SweepAction)
    requires CanSweep(s, at, g)
    ensures var s' := DoSweep(s, t, op, at, g); OwnStep(s, t, op, s') && !GainsOk(op, at, s'.threads[t])
  {
  }

  lemma ActionIsOwn(s: State, t: Tid, a: Action)
    requires Enabled(s, t, a) && !a.Call?
    ensures OwnStep(s, t, s.threads[t].op, After(s, t, a))
    ensures GainsOk(s.threads[t].op, s.threads[t].at, After(s, t, a).threads[t]) ==> BringsOk(a)
  {
    var op, at := s.threads[t].op, s.threads[t].at;
    match a {
      case OfWrite(w) => WriteIsOwn(s, t, op, at, w);
      case OfRead(r) => ReadIsOwn(s, t, op, at, r);
      case OfRemove(m) => RemoveIsOwn(s, t, op, at, m);
      case Flush =>
      case OfList(l) => ListIsOwn(s, t, op, at, l);
      case OfLock(k) => LockIsOwn(s, t, op, at, k);
      case OfSweep(g) => SweepIsOwn(s, t, op, at, g);
      case Fail =>
      case Leave =>
    }
  }

  lemma OkComesFrom(s: State, step: Step, s': State, t: Tid)
    requires StepTo(s, step, s') && SaysOk(s', t)
    ensures t in s.threads && s.threads[t].Busy? && s.threads[t].op == s'.threads[t].op
    ensures SaysOk(s, t) || (step.Do? && step.t == t && BringsOk(step.a))
  {
    hide DoWrite;
    hide DoRead;
    hide DoRemove;
    hide DoList;
    hide DoLock;
    hide DoSweep;
    hide DoFlush;
    hide CanDo;
    if step.Do? && !step.a.Call? {
      ActionIsOwn(s, step.t, step.a);
    }
  }

  ghost predicate InCall(s: State, t: Tid, op: Op) {
    t in s.threads && s.threads[t].Busy? && s.threads[t].op == op
  }

  /** Step `m` brought the call that thread `t` is in at `n` its Ok, which it has had since. */
  ghost predicate GotOkAt(run: seq<State>, steps: seq<Step>, m: nat, n: nat, t: Tid)
    requires m < n < |run| == |steps| + 1
  {
    && steps[m].Do? && steps[m].t == t && BringsOk(steps[m].a)
    && forall i :: m < i <= n ==> SaysOk(run[i], t) && InCall(run[m], t, run[i].threads[t].op)
  }

  lemma {:induction false} OkWasBrought(run: seq<State>, steps: seq<Step>, n: nat, t: Tid) returns (m: nat)
    requires Follows(run, steps) && n <= |steps|
    requires SaysOk(run[n], t) && !SaysOk(run[0], t)
    ensures m < n && GotOkAt(run, steps, m, n, t)
    decreases n
  {
    hide StepTo;
    hide ResultAt;
    assert StepTo(run[n-1], steps[n-1], run[n]);
    OkComesFrom(run[n-1], steps[n-1], run[n], t);
    if SaysOk(run[n-1], t) {
      m := OkWasBrought(run, steps, n - 1, t);
    } else {
      m := n - 1;
    }
  }

  /** A write that says Ok has synced its directory, in this very call. */
  lemma OkMeansSynced(run: seq<State>, steps: seq<Step>, n: nat, t: Tid) returns (m: nat)
    requires Follows(run, steps) && n <= |steps|
    requires SaysOk(run[n], t) && !SaysOk(run[0], t) && run[n].threads[t].op.Write?
    ensures m < n && GotOkAt(run, steps, m, n, t) && steps[m] == Do(t, Flush)
  {
    m := OkWasBrought(run, steps, n, t);
    assert StepTo(run[m], steps[m], run[m+1]);
  }

  /** When a write or a removal syncs its directory, its effect is what everyone sees. */
  lemma SyncSeesEffect(s: State, t: Tid)
    requires Inv(s) && Enabled(s, t, Flush)
    ensures VisibleAt(After(s, t, Flush), s.threads[t].op.key) == Effect(s.threads[t].op)
    ensures Inv(After(s, t, Flush))
  {
    hide LocksOk;
    hide D.Valid;
    var op, at := s.threads[t].op, s.threads[t].at;
    assert At(s, t, op, at);
    ActionInv(s, t, Flush);
    if !(op.Remove? && op.lazy) {
      SyncOk(s, t, op, at);
    }
  }

  /** A write that said Ok is there to stay: from its sync on, until another rename or unlink at
      its path, its buffer is what every reader and every restart finds. */
  lemma OkWriteIsDurable(run: seq<State>, steps: seq<Step>, n: nat, t: Tid) returns (m: nat)
    requires Follows(run, steps) && Inv(run[0]) && n <= |steps|
    requires SaysOk(run[n], t) && !SaysOk(run[0], t) && run[n].threads[t].op.Write?
    ensures m < n && GotOkAt(run, steps, m, n, t) && steps[m] == Do(t, Flush)
    ensures KeepsFrom(run, steps, m, run[n].threads[t].op.key, D.Some(run[n].threads[t].op.buf))
  {
    hide StepTo;
    hide Inv;
    m := OkMeansSynced(run, steps, n, t);
    assert InCall(run[m], t, run[n].threads[t].op);
    FlushKeeps(run, steps, m, t);
  }

  /** The action that brings a removal its Ok leaves the key absent, unless the file was there and
      could not be looked at. */
  lemma RemovalIsHonest(s: State, t: Tid, a: Action)
    requires Inv(s) && Enabled(s, t, a) && BringsOk(a) && s.threads[t].op.Remove? && SaysOk(After(s, t, a), t)
    ensures var k := s.threads[t].op.key;
      VisibleAt(After(s, t, a), k) == D.None <==> a != OfRemove(MissFile) || VisibleAt(s, k) == D.None
  {
    hide Inv;
    if a == Flush {
      SyncSeesEffect(s, t);
    } else {
      assert FolderAt(After(s, t, a), s.threads[t].op.key.dir) == FolderAt(s, s.threads[t].op.key.dir);
    }
  }

  /** What Ok from a removal means: the key was absent as it got its Ok if and only if it had not
      taken a file it could not look at to be absent. If it synced, the key stays so. */
  lemma OkRemovalIsExact(run: seq<State>, steps: seq<Step>, n: nat, t: Tid) returns (m: nat)
    requires Follows(run, steps) && Inv(run[0]) && n <= |steps|
    requires SaysOk(run[n], t) && !SaysOk(run[0], t) && run[n].threads[t].op.Remove?
    ensures m < n && GotOkAt(run, steps, m, n, t)
    ensures var k := run[n].threads[t].op.key;
      VisibleAt(run[m+1], k) == D.None <==> steps[m].a != OfRemove(MissFile) || VisibleAt(run[m], k) == D.None
    ensures steps[m].a == Flush && !run[n].threads[t].op.lazy ==>
      KeepsFrom(run, steps, m, run[n].threads[t].op.key, D.None)
  {
    hide Inv;
    hide After;
    hide VisibleAt;
    hide KeepsFrom;
    m := OkWasBrought(run, steps, n, t);
    InvAlong(run, steps, m);
    assert StepTo(run[m], steps[m], run[m+1]);
    assert SaysOk(run[m+1], t) && InCall(run[m], t, run[n].threads[t].op);
    RemovalIsHonest(run[m], t, steps[m].a);
    if steps[m].a == Flush && !run[n].threads[t].op.lazy {
      FlushKeeps(run, steps, m, t);
    }
  }

  /** How a listing comes to its names: at the end of a scan, or, with none, because there is no
      directory or because it cannot be looked at. No names is then the truth if and only if there
      was no directory, or no key in it. */
  lemma ListingIsHonest(s: State, t: Tid, a: Action, s': State, d: Dir, names: seq<string>)
    requires Inv(s) && StepTo(s, Do(t, a), s') && InCall(s, t, List(d)) && ResultAt(s.threads[t].at).None?
    requires InCall(s', t, List(d)) && ResultAt(s'.threads[t].at) == D.Some(Keys(names))
    ensures a == OfList(OpenDir) || a == OfList(MissDir) || a == OfList(EndScan)
    ensures a != OfList(EndScan) ==> names == [] && (NoKeysIn(s', d) <==> a == OfList(OpenDir) || NoKeysIn(s, d))
  {
    hide Inv;
    hide NoKeysIn;
    if a == OfList(OpenDir) || a == OfList(MissDir) {
      NoDirNoKeys(s, s', d);
    }
  }

  ghost predicate NoKeysIn(s: State, d: Dir) {
    forall name :: VisibleAt(s, Key(d, name)) == D.None
  }

  lemma NoDirNoKeys(s: State, s': State, d: Dir)
    requires s'.folders == s.folders
    ensures d !in s.folders ==> NoKeysIn(s, d)
    ensures NoKeysIn(s', d) <==> NoKeysIn(s, d)
  {
    forall name ensures VisibleAt(s', Key(d, name)) == VisibleAt(s, Key(d, name)) {
      assert FolderAt(s', d) == FolderAt(s, d);
    }
  }

  /** From step `m` on, key `k` reads as `v` as long as no step renames or unlinks at its path. */
  ghost predicate KeepsFrom(run: seq<State>, steps: seq<Step>, m: nat, k: Key, v: D.Option<D.Bytes>)
    requires |run| == |steps| + 1
  {
    forall j :: m < j <= |steps| && (forall i :: m < i < j ==> !Alters(run[i], steps[i], k)) ==>
      VisibleAt(run[j], k) == v
  }

  /** So is what a write, or a removal that is not lazy, did before it synced the directory. */
  lemma FlushKeeps(run: seq<State>, steps: seq<Step>, m: nat, t: Tid)
    requires Follows(run, steps) && Inv(run[0]) && m < |steps| && steps[m] == Do(t, Flush)
    requires t in run[m].threads && run[m].threads[t].Busy?
    requires run[m].threads[t].op.Write? || (run[m].threads[t].op.Remove? && !run[m].threads[t].op.lazy)
    ensures KeepsFrom(run, steps, m, run[m].threads[t].op.key, Effect(run[m].threads[t].op))
  {
    hide Inv;
    hide Alters;
    var op := run[m].threads[t].op;
    InvAlong(run, steps, m);
    assert StepTo(run[m], steps[m], run[m+1]);
    SyncSeesEffect(run[m], t);
    hide StepTo;
    forall j | m < j <= |steps| && (forall i :: m < i < j ==> !Alters(run[i], steps[i], op.key))
      ensures VisibleAt(run[j], op.key) == Effect(op)
    {
      SyncedEndures(run, steps, m, j, op.key);
    }
  }

  // ---------- listing ----------

  /** Thread `t` is in the middle of a scan of `d` in every state from `m` to `n`. */
  ghost predicate ScansFrom(run: seq<State>, t: Tid, d: Dir, m: nat, n: nat)
    requires n < |run|
  {
    forall i :: m <= i <= n ==>
      InCall(run[i], t, List(d)) && (run[i].threads[t].at.Scanning? || run[i].threads[t].at.Examining?)
  }

  /** Nothing of namespace `d` is renamed or unlinked in the steps from `m` to `n`. */
  ghost predicate DirQuiet(run: seq<State>, steps: seq<Step>, d: Dir, m: nat, n: nat)
    requires n <= |steps| < |run|
  {
    forall i, k: Key :: m <= i < n && k.dir == d ==> !Alters(run[i], steps[i], k)
  }

  lemma ScanStarts(s: State, t: Tid)
    requires Inv(s) && Enabled(s, t, OfList(OpenDir)) && s.threads[t].op.dir in s.folders
    ensures var s' := After(s, t, OfList(OpenDir)); var d := s.threads[t].op.dir;
      Inv(s') && HasCall(Abs(s'), t, List(d), Scan([], NamesIn(Abs(s'), d)))
  {
    hide LocksOk;
    hide KvOf;
    hide MayOf;
    var s' := After(s, t, OfList(OpenDir));
    ActionInv(s, t, OfList(OpenDir));
    OpenDirShows(s', s.threads[t].op.dir);
  }

  lemma ScanCalls(run: seq<State>, t: Tid, d: Dir, n: nat)
    requires n < |run| && ScansFrom(run, t, d, 0, n)
    ensures KvSpec.Scanning(AbsRun(run), t, d, n)
  {
    hide KvOf;
    hide MayOf;
    forall i | 0 <= i <= n
      ensures t in AbsRun(run)[i].calls && AbsRun(run)[i].calls[t].Call?
      ensures AbsRun(run)[i].calls[t].op == List(d) && AbsRun(run)[i].calls[t].status.Scan?
    {
      assert run[i].threads[t].op == List(d);
    }
  }

  lemma ScanEvent(s: State, t: Tid, s': State)
    requires Enabled(s, t, OfList(EndScan))
    ensures EventOfStep(s, Do(t, OfList(EndScan)), s') == Answer(t, Keys(s.threads[t].at.found))
  {
  }

  lemma KeysAreVisible(s: State, d: Dir)
    ensures forall name :: Key(d, name) in Abs(s).kv <==> VisibleAt(s, Key(d, name)).Some?
  {
  }

  lemma QuietIsUntouched(run: seq<State>, steps: seq<Step>, d: Dir, n: nat)
    requires Follows(run, steps) && n <= |steps| && DirQuiet(run, steps, d, 0, n)
    requires forall i :: 0 <= i < |steps| && steps[i].Do? ==> Enabled(run[i], steps[i].t, steps[i].a)
    ensures forall name :: Untouched(AbsRun(run), Events(run, steps), n, Key(d, name))
  {
    hide Alters;
    hide StepTo;
    hide Changes;
    hide Abs;
    forall name, i | 0 <= i < n ensures !Changes(AbsRun(run), Events(run, steps), i, Key(d, name)) {
      if Changes(AbsRun(run), Events(run, steps), i, Key(d, name)) {
        ChangesAlters(run, steps, i, Key(d, name));
      }
    }
  }

  /** A listing during which its namespace is left alone names exactly the keys there, each once:
      no temporary file, whether in use or left over from a crash, is among them. */
  lemma ListIsExactly(run: seq<State>, steps: seq<Step>, n: nat, t: Tid, d: Dir)
    requires Follows(run, steps) && Inv(run[0]) && 0 < n < |steps|
    requires steps[0] == Do(t, OfList(OpenDir)) && t in run[0].threads && run[0].threads[t].Busy?
    requires run[0].threads[t].op == List(d) && d in run[0].folders
    requires ScansFrom(run, t, d, 1, n) && steps[n] == Do(t, OfList(EndScan)) && DirQuiet(run, steps, d, 1, n)
    ensures t in run[n].threads && run[n].threads[t].Busy? && run[n].threads[t].at.Scanning?
    ensures Distinct(run[n].threads[t].at.found)
    ensures forall name :: name in run[n].threads[t].at.found <==> VisibleAt(run[n], Key(d, name)).Some?
  {
    hide Inv;
    hide Abs;
    hide Moves;
    hide Alters;
    hide Untouched;
    hide VisibleAt;
    assert StepTo(run[0], steps[0], run[1]);
    assert StepTo(run[n], steps[n], run[n+1]);
    ScanStarts(run[0], t);
    ScanEvent(run[n], t, run[n+1]);
    hide StepTo;
    hide EventOfStep;
    SuffixFollows(run, steps, 1);
    var run', steps' := run[1..], steps[1..];
    ExecutionRefines(run', steps');
    ScanCalls(run', t, d, n - 1);
    var abs, evs := AbsRun(run'), Events(run', steps');
    var names := run[n].threads[t].at.found;
    QuietIsUntouched(run', steps', d, n - 1) by {
      forall i, k: Key | 0 <= i < n - 1 && k.dir == d ensures !Alters(run'[i], steps'[i], k) {
        assert !Alters(run[1 + i], steps[1 + i], k);
      }
    }
    ListIsExact(run'[0].rules, abs, evs, t, d, n - 1, names);
    KeysAreVisible(run[n], d);
  }

  // ---------- temporary files ----------

  lemma CounterGrows(s: State, step: Step, s': State)
    requires StepTo(s, step, s') && step.Do?
    ensures s.tmpCounter <= s'.tmpCounter
  {
    hide CanDo;
    hide DoWrite;
    hide DoRead;
    hide DoRemove;
    hide DoList;
    hide DoLock;
    hide DoSweep;
    if !step.a.Call? {
      ActionIsOwn(s, step.t, step.a);
    }
  }

  lemma DrawsNext(s: State, t: Tid)
    requires Enabled(s, t, OfWrite(DrawNumber))
    ensures var s' := After(s, t, OfWrite(DrawNumber));
      && s'.threads[t].Busy? && s'.threads[t].at == Named(s.tmpCounter) && s'.tmpCounter == s.tmpCounter + 1
  {
  }

  lemma {:induction false} CounterGrowsAlong(run: seq<State>, steps: seq<Step>, i: nat, j: nat)
    requires Follows(run, steps) && i <= j <= |steps|
    requires forall x :: 0 <= x < |steps| ==> steps[x].Do?
    ensures run[i].tmpCounter <= run[j].tmpCounter
    decreases j
  {
    hide StepTo;
    if i < j {
      CounterGrowsAlong(run, steps, i, j - 1);
      assert StepTo(run[j-1], steps[j-1], run[j]);
      CounterGrows(run[j-1], steps[j-1], run[j]);
    }
  }

  /** In the life of one instance no two writes ever use one temporary path, whatever their keys. */
  lemma TempPathsDiffer(run: seq<State>, steps: seq<Step>, i: nat, j: nat, t: Tid, u: Tid, root: string, k: Key, l: Key)
    requires Follows(run, steps) && i < j < |steps|
    requires forall x :: 0 <= x < |steps| ==> steps[x].Do?
    requires steps[i] == Do(t, OfWrite(DrawNumber)) && steps[j] == Do(u, OfWrite(DrawNumber))
    requires Sane(run[0].rules) && ProperRoot(root) && ValidKey(run[0].rules, k) && ValidKey(run[0].rules, l)
    ensures t in run[i+1].threads && run[i+1].threads[t].Busy? && run[i+1].threads[t].at.Named?
    ensures u in run[j+1].threads && run[j+1].threads[u].Busy? && run[j+1].threads[u].at.Named?
    ensures TempPath(root, k, run[i+1].threads[t].at.n) != TempPath(root, l, run[j+1].threads[u].at.n)
  {
    assert StepTo(run[i], steps[i], run[i+1]);
    assert StepTo(run[j], steps[j], run[j+1]);
    DrawsNext(run[i], t);
    DrawsNext(run[j], u);
    hide StepTo;
    CounterGrowsAlong(run, steps, i + 1, j);
    TempPathInjective(run[0].rules, root, k, run[i].tmpCounter, l, run[j].tmpCounter);
  }

  /** A temporary file, even one a restarted counter will name again and truncate, is no key's
      file: not now, and not after a power loss. */
  lemma TempIsNoKeyFile(run: seq<State>, steps: seq<Step>, n: nat, d: Dir, e: D.Entry, name: string)
    requires IsExecution(run, steps) && n <= |steps| && d in run[n].folders
    requires e.TempName? && e in run[n].folders[d].vol
    ensures !D.MayLink(run[n].folders[d], D.KeyName(name), run[n].folders[d].vol[e])
  {
    hide StepTo;
    hide LocksOk;
    ExecutionInv(run, steps, n);
    assert FolderOk(run[n].rules, run[n].folders[d]);
  }

  // ---------- locks, over executions ----------

  /** At any time in any execution, the threads inside the lock of one path are readers, or one. */
  lemma NoTwoWriters(run: seq<State>, steps: seq<Step>, n: nat, t: Tid, u: Tid)
    requires IsExecution(run, steps) && n <= |steps| && t != u
    requires t in run[n].threads && u in run[n].threads
    requires Inside(run[n].threads[t]).Some? && Inside(run[n].threads[u]).Some?
    requires run[n].threads[t].op.key == run[n].threads[u].op.key
    ensures run[n].threads[t].op.Read? && run[n].threads[u].op.Read?
  {
    hide StepTo;
    hide LocksOk;
    ExecutionInv(run, steps, n);
    Exclusion(run[n], t, u);
  }

  /** At any time in any execution, every handle for a path is to the one lock the map has for it. */
  lemma HandlesAgree(run: seq<State>, steps: seq<Step>, n: nat, t: Tid)
    requires IsExecution(run, steps) && n <= |steps| && t in run[n].threads && HandleOf(run[n].threads[t]).Some?
    ensures run[n].threads[t].op.key in run[n].locks
    ensures run[n].locks[run[n].threads[t].op.key] == HandleOf(run[n].threads[t]).value
  {
    hide StepTo;
    ExecutionInv(run, steps, n);
    OneLockPerPath(run[n], t, t);
  }

  // ---------- collecting locks, over executions ----------

  /** Some call has a handle to the lock of `k`. */
  ghost predicate Referenced(s: State, k: Key) {
    exists u :: u in s.threads && HandleOf(s.threads[u]).Some? && s.threads[u].op.key == k
  }

  /** While one thread collects, no other adds to the map or takes from it. */
  lemma OnlyTheSweeperCollects(s: State, t: Tid, u: Tid, a: Action)
    requires MutexOk(s) && t in s.threads && Sweeps(s.threads[t]) && u != t && Enabled(s, u, a)
    ensures After(s, u, a).locks == s.locks
    ensures t in After(s, u, a).threads && After(s, u, a).threads[t] == s.threads[t]
  {
    hide DoWrite;
    hide DoRead;
    hide DoRemove;
    hide DoList;
    hide DoFlush;
    hide Enter;
    assert s.mutex == D.Some(t);
    match a {
      case OfWrite(w) => WriteSameLocking(s, u, s.threads[u].op, s.threads[u].at, w);
      case OfRead(r) => ReadSameLocking(s, u, s.threads[u].op, s.threads[u].at, r);
      case OfRemove(m) => RemoveSameLocking(s, u, s.threads[u].op, s.threads[u].at, m);
      case OfList(l) => ListSameLocking(s, u, s.threads[u].op, s.threads[u].at, l);
      case Flush => FlushSameLocking(s, u, s.threads[u].op, s.threads[u].at);
      case Call(_) => MiscSameLocking(s, u, a);
      case OfSweep(_) => assert Sweeps(s.threads[u]) ==> s.mutex == D.Some(u);
      case _ =>
    }
  }

  /** Thread `t` is collecting in every state from `m` to `n`. */
  ghost predicate CollectsFrom(run: seq<State>, t: Tid, m: nat, n: nat)
    requires n < |run|
  {
    forall i :: m <= i <= n ==> t in run[i].threads && Sweeps(run[i].threads[t])
  }

  /** In steps `m` to `n`, thread `t` came by the entry of `k` as some call had a handle to it. */
  ghost predicate KeptOne(run: seq<State>, steps: seq<Step>, m: nat, n: nat, t: Tid, k: Key)
    requires n <= |steps| < |run|
  {
    exists i :: m < i < n && steps[i] == Do(t, OfSweep(Visit(k))) && Referenced(run[i], k)
  }

  /** During a collection: an entry the collector has not come by is there still, and one it has
      is there if and only if some call had a handle to it as the collector came by. */
  lemma {:induction false} CollectedSoFar(run: seq<State>, steps: seq<Step>, m: nat, n: nat, t: Tid, k: Key)
    requires Follows(run, steps) && Inv(run[0]) && m < n <= |steps|
    requires steps[m] == Do(t, OfSweep(StartSweep)) && CollectsFrom(run, t, m + 1, n)
    ensures k in run[n].threads[t].at.todo ==>
      k in run[n].locks && forall i :: m < i < n ==> steps[i] != Do(t, OfSweep(Visit(k)))
    ensures k !in run[n].threads[t].at.todo ==> (k in run[n].locks <==> KeptOne(run, steps, m, n, t, k))
    decreases n
  {
    hide Inv;
    hide StepTo;
    hide LocksOk;
    hide Referenced;
    InvAlong(run, steps, n - 1);
    assert StepTo(run[n-1], steps[n-1], run[n]);
    if n == m + 1 {
      StartsWithAll(run[m], t, run[n]);
    } else {
      assert LocksOk(run[n-1]) by { InvHasLocks(run[n-1]); }
      StillCollecting(run[n-1], steps[n-1], run[n], t, k);
      CollectedSoFar(run, steps, m, n - 1, t, k);
    }
  }

  lemma InvHasLocks(s: State)
    requires Inv(s)
    ensures LocksOk(s)
  {
  }

  lemma StartsWithAll(s: State, t: Tid, s': State)
    requires StepTo(s, Do(t, OfSweep(StartSweep)), s')
    ensures t in s'.threads && s'.threads[t].Busy? && s'.threads[t].at.Sweeping?
    ensures s'.threads[t].at.todo == s'.locks.Keys
  {
  }

  lemma EndsWithAll(s: State, t: Tid)
    requires Enabled(s, t, OfSweep(EndSweep))
    ensures s.threads[t].at.todo == {} && After(s, t, OfSweep(EndSweep)).locks == s.locks
  {
  }

  /** A step of a collection changes the entry of `k` only as the collector comes by it. */
  lemma StillCollecting(s: State, step: Step, s': State, t: Tid, k: Key)
    requires LocksOk(s) && StepTo(s, step, s') && t in s.threads && Sweeps(s.threads[t])
    requires t in s'.threads && Sweeps(s'.threads[t])
    ensures step == Do(t, OfSweep(Visit(k))) ==>
      k in s.threads[t].at.todo && k !in s'.threads[t].at.todo && (k in s'.locks <==> Referenced(s, k))
    ensures step != Do(t, OfSweep(Visit(k))) ==>
      (k in s'.threads[t].at.todo <==> k in s.threads[t].at.todo) && (k in s'.locks <==> k in s.locks)
  {
    hide ObjOk;
    hide HandleOk;
    if step.t != t {
      OnlyTheSweeperCollects(s, t, step.t, step.a);
    } else {
      var op, at := s.threads[t].op, s.threads[t].at;
      assert step.a.OfSweep? && step.a.g.Visit?;
      VisitIsExact(s, t, op, at, step.a.g.k);
    }
  }

  /** When a collection ends, the map has just the paths some call had a handle for as the collector
      came by them. */
  lemma CollectionIsExact(run: seq<State>, steps: seq<Step>, m: nat, n: nat, t: Tid, k: Key)
    requires Follows(run, steps) && Inv(run[0]) && m < n < |steps|
    requires steps[m] == Do(t, OfSweep(StartSweep)) && CollectsFrom(run, t, m + 1, n)
    requires steps[n] == Do(t, OfSweep(EndSweep))
    ensures k in run[n+1].locks <==> KeptOne(run, steps, m, n, t, k)
    ensures Referenced(run[n+1], k) ==> k in run[n+1].locks
  {
    hide Inv;
    hide After;
    InvAlong(run, steps, n + 1);
    assert LocksOk(run[n+1]) by { InvHasLocks(run[n+1]); }
    if Referenced(run[n+1], k) {
      var u :| u in run[n+1].threads && HandleOf(run[n+1].threads[u]).Some? && run[n+1].threads[u].op.key == k;
      OneLockPerPath(run[n+1], u, u);
    }
    assert StepTo(run[n], steps[n], run[n+1]);
    EndsWithAll(run[n], t);
    CollectedSoFar(run, steps, m, n, t, k);
  }
}
