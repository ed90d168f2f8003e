/**
  What the store promises: a map from keys to buffers that calls read and change in single
  steps, together with what each key may read as after a power loss.

  A call is invoked, applied (if it changes the map), answered, and returns. Steps of different
  calls interleave freely.
*/
module KvSpec {
  import opened Names
  import opened Directory

  type Tid = nat

  datatype Op =
    | Read(key: Key)
    | Write(key: Key, buf: Bytes)
    | Remove(key: Key, lazy: bool)
    | List(dir: Dir)

  datatype Error = Invalid(name: NameError) | NotFound | Io

  datatype Result = Got(bytes: Bytes) | Done | Keys(names: seq<string>) | Err(why: Error)

  /** The progress of a call. A scan has found some names; `stable` were there since it began. */
  datatype Status =
    | Pending
    | Applied
    | Scan(found: seq<string>, stable: iset<string>)
    | Finished(res: Result)

  datatype Call = NoCall | Call(op: Op, status: Status)

  datatype Spec = Spec(
    kv: imap<Key, Bytes>,
    may: iset<(Key, Option<Bytes>)>,   // what a key may read as after a crash now
    calls: map<Tid, Call>)

  datatype Event =
    | Stutter
    | Invoke(t: Tid, op: Op)
    | Apply(t: Tid)
    | Settle(t: Tid)
    | Answer(t: Tid, res: Result)
    | Overlook(t: Tid, res: Result)   // a call that could not look for its file, or its directory
    | Begin(t: Tid)
    | Hit(t: Tid, name: string)
    | Return(t: Tid)
    | Restart                         // of the process alone
    | Crash

  function Check(r: Rules, op: Op): Checked {
    match op
    case Read(k) => CheckKey(r, k)
    case Write(k, _) => CheckKey(r, k)
    case Remove(k, _) => CheckKey(r, k)
    case List(d) => CheckDir(r, d)
  }

  function Lookup(a: Spec, k: Key): Option<Bytes> {
    if k in a.kv then Some(a.kv[k]) else None
  }

  ghost predicate HasCall(a: Spec, t: Tid, op: Op, status: Status) {
    t in a.calls && a.calls[t] == Call(op, status)
  }

  ghost function NamesIn(a: Spec, d: Dir): iset<string> {
    iset name | Key(d, name) in a.kv
  }

  /** The calls once `k` has changed: a scan of its namespace need no longer find it, nor miss it. */
  ghost function Disturb(calls: map<Tid, Call>, k: Key): map<Tid, Call> {
    map t | t in calls ::
      if calls[t].Call? && calls[t].op == List(k.dir) && calls[t].status.Scan?
      then Call(calls[t].op, Scan(calls[t].status.found, calls[t].status.stable - iset{k.name}))
      else calls[t]
  }

  /** Only the current values of the keys of `d` can come back after a crash. */
  ghost function Settled(a: Spec, d: Dir): iset<(Key, Option<Bytes>)> {
    iset k: Key, v: Option<Bytes> | (if k.dir == d then v == Lookup(a, k) else (k, v) in a.may) :: (k, v)
  }

  ghost predicate IsAnswer(a: Spec, op: Op, status: Status, res: Result) {
    match status
    case Pending =>
      || res == Err(Io)
      || (op.Read? && op.key in a.kv && res == Got(a.kv[op.key]))
      || (op.Read? && op.key !in a.kv && res == Err(NotFound))
      || (op.Remove? && op.key !in a.kv && (res == Done || res == Err(NotFound)))
      || (op.List? && NamesIn(a, op.dir) == iset{} && res == Keys([]))
    case Applied => res == if op.Remove? && op.lazy then Done else Err(Io)
    case Scan(found, stable) =>
      || res == Err(Io)
      || (res == Keys(found) && forall name :: name in stable ==> name in found)
    case Finished(_) => false
  }

  /** What a call answers that takes what it cannot look for to be absent, whatever there is. */
  predicate IsOversight(op: Op, res: Result) {
    (op.Remove? && res == Done) || (op.List? && res == Keys([]))
  }

  ghost predicate Moves(r: Rules, a: Spec, ev: Event, a': Spec) {
    match ev
    case Stutter => a' == a
    case Invoke(t, op) =>
      && t in a.calls && a.calls[t] == NoCall
      && a' == a.(calls := a.calls[t := Call(op,
           match Check(r, op) case Fine => Pending case Refused(why) => Finished(Err(Invalid(why))))])
    case Apply(t) =>
      && t in a.calls && a.calls[t].Call? && a.calls[t].status == Pending
      && (match a.calls[t].op
          case Write(k, buf) =>
            a' == Spec(a.kv[k := buf], a.may + iset{(k, Some(buf))},
                       Disturb(a.calls, k)[t := Call(Write(k, buf), Applied)])
          case Remove(k, lazy) =>
            && k in a.kv
            && a' == Spec(a.kv - {k}, a.may + iset{(k, None)},
                          Disturb(a.calls, k)[t := Call(Remove(k, lazy), Applied)])
          case _ => false)
    case Settle(t) =>
      && t in a.calls && a.calls[t].Call? && a.calls[t].status == Applied
      && (match a.calls[t].op
          case Write(k, buf) => Lookup(a, k) == Some(buf) && SettleNext(a, t, k.dir, a')
          case Remove(k, lazy) => !lazy && Lookup(a, k) == None && SettleNext(a, t, k.dir, a')
          case _ => false)
    case Answer(t, res) =>
      && t in a.calls && a.calls[t].Call?
      && IsAnswer(a, a.calls[t].op, a.calls[t].status, res)
      && a' == a.(calls := a.calls[t := Call(a.calls[t].op, Finished(res))])
    case Overlook(t, res) =>
      && t in a.calls && a.calls[t].Call? && a.calls[t].status == Pending
      && IsOversight(a.calls[t].op, res)
      && a' == a.(calls := a.calls[t := Call(a.calls[t].op, Finished(res))])
    case Begin(t) =>
      && t in a.calls && a.calls[t].Call? && a.calls[t].op.List? && a.calls[t].status == Pending
      && a' == a.(calls := a.calls[t := Call(a.calls[t].op, Scan([], NamesIn(a, a.calls[t].op.dir)))])
    case Hit(t, name) =>
      && t in a.calls && a.calls[t].Call? && a.calls[t].op.List? && a.calls[t].status.Scan?
      && Key(a.calls[t].op.dir, name) in a.kv && name !in a.calls[t].status.found
      && a' == a.(calls := a.calls[t :=
           Call(a.calls[t].op, Scan(a.calls[t].status.found + [name], a.calls[t].status.stable))])
    case Return(t) =>
      && t in a.calls && a.calls[t].Call? && a.calls[t].status.Finished?
      && a' == a.(calls := a.calls[t := NoCall])
    case Restart => a' == a.(calls := map t | t in a.calls :: NoCall)
    case Crash =>
      && (forall k :: (k, Lookup(a', k)) in a.may)
      && (forall k, v :: (k, v) in a'.may <==> v == Lookup(a', k))
      && a'.calls == map t | t in a.calls :: NoCall
  }

  ghost predicate SettleNext(a: Spec, t: Tid, d: Dir, a': Spec)
    requires t in a.calls && a.calls[t].Call?
  {
    a' == Spec(a.kv, Settled(a, d), a.calls[t := Call(a.calls[t].op, Finished(Done))])
  }

  ghost predicate IsRun(r: Rules, run: seq<Spec>, evs: seq<Event>) {
    |run| == |evs| + 1 && forall i :: 0 <= i < |evs| ==> Moves(r, run[i], evs[i], run[i+1])
  }

  /** Does step `i` of the run change key `k`? */
  ghost predicate Changes(run: seq<Spec>, evs: seq<Event>, i: nat, k: Key)
    requires |run| == |evs| + 1 && i < |evs|
  {
    && evs[i].Apply? && evs[i].t in run[i].calls
    && var c := run[i].calls[evs[i].t]; c.Call? && (c.op.Write? || c.op.Remove?) && c.op.key == k
  }

  ghost predicate Untouched(run: seq<Spec>, evs: seq<Event>, n: nat, k: Key)
    requires |run| == |evs| + 1 && n <= |evs|
  {
    forall i :: 0 <= i < n ==> !Changes(run, evs, i, k)
  }

  /** The value key `k` has after a change: the whole buffer of the write, or nothing. */
  ghost function Effect(op: Op): Option<Bytes> {
    if op.Write? then Some(op.buf) else None
  }

  /** What the last change of `k` among the first `n` steps made it, or else what it was. */
  ghost function LastEffect(run: seq<Spec>, evs: seq<Event>, n: nat, k: Key): Option<Bytes>
    requires |run| == |evs| + 1 && n <= |evs|
  {
    if n == 0 then Lookup(run[0], k)
    else if Changes(run, evs, n - 1, k) then Effect(run[n-1].calls[evs[n-1].t].op)
    else LastEffect(run, evs, n - 1, k)
  }

  /** A step that changes no key `k` and is no crash leaves `k` and what it may become alone. */
  lemma StepKeeps(r: Rules, run: seq<Spec>, evs: seq<Event>, i: nat, k: Key)
    requires IsRun(r, run, evs) && i < |evs| && evs[i] != Crash
    ensures Changes(run, evs, i, k) ==>
      && Lookup(run[i+1], k) == Effect(run[i].calls[evs[i].t].op)
      && forall v :: (k, v) in run[i+1].may <==> (k, v) in run[i].may || v == Lookup(run[i+1], k)
    ensures !Changes(run, evs, i, k) ==>
      && Lookup(run[i+1], k) == Lookup(run[i], k)
      && forall v :: (k, v) in run[i+1].may ==> (k, v) in run[i].may || v == Lookup(run[i], k)
  {
    assert Moves(r, run[i], evs[i], run[i+1]);
  }

  // ---------- the map is a map ----------

  lemma {:induction false} KvIsLastEffect(r: Rules, run: seq<Spec>, evs: seq<Event>, n: nat, k: Key)
    requires IsRun(r, run, evs) && n <= |evs|
    requires forall i :: 0 <= i < n ==> evs[i] != Crash
    ensures Lookup(run[n], k) == LastEffect(run, evs, n, k)
    decreases n
  {
    hide Moves;
    hide Lookup;
    hide Changes;
    if n > 0 {
      KvIsLastEffect(r, run, evs, n - 1, k);
      StepKeeps(r, run, evs, n - 1, k);
    }
  }

  /** A successful read returns the complete buffer of the last write applied to its key. */
  lemma ReadReturnsLastWrite(r: Rules, run: seq<Spec>, evs: seq<Event>, n: nat, t: Tid, k: Key, b: Bytes)
    requires IsRun(r, run, evs) && n < |evs| && evs[n] == Answer(t, Got(b))
    requires HasCall(run[n], t, Read(k), Pending)
    requires forall i :: 0 <= i < n ==> evs[i] != Crash
    ensures LastEffect(run, evs, n, k) == Some(b)
  {
    assert Moves(r, run[n], evs[n], run[n+1]);
    KvIsLastEffect(r, run, evs, n, k);
  }

  // ---------- crashes ----------

  /** The directory of `k` has just been synced, or the system has just restarted. */
  ghost predicate IsSettled(a: Spec, k: Key) {
    forall v :: (k, v) in a.may <==> v == Lookup(a, k)
  }

  lemma SettleSettles(r: Rules, a: Spec, t: Tid, a': Spec, k: Key)
    requires Moves(r, a, Settle(t), a') && k.dir == a.calls[t].op.key.dir
    ensures IsSettled(a', k)
  {
  }

  lemma CrashLeavesSettled(r: Rules, a: Spec, a': Spec, k: Key)
    requires Moves(r, a, Crash, a')
    ensures IsSettled(a', k)
  {
  }

  /** After a crash at any time a key has a value it really had since it was last settled. */
  lemma {:induction false} CrashGivesRecentValue(r: Rules, run: seq<Spec>, evs: seq<Event>, n: nat,
                                                 k: Key, v: Option<Bytes>)
    requires IsRun(r, run, evs) && n <= |evs| && IsSettled(run[0], k)
    requires (k, v) in run[n].may || v == Lookup(run[n], k)
    ensures exists j :: 0 <= j <= n && Lookup(run[j], k) == v
    decreases n
  {
    if v == Lookup(run[n], k) {
    } else if n > 0 {
      assert Moves(r, run[n-1], evs[n-1], run[n]);
      if evs[n-1] != Crash {
        StepKeeps(r, run, evs, n - 1, k);
      }
      CrashGivesRecentValue(r, run, evs, n - 1, k, v);
    }
  }

  /** No torn buffers: what a key reads as, now or after a crash, some write of it was given whole. */
  lemma {:induction false} ValuesAreWritten(r: Rules, run: seq<Spec>, evs: seq<Event>, n: nat, k: Key, b: Bytes)
    requires IsRun(r, run, evs) && n <= |evs|
    requires (k, Some(b)) in run[n].may || Lookup(run[n], k) == Some(b)
    ensures (k, Some(b)) in run[0].may || Lookup(run[0], k) == Some(b) ||
      exists j :: 0 <= j < n && Changes(run, evs, j, k) && run[j].calls[evs[j].t].op == Write(k, b)
    decreases n
  {
    if n > 0 {
      assert Moves(r, run[n-1], evs[n-1], run[n]);
      if evs[n-1] != Crash {
        StepKeeps(r, run, evs, n - 1, k);
        if Changes(run, evs, n - 1, k) && Lookup(run[n], k) == Some(b) {
          assert run[n-1].calls[evs[n-1].t].op == Write(k, b);
          return;
        }
      }
      ValuesAreWritten(r, run, evs, n - 1, k, b);
    }
  }

  /** Once settled, a key keeps its value through any steps and crashes that do not change it. */
  lemma {:induction false} SettledEndures(r: Rules, run: seq<Spec>, evs: seq<Event>, n: nat, k: Key)
    requires IsRun(r, run, evs) && n <= |evs| && IsSettled(run[0], k)
    requires Untouched(run, evs, n, k)
    ensures Lookup(run[n], k) == Lookup(run[0], k)
    ensures forall v :: (k, v) in run[n].may ==> v == Lookup(run[0], k)
    decreases n
  {
    if n > 0 {
      SettledEndures(r, run, evs, n - 1, k);
      assert Moves(r, run[n-1], evs[n-1], run[n]);
      if evs[n-1] != Crash {
        StepKeeps(r, run, evs, n - 1, k);
      }
    }
  }

  // ---------- listing ----------

  /** The scan of thread `t` goes on through all of the run's states but the last. */
  ghost predicate Scanning(run: seq<Spec>, t: Tid, d: Dir, n: nat)
    requires n < |run|
  {
    forall i :: 0 <= i <= n ==>
      && t in run[i].calls && run[i].calls[t].Call?
      && run[i].calls[t].op == List(d) && run[i].calls[t].status.Scan?
  }

  ghost predicate Distinct(names: seq<string>) {
    forall i, j :: 0 <= i < j < |names| ==> names[i] != names[j]
  }

  /** A name found was there at some time in the scan; one never changed that was there is stable. */
  lemma {:induction false} ScanTracks(r: Rules, run: seq<Spec>, evs: seq<Event>, t: Tid, d: Dir, n: nat)
    requires IsRun(r, run, evs) && n <= |evs| && Scanning(run, t, d, n)
    requires HasCall(run[0], t, List(d), Scan([], NamesIn(run[0], d)))
    ensures var s := run[n].calls[t].status;
      && Distinct(s.found)
      && (forall name :: name in s.found ==> exists j :: 0 <= j <= n && Key(d, name) in run[j].kv)
      && (forall name :: Key(d, name) in run[0].kv && Untouched(run, evs, n, Key(d, name)) ==> name in s.stable)
    decreases n
  {
    if n > 0 {
      ScanTracks(r, run, evs, t, d, n - 1);
      assert Moves(r, run[n-1], evs[n-1], run[n]);
      var was, now := run[n-1].calls[t].status, run[n].calls[t].status;
      forall name | name in now.found ensures exists j :: 0 <= j <= n && Key(d, name) in run[j].kv {
        if name in was.found {
          var j :| 0 <= j <= n - 1 && Key(d, name) in run[j].kv;
        } else {
          assert Key(d, name) in run[n-1].kv;
        }
      }
      forall name | Key(d, name) in run[0].kv && Untouched(run, evs, n, Key(d, name))
        ensures name in now.stable
      {
        assert Untouched(run, evs, n - 1, Key(d, name)) && !Changes(run, evs, n - 1, Key(d, name));
        assert name in was.stable;
      }
    }
  }

  /** A listing under concurrent changes: nothing it names is invented, nothing untouched is missed. */
  lemma ListIsRegular(r: Rules, run: seq<Spec>, evs: seq<Event>, t: Tid, d: Dir, n: nat, names: seq<string>)
    requires IsRun(r, run, evs) && n < |evs| && Scanning(run, t, d, n)
    requires HasCall(run[0], t, List(d), Scan([], NamesIn(run[0], d)))
    requires evs[n] == Answer(t, Keys(names))
    ensures Distinct(names)
    ensures forall name :: name in names ==> exists j :: 0 <= j <= n && Key(d, name) in run[j].kv
    ensures forall name :: Key(d, name) in run[0].kv && Untouched(run, evs, n, Key(d, name)) ==> name in names
  {
    ScanTracks(r, run, evs, t, d, n);
    assert Moves(r, run[n], evs[n], run[n+1]);
  }

  /** With nothing of the namespace changing meanwhile, a listing is exactly its keys, each once. */
  lemma ListIsExact(r: Rules, run: seq<Spec>, evs: seq<Event>, t: Tid, d: Dir, n: nat, names: seq<string>)
    requires IsRun(r, run, evs) && n < |evs| && Scanning(run, t, d, n)
    requires HasCall(run[0], t, List(d), Scan([], NamesIn(run[0], d)))
    requires evs[n] == Answer(t, Keys(names))
    requires forall name :: Untouched(run, evs, n, Key(d, name))
    ensures Distinct(names)
    ensures forall name :: name in names <==> Key(d, name) in run[n].kv
  {
    ListIsRegular(r, run, evs, t, d, n, names);
    forall j, name | 0 <= j <= n ensures Key(d, name) in run[j].kv <==> Key(d, name) in run[0].kv {
      assert Untouched(run, evs, n, Key(d, name));
      NamesKept(r, run, evs, t, d, j, name);
    }
  }

  lemma ScanMeansNoCrash(r: Rules, run: seq<Spec>, evs: seq<Event>, t: Tid, d: Dir, n: nat)
    requires IsRun(r, run, evs) && 0 < n <= |evs| && Scanning(run, t, d, n)
    ensures evs[n-1] != Crash
  {
    assert Moves(r, run[n-1], evs[n-1], run[n]);
  }

  lemma {:induction false} NamesKept(r: Rules, run: seq<Spec>, evs: seq<Event>, t: Tid, d: Dir, n: nat, name: string)
    requires IsRun(r, run, evs) && n <= |evs| && Scanning(run, t, d, n)
    requires Untouched(run, evs, n, Key(d, name))
    ensures Lookup(run[n], Key(d, name)) == Lookup(run[0], Key(d, name))
    decreases n
  {
    hide Moves;
    hide Lookup;
    hide Changes;
    if n > 0 {
      NamesKept(r, run, evs, t, d, n - 1, name);
      ScanMeansNoCrash(r, run, evs, t, d, n);
      StepKeeps(r, run, evs, n - 1, Key(d, name));
    }
  }
}
