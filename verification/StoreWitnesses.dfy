/**
  Executions of the store that show what does not hold of it: a removal and a listing that answer
  Ok without having looked, and a collection that keeps an entry nobody refers to any more.
*/
module StoreWitnesses {
  import opened Names
  import opened KvSpec
  import opened StoreMachine
  import opened StoreLocks
  import opened StoreRefinement
  import opened StoreTheorems
  import D = Directory

  // ---------- answers without looking ----------

  /** A directory with one key file in it, all of it on disk. */
  function OneFile(name: string, b: D.Bytes): D.Folder {
    D.Folder(map[0 := D.File(b, true)], map[D.KeyName(name) := 0], map[D.KeyName(name) := 0], [], 1)
  }

  lemma OneFileIsSound(r: Rules, name: string, b: D.Bytes)
    requires ValidStr(r, name)
    ensures D.Valid(OneFile(name, b)) && KeysNamed(r, OneFile(name, b))
  {
    var f := OneFile(name, b);
    assert forall e, i :: D.MayLink(f, e, i) <==> e == D.KeyName(name) && i == 0;
  }

  /** A store just opened over one key, for one thread. */
  function Opened(r: Rules, k: Key, b: D.Bytes): State {
    State(r, map[k.dir := OneFile(k.name, b)], 0, 1, D.None, map[], map[], 0, map[0 := Idle])
  }

  /** A removal that cannot look at its file says Ok, and the key is there as before. */
  lemma RemovalCanMiss(r: Rules, k: Key, b: D.Bytes, lazy: bool) returns (run: seq<State>, steps: seq<Step>)
    requires Sane(r) && ValidKey(r, k)
    ensures IsExecution(run, steps) && |steps| == 2 && steps[1] == Do(0, OfRemove(MissFile))
    ensures SaysOk(run[2], 0) && run[2].threads[0].op == Remove(k, lazy) && VisibleAt(run[2], k) == D.Some(b)
  {
    OneFileIsSound(r, k.name, b);
    hide D.Valid;
    hide KeysNamed;
    var s := Opened(r, k, b);
    var op := Remove(k, lazy);
    run := [s, s.(threads := map[0 := Busy(op, Start)]), s.(threads := map[0 := Busy(op, Returning(Done))])];
    steps := [Do(0, Action.Call(op)), Do(0, OfRemove(MissFile))];
    assert StepTo(run[0], steps[0], run[1]) && StepTo(run[1], steps[1], run[2]);
  }

  /** A listing that cannot look at its directory says Ok with no names, and the key is there. */
  lemma ListingCanMiss(r: Rules, k: Key, b: D.Bytes) returns (run: seq<State>, steps: seq<Step>)
    requires Sane(r) && ValidKey(r, k)
    ensures IsExecution(run, steps) && |steps| == 2 && steps[1] == Do(0, OfList(MissDir))
    ensures run[2].threads == map[0 := Busy(List(k.dir), Returning(Keys([])))] && VisibleAt(run[2], k) == D.Some(b)
  {
    OneFileIsSound(r, k.name, b);
    hide D.Valid;
    hide KeysNamed;
    var s := Opened(r, k, b);
    var op := List(k.dir);
    run := [s, s.(threads := map[0 := Busy(op, Start)]), s.(threads := map[0 := Busy(op, Returning(Keys([])))])];
    steps := [Do(0, Action.Call(op)), Do(0, OfList(MissDir))];
    assert StepTo(run[0], steps[0], run[1]) && StepTo(run[1], steps[1], run[2]);
  }

  // ---------- a collection ----------

  /** Two threads at rest in a store over an empty directory, after `n - 1` counted calls. */
  function Resting(r: Rules, k: Key, n: nat): State {
    State(r, map[k.dir := D.EMPTY], 0, n, D.None, map[], map[], 0, map[0 := Idle, 1 := Idle])
  }

  function Listing(r: Rules, k: Key, n: nat, at: Point): State {
    Resting(r, k, n).(threads := map[0 := Busy(List(k.dir), at), 1 := Idle])
  }

  function ListSteps(d: Dir): (steps: seq<Step>)
    ensures |steps| == 5
  {
    [Do(0, Action.Call(List(d))), Do(0, OfList(OpenDir)), Do(0, OfList(EndScan)), Do(0, OfSweep(Count)), Do(0, Leave)]
  }

  function ListRun(r: Rules, k: Key, n: nat): (run: seq<State>)
    ensures |run| == 6
  {
    [Resting(r, k, n), Listing(r, k, n, Start), Listing(r, k, n, Scanning(map[], {}, [])),
     Listing(r, k, n, Counting(Keys([]))), Listing(r, k, n + 1, Returning(Keys([]))), Resting(r, k, n + 1)]
  }

  lemma ListingScans(r: Rules, k: Key, n: nat, i: nat)
    requires ValidKey(r, k) && i < 3
    ensures StepTo(ListRun(r, k, n)[i], ListSteps(k.dir)[i], ListRun(r, k, n)[i+1])
  {
  }

  lemma ListingLeaves(r: Rules, k: Key, n: nat, i: nat)
    requires n % GC_LOCK_INTERVAL != 0 && 3 <= i < 5
    ensures StepTo(ListRun(r, k, n)[i], ListSteps(k.dir)[i], ListRun(r, k, n)[i+1])
  {
  }

  /** A listing of an empty directory counts one call, and leaves no lock. */
  lemma ListingCounts(r: Rules, k: Key, n: nat)
    requires ValidKey(r, k) && n % GC_LOCK_INTERVAL != 0
    ensures Follows(ListRun(r, k, n), ListSteps(k.dir))
  {
    hide StepTo;
    hide ListRun;
    hide ListSteps;
    forall i | 0 <= i < 5 ensures StepTo(ListRun(r, k, n)[i], ListSteps(k.dir)[i], ListRun(r, k, n)[i+1]) {
      if i < 3 { ListingScans(r, k, n, i); } else { ListingLeaves(r, k, n, i); }
    }
  }

  /** One execution after another. */
  lemma Joined(run: seq<State>, steps: seq<Step>, more: seq<State>, next: seq<Step>)
    requires Follows(run, steps) && Follows(more, next) && run[|steps|] == more[0]
    ensures Follows(run + more[1..], steps + next)
  {
    hide StepTo;
    var all, both := run + more[1..], steps + next;
    forall i | 0 <= i < |both| ensures StepTo(all[i], both[i], all[i+1]) {
      if i < |steps| {
        assert StepTo(run[i], steps[i], run[i+1]);
      } else {
        assert all[i] == more[i - |steps|] && all[i+1] == more[i - |steps| + 1];
        assert StepTo(more[i - |steps|], next[i - |steps|], more[i - |steps| + 1]);
      }
    }
  }

  lemma {:induction false} Listings(r: Rules, k: Key, n: nat) returns (run: seq<State>, steps: seq<Step>)
    requires ValidKey(r, k) && 0 < n <= GC_LOCK_INTERVAL
    ensures Follows(run, steps) && run[0] == Resting(r, k, 1) && run[|steps|] == Resting(r, k, n)
  {
    hide StepTo;
    hide Resting;
    hide ListRun;
    if n == 1 {
      run, steps := [Resting(r, k, 1)], [];
    } else {
      var before, done := Listings(r, k, n - 1);
      ListingCounts(r, k, n - 1);
      ListRunEnds(r, k, n - 1);
      Joined(before, done, ListRun(r, k, n - 1), ListSteps(k.dir));
      run, steps := before + ListRun(r, k, n - 1)[1..], done + ListSteps(k.dir);
    }
  }

  lemma ListRunEnds(r: Rules, k: Key, n: nat)
    ensures ListRun(r, k, n)[0] == Resting(r, k, n) && ListRun(r, k, n)[5] == Resting(r, k, n + 1)
  {
  }

  /** The last listing counts the twenty-fifth call; a reader takes a handle before its collection
      begins, and drops it before that ends. */
  function LastSteps(k: Key): (steps: seq<Step>)
    ensures |steps| == 13
  {
    [Do(0, Action.Call(List(k.dir))), Do(0, OfList(OpenDir)), Do(0, OfList(EndScan)), Do(0, OfSweep(Count)),
     Do(1, Action.Call(Read(k))), Do(1, OfLock(GetLock)), Do(1, OfLock(Acquire)),
     Do(1, OfRead(Open)), Do(1, OfLock(Release)),
     Do(0, OfSweep(StartSweep)), Do(0, OfSweep(Visit(k))), Do(1, OfLock(Drop)), Do(0, OfSweep(EndSweep))]
  }

  function Reading(s: State, k: Key, lock: Lock, stage: Stage): State {
    s.(locks := map[k := 0], objs := map[0 := lock], nextLock := 1,
       threads := s.threads[1 := Busy(Read(k), Held(0, stage))])
  }

  function Collecting(s: State, d: Dir, at: Point): State {
    s.(mutex := D.Some(0), threads := s.threads[0 := Busy(List(d), at)])
  }

  function LastState(r: Rules, k: Key, i: nat): State {
    var n := GC_LOCK_INTERVAL;
    var none, gone := Keys([]), Err(NotFound);
    var s := Listing(r, k, n + 1, WantSweep(none));
    if i < 4 then ListRun(r, k, n)[i]
    else if i == 4 then s
    else if i == 5 then s.(threads := s.threads[1 := Busy(Read(k), NeedLock(D.None))])
    else if i == 6 then Reading(s, k, Lock({1}, {}, D.None), Waiting(D.None))
    else if i == 7 then Reading(s, k, Lock({1}, {1}, D.None), Locked(D.None))
    else if i == 8 then Reading(s, k, Lock({1}, {1}, D.None), Unlocking(gone))
    else
      var late := Reading(s, k, Lock({1}, {}, D.None), Dropping(gone));
      if i == 9 then late
      else if i == 10 then Collecting(late, k.dir, Sweeping(none, {k}))
      else if i == 11 then Collecting(late, k.dir, Sweeping(none, {}))
      else
        var dropped := late.(objs := map[0 := Lock({}, {}, D.None)],
                             threads := late.threads[1 := Busy(Read(k), Returning(gone))]);
        if i == 12 then Collecting(dropped, k.dir, Sweeping(none, {}))
        else dropped.(threads := dropped.threads[0 := Busy(List(k.dir), Returning(none))])
  }

  function LastRun(r: Rules, k: Key): (run: seq<State>)
    ensures |run| == 14
  {
    seq(14, i requires 0 <= i < 14 => LastState(r, k, i))
  }

  lemma LastRunLists(r: Rules, k: Key, i: nat)
    requires ValidKey(r, k) && i < 3
    ensures StepTo(LastState(r, k, i), LastSteps(k)[i], LastState(r, k, i + 1))
  {
    hide StepTo;
    ListingScans(r, k, GC_LOCK_INTERVAL, i);
  }

  lemma LastRunCounts(r: Rules, k: Key, i: nat)
    requires ValidKey(r, k) && 3 <= i < 5
    ensures StepTo(LastState(r, k, i), LastSteps(k)[i], LastState(r, k, i + 1))
  {
  }

  lemma LastRunLocks(r: Rules, k: Key, i: nat)
    requires ValidKey(r, k) && 5 <= i < 7
    ensures StepTo(LastState(r, k, i), LastSteps(k)[i], LastState(r, k, i + 1))
  {
    var none: set<Tid> := {};
    assert none + {1} == {1};
    assert map[0 := Lock({1}, {}, D.None)][0 := Lock({1}, {1}, D.None)] == map[0 := Lock({1}, {1}, D.None)];
    var s := LastState(r, k, i);
    assert s.threads[1 := Busy(Read(k), Held(0, Waiting(D.None)))] == LastState(r, k, 6).threads;
    assert s.threads[1 := Busy(Read(k), Held(0, Locked(D.None)))] == LastState(r, k, 7).threads;
  }

  lemma LastRunReads(r: Rules, k: Key, i: nat)
    requires ValidKey(r, k) && 7 <= i < 9
    ensures StepTo(LastState(r, k, i), LastSteps(k)[i], LastState(r, k, i + 1))
  {
    var one: set<Tid> := {1};
    assert one - {1} == {};
    assert map[0 := Lock({1}, {1}, D.None)][0 := Lock({1}, {}, D.None)] == map[0 := Lock({1}, {}, D.None)];
    var s := LastState(r, k, i);
    assert s.threads[1 := Busy(Read(k), Held(0, Unlocking(Err(NotFound))))] == LastState(r, k, 8).threads;
    assert s.threads[1 := Busy(Read(k), Held(0, Dropping(Err(NotFound))))] == LastState(r, k, 9).threads;
  }

  lemma LastRunCollects(r: Rules, k: Key, i: nat)
    requires ValidKey(r, k) && 9 <= i < 11
    ensures StepTo(LastState(r, k, i), LastSteps(k)[i], LastState(r, k, i + 1))
  {
    assert map[k := 0].Keys == {k} && {k} - {k} == {};
    var s := LastState(r, k, i);
    assert s.threads[0 := Busy(List(k.dir), Sweeping(Keys([]), {k}))] == LastState(r, k, 10).threads;
    assert s.threads[0 := Busy(List(k.dir), Sweeping(Keys([]), {}))] == LastState(r, k, 11).threads;
  }

  lemma LastRunDrops(r: Rules, k: Key, i: nat)
    requires ValidKey(r, k) && 11 <= i < 13
    ensures StepTo(LastState(r, k, i), LastSteps(k)[i], LastState(r, k, i + 1))
  {
    var one: set<Tid> := {1};
    assert one - {1} == {};
    assert map[0 := Lock({1}, {}, D.None)][0 := Lock({}, {}, D.None)] == map[0 := Lock({}, {}, D.None)];
  }

  lemma LastRunFollows(r: Rules, k: Key)
    requires ValidKey(r, k)
    ensures Follows(LastRun(r, k), LastSteps(k))
  {
    hide StepTo;
    hide LastState;
    hide LastSteps;
    forall i | 0 <= i < 13 ensures StepTo(LastRun(r, k)[i], LastSteps(k)[i], LastRun(r, k)[i+1]) {
      if i < 3 {
        LastRunLists(r, k, i);
      } else if i < 5 {
        LastRunCounts(r, k, i);
      } else if i < 7 {
        LastRunLocks(r, k, i);
      } else if i < 9 {
        LastRunReads(r, k, i);
      } else if i < 11 {
        LastRunCollects(r, k, i);
      } else {
        LastRunDrops(r, k, i);
      }
    }
  }

  lemma LastRunEnds(r: Rules, k: Key)
    ensures LastRun(r, k)[0] == Resting(r, k, GC_LOCK_INTERVAL)
    ensures k in LastRun(r, k)[13].locks && !Referenced(LastRun(r, k)[13], k)
  {
  }

  /** An execution in which a collection ends with an entry nobody has a handle for. */
  lemma CollectionCanKeepMore(r: Rules, k: Key) returns (run: seq<State>, steps: seq<Step>)
    requires Sane(r) && ValidKey(r, k)
    ensures IsExecution(run, steps) && |steps| > 0 && steps[|steps|-1] == Do(0, OfSweep(EndSweep))
    ensures k in run[|steps|].locks && !Referenced(run[|steps|], k)
  {
    hide StepTo;
    hide LastRun;
    hide LastSteps;
    hide Referenced;
    var before, done := Listings(r, k, GC_LOCK_INTERVAL);
    LastRunFollows(r, k);
    LastRunEnds(r, k);
    Joined(before, done, LastRun(r, k), LastSteps(k));
    run, steps := before + LastRun(r, k)[1..], done + LastSteps(k);
    EmptyIsNamed(r);
    assert run[|steps|] == LastRun(r, k)[13];
    LastRunStops(k);
  }

  lemma LastRunStops(k: Key)
    ensures LastSteps(k)[12] == Do(0, OfSweep(EndSweep))
  {
  }

  lemma EmptyIsNamed(r: Rules)
    ensures D.Valid(D.EMPTY) && KeysNamed(r, D.EMPTY)
  {
  }
}
