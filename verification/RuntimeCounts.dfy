/** What a program's own steps say of its sync primitives: how many Adds are outstanding, whether a
    mutex is locked, how many readers hold it. The interpreter's table agrees in every reachable
    state, so Wait, Unlock and RUnlock answer as the steps before them demand. */
module RuntimeCounts {
  import opened Clock
  import opened ClockMachine
  import opened Detector
  import opened Runtime
  import opened RuntimeInvariant
  import opened RuntimeRuns
  import opened RuntimeSync

  /** The sum of what the first n steps added to the wait group. */
  function Outstanding(acts: seq<Action>, n: nat, key: int): int
    requires n <= |acts|
  {
    if n == 0 then 0
    else Outstanding(acts, n - 1, key) + (if acts[n - 1].DoGroupAdd? && acts[n - 1].key == key then acts[n - 1].delta else 0)
  }

  /** The last Lock or Unlock among the first n steps was a Lock. */
  predicate IsLocked(acts: seq<Action>, n: nat, key: int)
    requires n <= |acts|
  {
    && n > 0
    && if OnMutex(acts[n - 1]) && acts[n - 1].key == key && (acts[n - 1].DoLock? || acts[n - 1].DoUnlock?)
       then acts[n - 1].DoLock? else IsLocked(acts, n - 1, key)
  }

  /** The RLocks among the first n steps that no RUnlock has undone. */
  function Readers(acts: seq<Action>, n: nat, key: int): nat
    requires n <= |acts|
  {
    if n == 0 then 0
    else
      var r := Readers(acts, n - 1, key);
      if acts[n - 1] == DoRLock(acts[n - 1].g, key) then r + 1
      else if acts[n - 1] == DoRUnlock(acts[n - 1].g, key) && r > 0 then r - 1
      else r
  }

  // ------------------------------------------------------------------
  // Steps

  const Unused := Sync(false, 0, 0, None, None, 0)

  function StateOf(w: World, key: int): Sync {
    if key in w.syncs then w.syncs[key] else Unused
  }

  /** What an action does to the counts of allocation key. */
  predicate Moves(a: Action, key: int, s: Sync, s': Sync) {
    && s'.counter == s.counter + (if a.DoGroupAdd? && a.key == key then a.delta else 0)
    && s'.locked == (if a == DoLock(a.g, key) then true else if a == DoUnlock(a.g, key) then false else s.locked)
    && s'.readers == (if a == DoRLock(a.g, key) then s.readers + 1
                      else if a == DoRUnlock(a.g, key) && s.readers > 0 then s.readers - 1 else s.readers)
  }

  lemma MutexMoves(w: World, a: Action, key: int)
    requires OnMutex(a) && a.g in w.gs
    ensures Moves(a, key, StateOf(w, key), StateOf(AfterMutex(MakeSync(w, a.key), a), key))
  {
    var w1 := MakeSync(w, a.key);
    assert StateOf(w1, key) == StateOf(w, key);
    match a
    case DoLock(g, k) =>
      var s := w1.syncs[k];
      assert MergeIf(MergeIf(w1, g, s.lastUnlock, SyncOf(k, s.gen)), g, s.rUnlock, RUnlocksOf(k)).syncs == w1.syncs;
    case DoUnlock(g, k) =>
    case DoRLock(g, k) =>
    case DoRUnlock(g, k) =>
  }

  lemma AddMoves(w: World, a: Action, key: int)
    requires a.DoGroupAdd? && a.g in w.gs && a.key in w.syncs
    ensures Moves(a, key, StateOf(w, key), StateOf(GroupAdd(w, a.g, a.key, a.delta), key))
  {
  }

  lemma WaitMoves(w: World, a: Action, key: int)
    requires a.DoGroupWait? && a.g in w.gs && a.key in w.syncs
    ensures Moves(a, key, StateOf(w, key), StateOf(GroupWaitFor(w, a.g, a.key).0, key))
  {
  }

  lemma GroupMoves(w: World, a: Action, w': World, key: int)
    requires NoDangling(w) && Allowed(w, a) && w' == Step(w, a).0 && (a.DoGroupAdd? || a.DoGroupWait?)
    ensures Moves(a, key, StateOf(w, key), StateOf(w', key))
  {
    var w1 := MakeSync(w, a.key);
    assert StateOf(w1, key) == StateOf(w, key);
    if a.DoGroupAdd? {
      AddMoves(w1, a, key);
    } else {
      WaitMoves(w1, a, key);
    }
  }

  lemma StepMoves(w: World, a: Action, w': World, key: int)
    requires NoDangling(w) && Allowed(w, a) && w' == Step(w, a).0
    ensures Moves(a, key, StateOf(w, key), StateOf(w', key))
  {
    if OnMutex(a) {
      MutexStep(w, a);
      MutexMoves(w, a, key);
    } else if a.DoGroupAdd? || a.DoGroupWait? {
      GroupMoves(w, a, w', key);
    } else {
      OtherStepsKeepSyncs(w, a, w');
    }
  }

  // ------------------------------------------------------------------
  // Runs

  /** In every reachable state the table's counter, lock and readers are those of the steps so far. */
  lemma {:induction false} CountsAreOfSteps(e: Execution, n: nat, key: int)
    requires IsExecution(e) && n < |e.worlds|
    ensures var s := StateOf(e.worlds[n], key);
      && s.counter == Outstanding(e.acts, n, key)
      && (s.locked <==> IsLocked(e.acts, n, key))
      && s.readers == Readers(e.acts, n, key)
  {
    if n > 0 {
      var m := n - 1;
      CountsAreOfSteps(e, m, key);
      var w, a := e.worlds[m], e.acts[m];
      assert Allowed(w, a) && e.worlds[m + 1] == Step(w, a).0;
      StepMoves(w, a, e.worlds[n], key);
    }
  }

  /** A Wait returns exactly where the Adds are not outstanding, else it waits. */
  lemma WaitAnswers(e: Execution, n: nat, g: Gid, key: int)
    requires IsExecution(e) && n < |e.worlds| && Allowed(e.worlds[n], DoGroupWait(g, key))
    ensures NoDangling(e.worlds[n])
    ensures var (w', out) := Step(e.worlds[n], DoGroupWait(g, key));
      if Outstanding(e.acts, n, key) <= 0 then out == Done && w'.gs[g].wait.NoWait?
      else out == Parked && w'.gs[g].wait == GroupWait(key)
  {
    RunsKeepInv(e, n);
    CountsAreOfSteps(e, n, key);
  }

  /** A waiting Wait may go on exactly where the Adds are no longer outstanding, and then returns. */
  lemma WaitingWaitAnswers(e: Execution, n: nat, g: Gid, key: int)
    requires IsExecution(e) && n < |e.worlds| && g in e.worlds[n].gs && e.worlds[n].gs[g].wait == GroupWait(key)
    ensures NoDangling(e.worlds[n])
    ensures Allowed(e.worlds[n], DoResume(g)) <==> Outstanding(e.acts, n, key) <= 0
    ensures Allowed(e.worlds[n], DoResume(g)) ==> Step(e.worlds[n], DoResume(g)).1 == Done
  {
    RunsKeepInv(e, n);
    assert KnownWait(e.worlds[n], g);
    CountsAreOfSteps(e, n, key);
  }

  /** An Unlock panics exactly where the last Lock or Unlock was not a Lock, and then changes nothing. */
  lemma UnlockAnswers(e: Execution, n: nat, g: Gid, key: int)
    requires IsExecution(e) && n < |e.worlds| && Allowed(e.worlds[n], DoUnlock(g, key))
    ensures NoDangling(e.worlds[n])
    ensures var (w', out) := Step(e.worlds[n], DoUnlock(g, key));
      if IsLocked(e.acts, n, key) then out == Done
      else out == Panicked("unlock of unlocked mutex") && StateOf(w', key) == StateOf(e.worlds[n], key) && w'.gs == e.worlds[n].gs
  {
    RunsKeepInv(e, n);
    CountsAreOfSteps(e, n, key);
  }

  /** An RUnlock panics exactly where every RLock has been undone. */
  lemma RUnlockAnswers(e: Execution, n: nat, g: Gid, key: int)
    requires IsExecution(e) && n < |e.worlds| && Allowed(e.worlds[n], DoRUnlock(g, key))
    ensures NoDangling(e.worlds[n])
    ensures var (w', out) := Step(e.worlds[n], DoRUnlock(g, key));
      if Readers(e.acts, n, key) > 0 then out == Done
      else out == Panicked("unlock of unlocked mutex") && StateOf(w', key) == StateOf(e.worlds[n], key) && w'.gs == e.worlds[n].gs
  {
    RunsKeepInv(e, n);
    CountsAreOfSteps(e, n, key);
  }
}
