/** Which releases of a sync primitive a later acquire of it sees. The state is kept per allocation,
    so a WaitGroup and a Mutex in one struct share one clock, and an Unlock replaces what the Dones
    before it left there. */
module RuntimeSync {
  import opened Clock
  import opened ClockMachine
  import opened HappensBefore
  import opened Detector
  import opened Runtime
  import opened RuntimeInvariant
  import opened RuntimeRuns
  import opened RuntimeHistory
  import opened RuntimeRaces

  /** Action a unlocks the mutex of allocation key. */
  predicate Unlocks(w: World, a: Action, key: int) {
    a.DoUnlock? && a.key == key && key in w.syncs && w.syncs[key].locked
  }

  /** Allocation key is known and has been released as a wait group or mutex. */
  predicate Released(w: World, key: int) {
    key in w.syncs && w.syncs[key].lastUnlock.Some?
  }

  /** Some reader has released allocation key. */
  predicate ReadReleased(w: World, key: int) {
    key in w.syncs && w.syncs[key].rUnlock.Some?
  }

  /** Only an Unlock starts a new generation of allocation key's release clock, and nothing drops the
      readers' one. */
  predicate Generation(w: World, w': World, key: int, unlocked: bool) {
    && (Released(w, key) ==>
          Released(w', key) && w'.syncs[key].gen == w.syncs[key].gen + (if unlocked then 1 else 0))
    && (ReadReleased(w, key) ==> ReadReleased(w', key))
  }

  lemma {:induction false} OfferAllKeepsSyncs(w: World, g: Gid, sw: nat, cases: seq<Case>, j: nat)
    requires g in w.gs && j <= |cases|
    ensures OfferAll(w, g, sw, cases, j).syncs == w.syncs
    decreases |cases| - j
  {
    if j < |cases| {
      if Offered(w, cases[j]) {
        OfferAllKeepsSyncs(Offer(w, g, cases[j].ch.value, cases[j].send, cases[j].val, Some(sw), j), g, sw, cases, j + 1);
      } else {
        OfferAllKeepsSyncs(w, g, sw, cases, j + 1);
      }
    }
  }

  lemma SelectCaseKeepsSyncs(w: World, g: Gid, cases: seq<Case>, k: nat)
    requires g in w.gs && k < |cases| && KnownCases(w, cases)
    requires cases[k].ch.Some? && cases[k].ch.value in w.chans
    ensures SelectCase(w, g, cases, k).0.syncs == w.syncs
  {
  }

  lemma SelectKeepsSyncs(w: World, g: Gid, cases: seq<Case>, blocking: bool)
    requires g in w.gs && KnownCases(w, cases)
    ensures Select(w, g, cases, blocking).0.syncs == w.syncs
  {
    var k := FirstReady(w, cases, None);
    if k < |cases| {
      SelectCaseKeepsSyncs(w, g, cases, k);
    } else {
      OfferAllKeepsSyncs(w.(sels := w.sels + [SelectWait(g, false, None)]), g, |w.sels|, cases, 0);
    }
  }

  lemma SelectResumeKeepsSyncs(w: World, g: Gid, sw: nat, cases: seq<Case>)
    requires g in w.gs && KnownWait(w, g) && w.gs[g].wait == SelWait(sw, cases)
    ensures SelectResume(w, g, sw, cases).0.syncs == w.syncs
  {
    if !w.sels[sw].fired {
      var w1 := SetWait(w, g, NoWait).(sels := w.sels[sw := w.sels[sw].(fired := true)]);
      assert KnownCases(w1, cases);
      var k := FirstReady(w1, cases, None);
      if k < |cases| {
        SelectCaseKeepsSyncs(w1, g, cases, k);
      }
    }
  }

  lemma ResumeKeepsSyncs(w: World, g: Gid)
    requires g in w.gs && KnownWait(w, g)
    ensures Resume(w, g).0.syncs == w.syncs
  {
    if w.gs[g].wait.SelWait? {
      SelectResumeKeepsSyncs(w, g, w.gs[g].wait.sw, w.gs[g].wait.cases);
    }
  }

  lemma OtherStepsKeepSyncs(w: World, a: Action, w': World)
    requires NoDangling(w) && Allowed(w, a) && w' == Step(w, a).0
    requires !a.DoLock? && !a.DoUnlock? && !a.DoRLock? && !a.DoRUnlock? && !a.DoGroupAdd? && !a.DoGroupWait?
    ensures w'.syncs == w.syncs
  {
    if a.DoSelect? {
      SelectKeepsSyncs(w, a.g, a.cases, a.blocking);
    } else if a.DoResume? {
      ResumeKeepsSyncs(w, a.g);
    }
  }

  lemma MutexGeneration(w: World, a: Action, key: int)
    requires OnMutex(a) && a.g in w.gs && a.key in w.syncs
    ensures Generation(w, AfterMutex(w, a), key, Unlocks(w, a, key))
  {
  }

  lemma GroupGeneration(w: World, g: Gid, at: int, delta: int, key: int)
    requires g in w.gs && at in w.syncs
    ensures Generation(w, GroupAdd(w, g, at, delta), key, false) && Generation(w, GroupWaitFor(w, g, at).0, key, false)
  {
  }

  lemma MutexStepGeneration(w: World, a: Action, key: int)
    requires a.g in w.gs && OnMutex(a)
    ensures Generation(w, AfterMutex(MakeSync(w, a.key), a), key, Unlocks(w, a, key))
  {
    MutexGeneration(MakeSync(w, a.key), a, key);
  }

  lemma GroupStepGeneration(w: World, a: Action, w': World, key: int)
    requires NoDangling(w) && Allowed(w, a) && w' == Step(w, a).0
    requires a.DoGroupAdd? || a.DoGroupWait?
    ensures Generation(w, w', key, false)
  {
    var w1 := MakeSync(w, a.key);
    assert Generation(w1, w', key, false) by {
      GroupGeneration(w1, a.g, a.key, if a.DoGroupAdd? then a.delta else 0, key);
    }
  }

  lemma StepGeneration(w: World, a: Action, w': World, key: int)
    requires NoDangling(w) && Allowed(w, a) && w' == Step(w, a).0
    ensures Generation(w, w', key, Unlocks(w, a, key))
  {
    if OnMutex(a) {
      MutexStep(w, a);
      MutexStepGeneration(w, a, key);
    } else if a.DoGroupAdd? || a.DoGroupWait? {
      GroupStepGeneration(w, a, w', key);
    } else {
      OtherStepsKeepSyncs(w, a, w');
    }
  }

  /** Step k of the run unlocks the mutex of allocation key. */
  predicate UnlocksAt(e: Execution, k: nat, key: int) {
    k < |e.acts| && k < |e.worlds| && Unlocks(e.worlds[k], e.acts[k], key)
  }

  ghost predicate NoUnlockBetween(e: Execution, m: nat, n: nat, key: int) {
    forall k :: m <= k < n ==> !UnlocksAt(e, k, key)
  }

  lemma {:induction false} GenerationsAddUp(e: Execution, m: nat, n: nat, key: int)
    requires m <= n < |e.worlds| && Released(e.worlds[m], key)
    requires forall k {:trigger UnlocksAt(e, k, key)} :: m <= k < n ==>
      Generation(e.worlds[k], e.worlds[k + 1], key, UnlocksAt(e, k, key))
    ensures Released(e.worlds[n], key) && e.worlds[m].syncs[key].gen <= e.worlds[n].syncs[key].gen
    ensures e.worlds[m].syncs[key].gen == e.worlds[n].syncs[key].gen <==> NoUnlockBetween(e, m, n, key)
  {
    if m < n {
      var k := n - 1;
      GenerationsAddUp(e, m, k, key);
      assert Generation(e.worlds[k], e.worlds[k + 1], key, UnlocksAt(e, k, key));
    }
  }

  /** The generation of a release clock is the same at two states exactly when no Unlock of that
      allocation came between them. */
  lemma GenerationsCountUnlocks(e: Execution, m: nat, n: nat, key: int)
    requires IsExecution(e) && m <= n < |e.worlds| && Released(e.worlds[m], key)
    ensures Released(e.worlds[n], key) && e.worlds[m].syncs[key].gen <= e.worlds[n].syncs[key].gen
    ensures e.worlds[m].syncs[key].gen == e.worlds[n].syncs[key].gen <==> NoUnlockBetween(e, m, n, key)
  {
    forall k {:trigger UnlocksAt(e, k, key)} | m <= k < n
      ensures Generation(e.worlds[k], e.worlds[k + 1], key, UnlocksAt(e, k, key))
    {
      StepGeneration(e.worlds[k], e.acts[k], e.worlds[k + 1], key);
    }
    GenerationsAddUp(e, m, n, key);
  }

  /** Step n is goroutine h's Wait on allocation key returning. */
  predicate WaitReturns(w: World, a: Action, h: Gid, key: int) {
    && h in w.gs && key in w.syncs
    && ((a == DoGroupWait(h, key) && w.syncs[key].counter <= 0)
        || (a == DoResume(h) && w.gs[h].wait == GroupWait(key)))
  }

  lemma DoneJoins(e: Execution, m: nat, g: Gid, key: int, delta: int)
    requires IsExecution(e) && m < |e.acts| && e.acts[m] == DoGroupAdd(g, key, delta) && delta < 0
    ensures Released(e.worlds[m + 1], key)
    ensures e.worlds[m + 1].trace == e.worlds[m].trace + [JoinInto(g, SyncOf(key, e.worlds[m + 1].syncs[key].gen))]
  {
    assert e.worlds[m + 1] == Step(e.worlds[m], e.acts[m]).0;
  }

  lemma UnlockReleases(e: Execution, m: nat, key: int)
    requires IsExecution(e) && m < |e.acts| && Unlocks(e.worlds[m], e.acts[m], key)
    ensures Released(e.worlds[m + 1], key)
    ensures e.worlds[m + 1].trace == e.worlds[m].trace + [Release(e.acts[m].g, SyncOf(key, e.worlds[m + 1].syncs[key].gen))]
  {
    assert e.worlds[m + 1] == Step(e.worlds[m], e.acts[m]).0;
  }

  lemma {:induction false} ReadReleaseStays(e: Execution, m: nat, n: nat, key: int)
    requires IsExecution(e) && m <= n < |e.worlds| && ReadReleased(e.worlds[m], key)
    ensures ReadReleased(e.worlds[n], key)
  {
    if m < n {
      var k := n - 1;
      ReadReleaseStays(e, m, k, key);
      StepGeneration(e.worlds[k], e.acts[k], e.worlds[k + 1], key);
    }
  }

  lemma RUnlockJoins(e: Execution, m: nat, g: Gid, key: int)
    requires IsExecution(e) && m < |e.acts| && e.acts[m] == DoRUnlock(g, key)
    requires key in e.worlds[m].syncs && e.worlds[m].syncs[key].readers > 0
    ensures ReadReleased(e.worlds[m + 1], key)
    ensures e.worlds[m + 1].trace == e.worlds[m].trace + [JoinInto(g, RUnlocksOf(key))]
  {
    assert e.worlds[m + 1] == Step(e.worlds[m], e.acts[m]).0;
  }

  lemma LockMergesReaders(e: Execution, n: nat, h: Gid, key: int)
    requires IsExecution(e) && n < |e.acts| && e.acts[n] == DoLock(h, key) && ReadReleased(e.worlds[n], key)
    ensures |e.worlds[n + 1].trace| > |e.worlds[n].trace|
    ensures var tr := e.worlds[n + 1].trace; tr[|tr| - 1] == Acquire(h, RUnlocksOf(key))
  {
    assert e.worlds[n + 1] == Step(e.worlds[n], e.acts[n]).0;
  }

  /** Every RUnlock happens before every later Lock of the same allocation. */
  lemma RUnlockReachesLock(e: Execution, m: nat, n: nat, g: Gid, h: Gid, key: int)
    requires IsExecution(e) && m < n < |e.acts| && e.acts[m] == DoRUnlock(g, key) && e.acts[n] == DoLock(h, key)
    requires key in e.worlds[m].syncs && e.worlds[m].syncs[key].readers > 0
    ensures var tr, i, j := TraceOf(e), |e.worlds[m].trace|, |e.worlds[n + 1].trace| - 1;
      |e.worlds[n].trace| <= j && i < j < |tr| && tr[i].g == g && tr[j].g == h && HB(tr, i, j)
  {
    var tr, i, j := TraceOf(e), |e.worlds[m].trace|, |e.worlds[n + 1].trace| - 1;
    RUnlockJoins(e, m, g, key);
    ReadReleaseStays(e, m + 1, n, key);
    LockMergesReaders(e, n, h, key);
    SettledForever(e, m + 1, n);
    TracePossible(e, m + 1);
    TracePossible(e, n + 1);
    assert tr[i] == e.worlds[m + 1].trace[i] && tr[j] == e.worlds[n + 1].trace[j];
    assert Edge(tr, i, j);
  }

  // ------------------------------------------------------------------
  // An Unlock between a Done and a Wait can hide the Done.

  /** One goroutine locks, starts another that calls Done, unlocks and waits; the mutex and the
      wait group are in allocation 7. */
  const SharedActs: seq<Action> := [
    DoStart(1), DoGo(1, 2), DoLock(1, 7), DoGroupAdd(1, 7, 1), DoGroupAdd(2, 7, -1), DoUnlock(1, 7),
    DoGroupWait(1, 7)]

  lemma ExtendExecution(e: Execution, a: Action) returns (e': Execution)
    requires IsExecution(e) && Allowed(e.worlds[|e.acts|], a)
    ensures IsExecution(e') && e'.acts == e.acts + [a] && e'.worlds[..|e.worlds|] == e.worlds
    ensures NoDangling(e.worlds[|e.acts|]) && e'.worlds[|e'.acts|] == Step(e.worlds[|e.acts|], a).0
  {
    var w := e.worlds[|e.acts|];
    RunsKeepInv(e, |e.acts|);
    e' := Execution(e.worlds + [Step(w, a).0], e.acts + [a]);
    forall n {:trigger e'.acts[n]} | 0 <= n < |e'.acts|
      ensures NoDangling(e'.worlds[n]) && Allowed(e'.worlds[n], e'.acts[n])
      ensures e'.worlds[n + 1] == Step(e'.worlds[n], e'.acts[n]).0
    {
      if n < |e.acts| {
        assert e'.acts[n] == e.acts[n] && e'.worlds[n] == e.worlds[n] && e'.worlds[n + 1] == e.worlds[n + 1];
      }
    }
  }

  lemma SharedUntilLock() returns (e: Execution)
    ensures IsExecution(e) && e.acts == SharedActs[..3]
    ensures var w := e.worlds[3];
      && w.gs.Keys == {1, 2} && w.gs[1].wait.NoWait? && w.gs[2].wait.NoWait?
      && w.syncs.Keys == {7} && w.syncs[7].locked && w.syncs[7].counter == 0 && w.syncs[7].gen == 0
      && w.trace == [Start(1), Spawn(1, 2)]
  {
    e := Execution([Fresh], []);
    e := ExtendExecution(e, DoStart(1));
    e := ExtendExecution(e, DoGo(1, 2));
    e := ExtendExecution(e, DoLock(1, 7));
  }

  /** Up to the Unlock: the Done of goroutine 2 is in the shared clock. */
  lemma SharedUntilDone() returns (e: Execution)
    ensures IsExecution(e) && e.acts == SharedActs[..5]
    ensures var w := e.worlds[5];
      && w.gs.Keys == {1, 2} && w.gs[1].wait.NoWait? && 7 in w.syncs
      && w.syncs[7].locked && w.syncs[7].counter == 0 && w.syncs[7].gen == 0
      && w.trace == [Start(1), Spawn(1, 2), JoinInto(2, SyncOf(7, 0))]
  {
    e := SharedUntilLock();
    e := ExtendExecution(e, DoGroupAdd(1, 7, 1));
    e := ExtendExecution(e, DoGroupAdd(2, 7, -1));
  }

  /** The run in which an Unlock between the Done and the Wait hides the Done: the Wait returns and
      no chain orders the Done before it. */
  lemma UnlockHidesDone() returns (e: Execution)
    ensures IsExecution(e) && e.acts == SharedActs
    ensures WaitReturns(e.worlds[6], e.acts[6], 1, 7)
    ensures TraceOf(e) == [Start(1), Spawn(1, 2), JoinInto(2, SyncOf(7, 0)), Release(1, SyncOf(7, 1)), Acquire(1, SyncOf(7, 1))]
    ensures !HB(TraceOf(e), 2, 4)
  {
    e := SharedUntilDone();
    e := ExtendExecution(e, DoUnlock(1, 7));
    e := ExtendExecution(e, DoGroupWait(1, 7));
  }
}
