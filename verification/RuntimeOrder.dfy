/** When a release of a sync primitive happens before a later acquire of it. Release clocks are kept per
    allocation and each Unlock replaces the previous one, so an older release reaches an acquire only
    through a newer one, or by another way. */
module RuntimeOrder {
  import opened Clock
  import opened ClockMachine
  import opened HappensBefore
  import opened Detector
  import opened Runtime
  import opened RuntimeInvariant
  import opened RuntimeRuns
  import opened RuntimeHistory
  import opened RuntimeRaces
  import opened RuntimeSync
  import opened RuntimeEvents

  // ------------------------------------------------------------------
  // Releases of the current generation

  /** Step q is an Unlock, or a Done or negative Add, on allocation key. */
  predicate ReleasesSync(e: Execution, q: nat, key: int) {
    && q < |e.acts| && |e.worlds| == |e.acts| + 1
    && (Unlocks(e.worlds[q], e.acts[q], key) || DoesDone(e.worlds[q + 1], e.acts[q], key))
  }

  /** Step q is an RUnlock on allocation key that does not panic. */
  predicate ReleasesReader(e: Execution, q: nat, key: int) {
    && q < |e.acts| && q < |e.worlds| && e.acts[q].DoRUnlock? && e.acts[q].key == key
    && key in e.worlds[q].syncs && e.worlds[q].syncs[key].readers > 0
  }

  /** Where the events of step q start. */
  function EventOf(e: Execution, q: nat): nat
    requires q < |e.worlds|
  {
    |e.worlds[q].trace|
  }

  /** Where the events of step q end. */
  function LastEventOf(e: Execution, q: nat): int
    requires q + 1 < |e.worlds|
  {
    |e.worlds[q + 1].trace| - 1
  }

  /** Step q released allocation key, and no Unlock of it came since, up to step n. */
  ghost predicate CurrentAt(e: Execution, q: nat, n: nat, key: int) {
    q < n && ReleasesSync(e, q, key) && NoUnlockBetween(e, q + 1, n, key)
  }

  lemma ReleaseEvent(e: Execution, q: nat, key: int)
    requires IsExecution(e) && ReleasesSync(e, q, key)
    ensures Released(e.worlds[q + 1], key)
    ensures |e.worlds[q + 1].trace| == EventOf(e, q) + 1 && e.worlds[q + 1].trace <= TraceOf(e)
    ensures Publishes(TraceOf(e)[EventOf(e, q)], SyncOf(key, e.worlds[q + 1].syncs[key].gen))
    ensures TraceOf(e)[EventOf(e, q)].g == e.acts[q].g
  {
    if Unlocks(e.worlds[q], e.acts[q], key) {
      UnlockReleases(e, q, key);
    } else {
      DoneJoins(e, q, e.acts[q].g, key, e.acts[q].delta);
    }
    TracePossible(e, q + 1);
  }

  lemma ReaderEvent(e: Execution, q: nat, key: int)
    requires IsExecution(e) && ReleasesReader(e, q, key)
    ensures |e.worlds[q + 1].trace| == EventOf(e, q) + 1 && e.worlds[q + 1].trace <= TraceOf(e)
    ensures Publishes(TraceOf(e)[EventOf(e, q)], RUnlocksOf(key)) && TraceOf(e)[EventOf(e, q)].g == e.acts[q].g
  {
    RUnlockJoins(e, q, e.acts[q].g, key);
    TracePossible(e, q + 1);
  }

  lemma StepsInOrder(e: Execution, m: nat, n: nat, k: nat)
    requires IsExecution(e) && m < |e.acts| && n < |e.worlds| && RecordedBy(e, m, k) && k < EventOf(e, n)
    ensures m < n
  {
    if n <= m {
      SettledForever(e, n, m);
    }
  }

  /** The events that publish the clock an acquire at step n merges are those of the current releases. */
  lemma PublishersAreCurrent(e: Execution, n: nat, key: int, r: nat)
    requires IsExecution(e) && n < |e.worlds| && Released(e.worlds[n], key) && r < EventOf(e, n) <= |TraceOf(e)|
    requires Publishes(TraceOf(e)[r], SyncOf(key, e.worlds[n].syncs[key].gen))
    ensures exists q: nat :: CurrentAt(e, q, n, key) && r == EventOf(e, q)
  {
    var q := EveryEventHasItsOperation(e, r);
    StepsInOrder(e, q, n, r);
    assert ReleasesSync(e, q, key);
    ReleaseEvent(e, q, key);
    GenerationsCountUnlocks(e, q + 1, n, key);
    assert CurrentAt(e, q, n, key) && r == EventOf(e, q);
  }

  lemma CurrentPublishes(e: Execution, q: nat, n: nat, key: int)
    requires IsExecution(e) && n < |e.worlds| && CurrentAt(e, q, n, key)
    ensures Released(e.worlds[n], key) && EventOf(e, q) < EventOf(e, n) <= |TraceOf(e)|
    ensures Publishes(TraceOf(e)[EventOf(e, q)], SyncOf(key, e.worlds[n].syncs[key].gen))
  {
    ReleaseEvent(e, q, key);
    GenerationsCountUnlocks(e, q + 1, n, key);
    SettledForever(e, q + 1, n);
    TracePossible(e, n);
  }

  /** The events that publish the readers' clock are those of the RUnlocks so far. */
  lemma ReaderPublishers(e: Execution, n: nat, key: int, r: nat)
    requires IsExecution(e) && n < |e.worlds| && r < EventOf(e, n) <= |TraceOf(e)|
    requires Publishes(TraceOf(e)[r], RUnlocksOf(key))
    ensures exists q: nat :: q < n && ReleasesReader(e, q, key) && r == EventOf(e, q)
  {
    var q := EveryEventHasItsOperation(e, r);
    StepsInOrder(e, q, n, r);
    assert ReleasesReader(e, q, key);
    ReaderEvent(e, q, key);
    assert q < n && r == EventOf(e, q);
  }

  // ------------------------------------------------------------------
  // The acquiring step

  /** The events of an acquiring step: the last Unlock or the Dones, and for a Lock the readers. */
  lemma AcquireEvents(e: Execution, n: nat, h: Gid, key: int)
    requires IsExecution(e) && n < |e.acts| && AcquiresSync(e.worlds[n], e.acts[n], h, key) && Released(e.worlds[n], key)
    ensures e.worlds[n + 1].trace == e.worlds[n].trace + [Acquire(h, SyncOf(key, e.worlds[n].syncs[key].gen))]
              + (if e.acts[n] == DoLock(h, key) && ReadReleased(e.worlds[n], key) then [Acquire(h, RUnlocksOf(key))] else [])
  {
    assert e.worlds[n + 1] == Step(e.worlds[n], e.acts[n]).0;
  }

  /** Event i reaches h, before step n, by a chain of its own: to an event of h or to its go statement. */
  ghost predicate ReachesAlready(e: Execution, i: nat, n: nat, h: Gid)
    requires |e.worlds| > 0
  {
    var tr := TraceOf(e);
    exists p :: i <= p < |tr| && n < |e.worlds| && p < EventOf(e, n)
      && (tr[p].g == h || (tr[p].Spawn? && tr[p].child == h)) && OrBefore(tr, i, p)
  }

  /** Event i reaches a release of the current generation. */
  ghost predicate ReachesCurrent(e: Execution, i: nat, n: nat, key: int)
    requires |e.worlds| > 0
  {
    exists q: nat :: CurrentAt(e, q, n, key) && EventOf(e, q) < |TraceOf(e)| && OrBefore(TraceOf(e), i, EventOf(e, q))
  }

  /** Event i reaches an RUnlock of the allocation. */
  ghost predicate ReachesReader(e: Execution, i: nat, n: nat, key: int)
    requires |e.worlds| > 0
  {
    exists q: nat :: q < n && ReleasesReader(e, q, key) && EventOf(e, q) < |TraceOf(e)| && OrBefore(TraceOf(e), i, EventOf(e, q))
  }

  lemma EdgeIntoAcquire(e: Execution, i: nat, n: nat, h: Gid, key: int, j: nat, k: nat)
    requires IsExecution(e) && n < |e.worlds| && Released(e.worlds[n], key) && EventOf(e, n) <= j < |TraceOf(e)|
    requires TraceOf(e)[j] == Acquire(h, SyncOf(key, e.worlds[n].syncs[key].gen)) || TraceOf(e)[j] == Acquire(h, RUnlocksOf(key))
    requires i <= k < EventOf(e, n) && Edge(TraceOf(e), k, j) && OrBefore(TraceOf(e), i, k)
    ensures ReachesAlready(e, i, n, h)
            || (TraceOf(e)[j].t.SyncOf? && ReachesCurrent(e, i, n, key))
            || (TraceOf(e)[j].t.RUnlocksOf? && ReachesReader(e, i, n, key))
  {
    var tr := TraceOf(e);
    if !(tr[k].g == h || (tr[k].Spawn? && tr[k].child == h)) {
      assert Publishes(tr[k], tr[j].t);
      if tr[j].t.SyncOf? {
        PublishersAreCurrent(e, n, key, k);
      } else {
        ReaderPublishers(e, n, key, k);
      }
    }
  }

  lemma ViaEdge(tr: seq<Op>, i: nat, k: nat, j: nat)
    requires i <= k < j < |tr| && OrBefore(tr, i, k) && Edge(tr, k, j)
    ensures HB(tr, i, j)
  {
    if i < k {
      HBTransitive(tr, i, k, j);
    }
  }

  lemma FirstEvent(e: Execution, n: nat, h: Gid, key: int)
    requires IsExecution(e) && n < |e.acts| && AcquiresSync(e.worlds[n], e.acts[n], h, key) && Released(e.worlds[n], key)
    ensures EventOf(e, n) < |TraceOf(e)| && TraceOf(e)[EventOf(e, n)] == Acquire(h, SyncOf(key, e.worlds[n].syncs[key].gen))
  {
    AcquireEvents(e, n, h, key);
    TracePossible(e, n + 1);
    assert TraceOf(e)[EventOf(e, n)] == e.worlds[n + 1].trace[EventOf(e, n)];
  }

  lemma FromCurrent(e: Execution, i: nat, n: nat, h: Gid, key: int)
    requires IsExecution(e) && n < |e.worlds| && EventOf(e, n) < |TraceOf(e)| && ReachesCurrent(e, i, n, key)
    requires key in e.worlds[n].syncs && TraceOf(e)[EventOf(e, n)] == Acquire(h, SyncOf(key, e.worlds[n].syncs[key].gen))
    ensures i < EventOf(e, n) && HB(TraceOf(e), i, EventOf(e, n))
  {
    var tr := TraceOf(e);
    var q: nat :| CurrentAt(e, q, n, key) && EventOf(e, q) < |tr| && OrBefore(tr, i, EventOf(e, q));
    CurrentPublishes(e, q, n, key);
    ViaEdge(tr, i, EventOf(e, q), EventOf(e, n));
  }

  lemma FromOwn(e: Execution, i: nat, n: nat, h: Gid, j: nat)
    requires |e.worlds| > 0 && n < |e.worlds| && EventOf(e, n) <= j < |TraceOf(e)| && TraceOf(e)[j].g == h
    requires ReachesAlready(e, i, n, h)
    ensures i < j && HB(TraceOf(e), i, j)
  {
    var tr := TraceOf(e);
    var p :| i <= p < |tr| && p < EventOf(e, n)
      && (tr[p].g == h || (tr[p].Spawn? && tr[p].child == h)) && OrBefore(tr, i, p);
    ViaEdge(tr, i, p, j);
  }

  /** Into the first event of the acquiring step. */
  lemma IntoFirst(e: Execution, i: nat, n: nat, h: Gid, key: int)
    requires IsExecution(e) && n < |e.acts| && AcquiresSync(e.worlds[n], e.acts[n], h, key) && Released(e.worlds[n], key)
    requires i < EventOf(e, n) < |TraceOf(e)|
    ensures HB(TraceOf(e), i, EventOf(e, n)) <==> ReachesAlready(e, i, n, h) || ReachesCurrent(e, i, n, key)
  {
    var tr, j := TraceOf(e), EventOf(e, n);
    FirstEvent(e, n, h, key);
    if HB(tr, i, j) {
      LastEdge(tr, i, j);
      var k :| i <= k < j && Edge(tr, k, j) && OrBefore(tr, i, k);
      EdgeIntoAcquire(e, i, n, h, key, j, k);
    }
    if ReachesCurrent(e, i, n, key) {
      FromCurrent(e, i, n, h, key);
    }
    if ReachesAlready(e, i, n, h) {
      FromOwn(e, i, n, h, j);
    }
  }

  lemma SecondEvent(e: Execution, n: nat, h: Gid, key: int)
    requires IsExecution(e) && n < |e.acts| && e.acts[n] == DoLock(h, key) && AcquiresSync(e.worlds[n], e.acts[n], h, key)
    requires Released(e.worlds[n], key) && ReadReleased(e.worlds[n], key)
    ensures LastEventOf(e, n) == EventOf(e, n) + 1 < |TraceOf(e)|
    ensures TraceOf(e)[EventOf(e, n) + 1] == Acquire(h, RUnlocksOf(key))
  {
    AcquireEvents(e, n, h, key);
    TracePossible(e, n + 1);
    assert TraceOf(e)[EventOf(e, n) + 1] == e.worlds[n + 1].trace[EventOf(e, n) + 1];
  }

  lemma FromReader(e: Execution, i: nat, n: nat, key: int, j: nat)
    requires IsExecution(e) && n < |e.worlds| && EventOf(e, n) <= j < |TraceOf(e)| && ReachesReader(e, i, n, key)
    requires TraceOf(e)[j].Acquire? && TraceOf(e)[j].t == RUnlocksOf(key)
    ensures i < j && HB(TraceOf(e), i, j)
  {
    var tr := TraceOf(e);
    var q: nat :| q < n && ReleasesReader(e, q, key) && EventOf(e, q) < |tr| && OrBefore(tr, i, EventOf(e, q));
    ReaderEvent(e, q, key);
    SettledForever(e, q + 1, n);
    ViaEdge(tr, i, EventOf(e, q), j);
  }

  /** Into the second event of a Lock, which merges the readers. */
  lemma IntoSecond(e: Execution, i: nat, n: nat, h: Gid, key: int)
    requires IsExecution(e) && n < |e.acts| && e.acts[n] == DoLock(h, key) && AcquiresSync(e.worlds[n], e.acts[n], h, key)
    requires Released(e.worlds[n], key) && ReadReleased(e.worlds[n], key)
    requires i < EventOf(e, n) && EventOf(e, n) + 1 < |TraceOf(e)|
    ensures HB(TraceOf(e), i, EventOf(e, n) + 1) <==>
            HB(TraceOf(e), i, EventOf(e, n)) || ReachesAlready(e, i, n, h) || ReachesReader(e, i, n, key)
  {
    var tr, j := TraceOf(e), EventOf(e, n);
    FirstEvent(e, n, h, key);
    SecondEvent(e, n, h, key);
    if HB(tr, i, j + 1) {
      LastEdge(tr, i, j + 1);
      var k :| i <= k < j + 1 && Edge(tr, k, j + 1) && OrBefore(tr, i, k);
      if k < j {
        EdgeIntoAcquire(e, i, n, h, key, j + 1, k);
      }
    }
    if HB(tr, i, j) {
      ViaEdge(tr, i, j, j + 1);
    }
    if ReachesAlready(e, i, n, h) {
      FromOwn(e, i, n, h, j + 1);
    }
    if ReachesReader(e, i, n, key) {
      FromReader(e, i, n, key, j + 1);
    }
  }

  // ------------------------------------------------------------------
  // Exactly when a release happens before a later acquire

  lemma ReaderStays(e: Execution, q: nat, n: nat, key: int)
    requires IsExecution(e) && q < n < |e.worlds| && ReleasesReader(e, q, key)
    ensures ReadReleased(e.worlds[n], key)
  {
    RUnlockJoins(e, q, e.acts[q].g, key);
    ReadReleaseStays(e, q + 1, n, key);
  }

  /** An earlier event happens before a Lock, RLock or returning Wait of a released allocation exactly
      when it is, or happens before, a release no Unlock came after; or for a Lock an RUnlock; or it
      reaches the acquiring goroutine by another way. */
  lemma AcquireOrderIff(e: Execution, i: nat, n: nat, h: Gid, key: int)
    requires IsExecution(e) && n < |e.acts| && AcquiresSync(e.worlds[n], e.acts[n], h, key) && Released(e.worlds[n], key)
    requires i < EventOf(e, n)
    ensures i < LastEventOf(e, n) < |TraceOf(e)| && TraceOf(e)[LastEventOf(e, n)].g == h
    ensures HB(TraceOf(e), i, LastEventOf(e, n)) <==>
            || ReachesCurrent(e, i, n, key)
            || (e.acts[n] == DoLock(h, key) && ReachesReader(e, i, n, key))
            || ReachesAlready(e, i, n, h)
  {
    FirstEvent(e, n, h, key);
    AcquireEvents(e, n, h, key);
    IntoFirst(e, i, n, h, key);
    if e.acts[n] == DoLock(h, key) {
      if ReadReleased(e.worlds[n], key) {
        SecondEvent(e, n, h, key);
        IntoSecond(e, i, n, h, key);
      } else if ReachesReader(e, i, n, key) {
        var q: nat :| q < n && ReleasesReader(e, q, key) && EventOf(e, q) < |TraceOf(e)|;
        ReaderStays(e, q, n, key);
      }
    }
  }

  lemma ReleasedSince(e: Execution, m: nat, n: nat, key: int)
    requires IsExecution(e) && m < n < |e.worlds| && ReleasesSync(e, m, key)
    ensures Released(e.worlds[n], key) && EventOf(e, m) < EventOf(e, n) <= |TraceOf(e)|
    ensures TraceOf(e)[EventOf(e, m)].g == e.acts[m].g
  {
    ReleaseEvent(e, m, key);
    GenerationsCountUnlocks(e, m + 1, n, key);
    SettledForever(e, m + 1, n);
    TracePossible(e, n);
  }

  /** A Done happens before a later Wait on the allocation returns exactly when some Done or Unlock with
      no Unlock after it is that Done or comes after it, or the Done reaches the waiter by another way. In
      particular it does when no Unlock of that allocation came between. */
  lemma DoneBeforeWaitIff(e: Execution, m: nat, n: nat, g: Gid, h: Gid, key: int, delta: int)
    requires IsExecution(e) && m < n < |e.acts| && e.acts[m] == DoGroupAdd(g, key, delta) && delta < 0
    requires WaitReturns(e.worlds[n], e.acts[n], h, key)
    ensures var tr, i, j := TraceOf(e), EventOf(e, m), LastEventOf(e, n);
      && i < j < |tr| && tr[i].g == g && tr[j].g == h
      && (HB(tr, i, j) <==> ReachesCurrent(e, i, n, key) || ReachesAlready(e, i, n, h))
      && (NoUnlockBetween(e, m + 1, n, key) ==> HB(tr, i, j))
  {
    DoneJoins(e, m, g, key, delta);
    assert ReleasesSync(e, m, key);
    ReleasedSince(e, m, n, key);
    AcquireOrderIff(e, EventOf(e, m), n, h, key);
    assert NoUnlockBetween(e, m + 1, n, key) ==> CurrentAt(e, m, n, key) && OrBefore(TraceOf(e), EventOf(e, m), EventOf(e, m));
  }

  /** The same of an Unlock and a later Lock or RLock; a Lock also sees what an RUnlock has seen. */
  lemma UnlockBeforeLockIff(e: Execution, m: nat, n: nat, h: Gid, key: int)
    requires IsExecution(e) && m < n < |e.acts| && Unlocks(e.worlds[m], e.acts[m], key)
    requires e.acts[n] == DoLock(h, key) || e.acts[n] == DoRLock(h, key)
    ensures var tr, i, j := TraceOf(e), EventOf(e, m), LastEventOf(e, n);
      && i < j < |tr| && tr[i].g == e.acts[m].g && tr[j].g == h
      && (HB(tr, i, j) <==>
            || ReachesCurrent(e, i, n, key)
            || (e.acts[n].DoLock? && ReachesReader(e, i, n, key))
            || ReachesAlready(e, i, n, h))
      && (NoUnlockBetween(e, m + 1, n, key) ==> HB(tr, i, j))
  {
    assert ReleasesSync(e, m, key);
    ReleasedSince(e, m, n, key);
    AcquireOrderIff(e, EventOf(e, m), n, h, key);
    assert NoUnlockBetween(e, m + 1, n, key) ==> CurrentAt(e, m, n, key) && OrBefore(TraceOf(e), EventOf(e, m), EventOf(e, m));
  }

  // ------------------------------------------------------------------
  // Locking discipline

  /** The goroutine that unlocks at step u locked since the previous Unlock. */
  ghost predicate LockedSince(e: Execution, u: nat, key: int) {
    u < |e.acts| && exists l: nat :: l < u && e.acts[l] == DoLock(e.acts[u].g, key) && NoUnlockBetween(e, l + 1, u, key)
  }

  /** Every Unlock of the allocation is by a goroutine that locked it since the previous Unlock. */
  ghost predicate Disciplined(e: Execution, key: int) {
    forall u: nat :: UnlocksAt(e, u, key) ==> LockedSince(e, u, key)
  }

  lemma {:induction false} LastUnlock(e: Execution, m: nat, n: nat, key: int) returns (p: nat)
    requires m < n && UnlocksAt(e, m, key)
    ensures m <= p < n && UnlocksAt(e, p, key) && NoUnlockBetween(e, p + 1, n, key)
    decreases n - m
  {
    if k :| m < k < n && UnlocksAt(e, k, key) {
      p := LastUnlock(e, k, n, key);
    } else {
      p := m;
    }
  }

  lemma UnlockReaches(e: Execution, p: nat, n: nat, h: Gid, key: int)
    requires IsExecution(e) && p < n < |e.acts| && UnlocksAt(e, p, key) && NoUnlockBetween(e, p + 1, n, key)
    requires e.acts[n] == DoLock(h, key) || e.acts[n] == DoRLock(h, key)
    ensures EventOf(e, p) < EventOf(e, n) < |TraceOf(e)| && TraceOf(e)[EventOf(e, n)].g == h
    ensures Released(e.worlds[n], key) && HB(TraceOf(e), EventOf(e, p), EventOf(e, n))
  {
    ReleasedSince(e, p, n, key);
    FirstEvent(e, n, h, key);
    CurrentPublishes(e, p, n, key);
    assert Edge(TraceOf(e), EventOf(e, p), EventOf(e, n));
  }

  /** An Unlock happens before the next one, if the goroutine of that one locked in between. */
  lemma NextUnlock(e: Execution, p: nat, l: nat, u: nat, key: int)
    requires IsExecution(e) && p < l < u && UnlocksAt(e, p, key) && UnlocksAt(e, u, key)
    requires NoUnlockBetween(e, p + 1, l, key) && e.acts[l] == DoLock(e.acts[u].g, key)
    ensures EventOf(e, p) < EventOf(e, u) < |TraceOf(e)| && HB(TraceOf(e), EventOf(e, p), EventOf(e, u))
  {
    var tr := TraceOf(e);
    UnlockReaches(e, p, l, e.acts[u].g, key);
    ReleaseEvent(e, u, key);
    FirstEventBefore(e, l, u, key);
    assert Edge(tr, EventOf(e, l), EventOf(e, u));
    HBTransitive(tr, EventOf(e, p), EventOf(e, l), EventOf(e, u));
  }

  /** The Lock the discipline promises before Unlock u, and the last Unlock before that. */
  lemma LockBetween(e: Execution, m: nat, u: nat, key: int) returns (p: nat, l: nat)
    requires Disciplined(e, key) && m < u && UnlocksAt(e, m, key) && UnlocksAt(e, u, key)
    ensures m <= p < l < u && UnlocksAt(e, p, key) && NoUnlockBetween(e, p + 1, l, key)
    ensures e.acts[l] == DoLock(e.acts[u].g, key)
  {
    assert LockedSince(e, u, key);
    l :| l < u && e.acts[l] == DoLock(e.acts[u].g, key) && NoUnlockBetween(e, l + 1, u, key);
    assert m < l;
    p := LastUnlock(e, m, l, key);
  }

  /** With the discipline the Unlocks of an allocation are totally ordered. */
  lemma {:induction false} UnlocksAreOrdered(e: Execution, m: nat, u: nat, key: int)
    requires IsExecution(e) && Disciplined(e, key) && m < u && UnlocksAt(e, m, key) && UnlocksAt(e, u, key)
    ensures EventOf(e, m) < EventOf(e, u) < |TraceOf(e)| && HB(TraceOf(e), EventOf(e, m), EventOf(e, u))
    decreases u
  {
    var p, l := LockBetween(e, m, u, key);
    NextUnlock(e, p, l, u, key);
    if m < p {
      UnlocksAreOrdered(e, m, p, key);
      HBTransitive(TraceOf(e), EventOf(e, m), EventOf(e, p), EventOf(e, u));
    }
  }

  lemma FirstEventBefore(e: Execution, l: nat, u: nat, key: int)
    requires IsExecution(e) && l < u < |e.acts| && e.acts[l].DoLock? && e.acts[l].key == key && Released(e.worlds[l], key)
    ensures EventOf(e, l) < EventOf(e, u)
  {
    AcquireEvents(e, l, e.acts[l].g, key);
    SettledForever(e, l + 1, u);
  }

  /** If each Unlock of the allocation is by a goroutine that locked it since the previous Unlock, every
      Unlock happens before every later Lock and RLock. */
  lemma DisciplinedUnlockBeforeLock(e: Execution, m: nat, n: nat, h: Gid, key: int)
    requires IsExecution(e) && Disciplined(e, key) && m < n < |e.acts| && UnlocksAt(e, m, key)
    requires e.acts[n] == DoLock(h, key) || e.acts[n] == DoRLock(h, key)
    ensures EventOf(e, m) < EventOf(e, n) < |TraceOf(e)| && TraceOf(e)[EventOf(e, n)].g == h
    ensures HB(TraceOf(e), EventOf(e, m), EventOf(e, n))
  {
    var p := LastUnlock(e, m, n, key);
    UnlockReaches(e, p, n, h, key);
    if m < p {
      UnlocksAreOrdered(e, m, p, key);
      HBTransitive(TraceOf(e), EventOf(e, m), EventOf(e, p), EventOf(e, n));
    }
  }

  // ------------------------------------------------------------------
  // Without it an Unlock need not happen before a later Lock.

  /** Goroutine 1 locks and unlocks, 2 locks, 3 unlocks what 2 locked, 4 locks. */
  const StolenActs: seq<Action> := [
    DoStart(1), DoGo(1, 2), DoGo(1, 3), DoGo(1, 4), DoLock(1, 7), DoUnlock(1, 7), DoLock(2, 7), DoUnlock(3, 7), DoLock(4, 7)]

  const StolenTrace: seq<Op> := [
    Start(1), Spawn(1, 2), Spawn(1, 3), Spawn(1, 4), Release(1, SyncOf(7, 1)), Acquire(2, SyncOf(7, 1)),
    Release(3, SyncOf(7, 2)), Acquire(4, SyncOf(7, 2))]

  lemma TwoStarted() returns (e: Execution)
    ensures IsExecution(e) && e.acts == StolenActs[..2]
    ensures var w := e.worlds[2];
      && w.gs.Keys == {1, 2} && (forall g :: g in w.gs ==> w.gs[g].wait.NoWait?) && w.next == 3
      && w.syncs == map[] && w.trace == StolenTrace[..2]
  {
    e := Execution([Fresh], []);
    e := ExtendExecution(e, DoStart(1));
    e := ExtendExecution(e, DoGo(1, 2));
  }

  lemma StolenStart() returns (e: Execution)
    ensures IsExecution(e) && e.acts == StolenActs[..4]
    ensures var w := e.worlds[4];
      w.gs.Keys == {1, 2, 3, 4} && (forall g :: g in w.gs ==> w.gs[g].wait.NoWait?) && w.syncs == map[] && w.trace == StolenTrace[..4]
  {
    e := TwoStarted();
    e := ExtendExecution(e, DoGo(1, 3));
    e := ExtendExecution(e, DoGo(1, 4));
  }

  lemma StolenMiddle() returns (e: Execution)
    ensures IsExecution(e) && e.acts == StolenActs[..7] && UnlocksAt(e, 5, 7)
    ensures var w := e.worlds[7];
      && w.gs.Keys == {1, 2, 3, 4} && (forall g :: g in w.gs ==> w.gs[g].wait.NoWait?)
      && w.syncs.Keys == {7} && w.syncs[7].locked && w.syncs[7].gen == 1 && w.syncs[7].rUnlock.None?
      && w.trace == StolenTrace[..6]
  {
    e := StolenStart();
    e := ExtendExecution(e, DoLock(1, 7));
    e := ExtendExecution(e, DoUnlock(1, 7));
    e := ExtendExecution(e, DoLock(2, 7));
  }

  /** The run in which the Unlock of goroutine 1 does not happen before the Lock of goroutine 4. */
  lemma StolenUnlockIsHidden() returns (e: Execution)
    ensures IsExecution(e) && e.acts == StolenActs && TraceOf(e) == StolenTrace
    ensures UnlocksAt(e, 5, 7) && e.acts[8] == DoLock(4, 7) && !HB(TraceOf(e), 4, 7)
  {
    e := StolenMiddle();
    e := ExtendExecution(e, DoUnlock(3, 7));
    e := ExtendExecution(e, DoLock(4, 7));
    assert TraceOf(e) == StolenTrace;
    NoChain();
  }

  lemma NoChain()
    ensures !HB(StolenTrace, 4, 7)
  {
    assert !Edge(StolenTrace, 4, 7) && !Edge(StolenTrace, 4, 6) && !Edge(StolenTrace, 5, 7) && !Edge(StolenTrace, 5, 6);
    assert !HB(StolenTrace, 5, 7);
  }
}
