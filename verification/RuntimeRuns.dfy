/** Runs of the goroutine runtime: the interpreted program may take any operation with any
    goroutine that is not waiting, and the scheduler may resume any whose wait is over. */
module RuntimeRuns {
  import opened Clock
  import opened ClockMachine
  import opened HappensBefore
  import opened Detector
  import opened Runtime
  import opened RuntimeInvariant
  import opened RuntimeSteps
  import opened RuntimeOps

  // ------------------------------------------------------------------
  // Resume and abort

  lemma ResumeKeepsInv(w: World, g: Gid)
    requires Inv(w) && g in w.gs && KnownWait(w, g) && Ready(w, g)
    ensures Inv(Resume(w, g).0)
  {
    assert WaitOk(w, g);
    var w0 := SetWait(w, g, NoWait);
    UnparkKeepsInv(w, g, NoWait);
    match w.gs[g].wait
    case SendWait(c, i) =>
      CollectKeepsInv(w0, g, i);
      SameInv(if w.sudogs[i].done then Collect(w0, g, i) else w0, Resume(w, g).0);
    case RecvWait(c, i) =>
      if w.sudogs[i].done {
        CompleteKeepsInv(w0, g, c, i);
        SameInv(Deliver(TickNow(Collect(w0, g, i), g), c, i), Resume(w, g).0);
      } else {
        RecvClosedKeepsInv(w0, g, c);
        SameInv(RecvClosed(w0, g, c).0, Resume(w, g).0);
      }
    case BufSendWait(c, val) =>
      SendReadyKeepsInv(w0, g, c, val);
      SameInv(SendReady(w0, g, c, val).0, Resume(w, g).0);
    case BufRecvWait(c) =>
      RecvReadyKeepsInv(w0, g, c);
      SameInv(RecvReady(w0, g, c).0, Resume(w, g).0);
    case SelWait(sw, cases) =>
      SelectResumeKeepsInv(w, g, sw, cases);
      SameInv(SelectResume(w, g, sw, cases).0, Resume(w, g).0);
    case GroupWait(key) =>
      var s := w.syncs[key];
      assert SyncNamed(Pub(w0), key, s);
      MergeIfKeepsInv(w0, g, s.lastUnlock, SyncOf(key, s.gen));
      SameInv(MergeIf(w0, g, s.lastUnlock, SyncOf(key, s.gen)), Resume(w, g).0);
  }

  lemma AbortSudogKeepsInv(w: World, g: Gid)
    requires Inv(w) && g in w.gs && KnownWait(w, g) && (w.gs[g].wait.SendWait? || w.gs[g].wait.RecvWait?)
    ensures Inv(Abort(w, g))
  {
    assert WaitOk(w, g);
    var w0, c, i := SetWait(w, g, Aborted), w.gs[g].wait.ch, w.gs[g].wait.sd;
    UnparkKeepsInv(w, g, Aborted);
    WithdrawSudogKeepsInv(w0, i);
    var w1 := w0.(sudogs := w.sudogs[i := w.sudogs[i].(done := true)]);
    if w.gs[g].wait.SendWait? {
      SameInv(w1, Abort(w, g));
    } else {
      ForgetKeepsInv(w1, c, i);
      SameInv(Forget(w1, c, i), Abort(w, g));
    }
  }

  /** The value given to an aborted receiver is lost. */
  function Forget(w: World, c: ChanId, i: nat): World
    requires c in w.logs
  {
    w.(logs := w.logs[c := w.logs[c].(pending := w.logs[c].pending - {i})])
  }

  lemma ForgetKeepsInv(w: World, c: ChanId, i: nat)
    requires Inv(w) && i < |w.sudogs| && c in w.chans && w.chans[c].capacity == 0 && c in w.logs
    requires Idle(w, w.sudogs[i].gid)
    ensures Inv(Forget(w, c, i))
  {
    assert MeetingLogOk(w, c, w.logs[c]);
    if i in w.logs[c].pending {
      DeliveredLogOk(w, c, w.logs[c], i);
    } else {
      assert w.logs[c].pending - {i} == w.logs[c].pending;
    }
    UnpendKeepsInv(w, Forget(w, c, i), c, i);
  }

  lemma AbortSelectKeepsInv(w: World, g: Gid)
    requires Inv(w) && g in w.gs && KnownWait(w, g) && w.gs[g].wait.SelWait?
    ensures Inv(Abort(w, g))
  {
    assert WaitOk(w, g);
    var w0, sw := SetWait(w, g, Aborted), w.gs[g].wait.sw;
    UnparkKeepsInv(w, g, Aborted);
    WithdrawSelectKeepsInv(w0, sw);
    var w1 := w0.(sels := w.sels[sw := w.sels[sw].(fired := true)]);
    if w.sels[sw].fired {
      var i := w.sels[sw].sg.value;
      assert OffersCase(w, g, w.sudogs[i], w.gs[g].wait.cases);
      ForgetKeepsInv(w1, w.sudogs[i].ch, i);
      SameInv(Forget(w1, w.sudogs[i].ch, i), Abort(w, g));
    } else {
      SameInv(w1, Abort(w, g));
    }
  }

  lemma AbortKeepsInv(w: World, g: Gid)
    requires Inv(w) && g in w.gs && KnownWait(w, g)
    ensures Inv(Abort(w, g))
  {
    if w.gs[g].wait.SendWait? || w.gs[g].wait.RecvWait? {
      AbortSudogKeepsInv(w, g);
    } else if w.gs[g].wait.SelWait? {
      AbortSelectKeepsInv(w, g);
    } else {
      UnparkKeepsInv(w, g, Aborted);
      SameInv(SetWait(w, g, Aborted), Abort(w, g));
    }
  }

  // ------------------------------------------------------------------
  // Goroutines, channels, sync primitives

  lemma NewGoroutineKeepsRest(w: World, w': World, g: Gid)
    requires Matched(w) && MeetingLogsOk(w) && WaitsOk(w)
    requires w'.chans == w.chans && w'.sudogs == w.sudogs && w'.sels == w.sels && w'.syncs == w.syncs && w'.logs == w.logs
    requires forall h :: h in w'.gs ==> if h == g then w'.gs[h].wait.NoWait? else h in w.gs && w'.gs[h].wait == w.gs[h].wait
    ensures Matched(w') && MeetingLogsOk(w') && WaitsOk(w')
  {
    LogsKeepMatched(w, w');
    forall h | h in w'.gs
      ensures WaitOk(w', h)
    {
      if h != g {
        assert WaitOk(w, h);
      }
    }
    forall c | c in w'.chans && c in w'.logs && w'.chans[c].capacity == 0
      ensures MeetingLogOk(w', c, w'.logs[c])
    {
      LogStaysOk(w, w', c, w.logs[c]);
    }
  }

  lemma StartKeepsInv(w: World, g: Gid)
    requires Inv(w) && w.next <= g
    ensures Inv(StartEntry(w, g))
  {
    PossibleExtends(w.trace, Start(g));
    NewGoroutineKeepsRest(w, StartEntry(w, g), g);
  }

  lemma GoAgrees(w: World, g: Gid, child: Gid)
    requires ClocksAgree(w) && g in w.gs && w.next <= child
    ensures ClocksAgree(Go(w, g, child)) && Pub(Go(w, g, child)) == Pub(w)
  {
    PossibleExtends(w.trace, Spawn(g, child));
    OwnAheadAlways(RunOf(w.trace), |w.trace|);
  }

  lemma GoKeepsInv(w: World, g: Gid, child: Gid)
    requires Inv(w) && g in w.gs && w.next <= child
    ensures Inv(Go(w, g, child))
  {
    GoAgrees(w, g, child);
    NewGoroutineKeepsRest(w, Go(w, g, child), child);
  }

  lemma TouchKeepsInv(w: World, g: Gid, acc: Acc)
    requires Inv(w) && g in w.gs
    ensures Inv(Touch(w, g, acc))
  {
    PossibleExtends(w.trace, Access(g, acc));
    ClocksDoNotMatter(w, Touch(w, g, acc));
  }

  lemma MakeChanKeepsMatched(w: World, c: ChanId, capacity: nat)
    requires Matched(w) && c !in w.chans
    ensures Matched(MakeChan(w, c, capacity))
  {
    var w' := MakeChan(w, c, capacity);
    assert forall i: nat :: Live(w', i) <==> Live(w, i);
    assert QueuesOk(w') by {
      forall d | d in w'.chans
        ensures QueueOk(w', w'.chans[d].recvq, d, false) && QueueOk(w', w'.chans[d].sendq, d, true)
      {
        if d != c {
          assert QueueOk(w, w.chans[d].recvq, d, false) && QueueOk(w, w.chans[d].sendq, d, true);
        }
      }
    }
  }

  lemma MakeChanKeepsRest(w: World, c: ChanId, capacity: nat)
    requires MeetingLogsOk(w) && WaitsOk(w) && c !in w.chans
    ensures MeetingLogsOk(MakeChan(w, c, capacity)) && WaitsOk(MakeChan(w, c, capacity))
  {
    var w' := MakeChan(w, c, capacity);
    forall d | d in w'.chans && d in w'.logs && w'.chans[d].capacity == 0
      ensures MeetingLogOk(w', d, w'.logs[d])
    {
      if d != c {
        LogStaysOk(w, w', d, w.logs[d]);
      }
    }
    forall h | h in w'.gs
      ensures WaitOk(w', h)
    {
      assert WaitOk(w, h);
    }
  }

  lemma MakeChanKeepsInv(w: World, c: ChanId, capacity: nat)
    requires Inv(w) && c !in w.chans
    ensures Inv(MakeChan(w, c, capacity))
  {
    var w' := MakeChan(w, c, capacity);
    ClocksCarryOver(w, w');
    MakeChanKeepsMatched(w, c, capacity);
    MakeChanKeepsRest(w, c, capacity);
    forall d | d in w'.chans
      ensures d in w'.logs && ChanNamed(Pub(w), d, w'.chans[d], w'.logs[d])
    {
      if d != c {
        assert ChanNamed(Pub(w), d, w.chans[d], w.logs[d]);
      }
    }
  }

  predicate AboutKey(t: Token, key: int) {
    (t.SyncOf? || t.RUnlocksOf?) && t.key == key
  }

  lemma OtherSyncsStayNamed(pub: map<Token, VC>, t: Token, clock: VC, syncs: map<int, Sync>, key: int, s: Sync)
    requires SyncsNamed(pub, syncs) && AboutKey(t, key) && SyncNamed(pub[t := clock], key, s)
    ensures SyncsNamed(pub[t := clock], syncs[key := s])
  {
    forall k | k in syncs && k != key
      ensures SyncNamed(pub[t := clock], k, syncs[k])
    {
      assert SyncNamed(pub, k, syncs[k]);
    }
  }

  /** Publishing or joining one clock under a name about key, with only that primitive changed. */
  lemma SyncUpdateKeepsInv(w: World, w': World, key: int, t: Token, clock: VC)
    requires Inv(w) && key in w.syncs && AboutKey(t, key)
    requires ClocksAgree(w') && Pub(w') == Pub(w)[t := clock]
    requires key in w'.syncs && w'.syncs == w.syncs[key := w'.syncs[key]]
    requires SyncNamed(Pub(w'), key, w'.syncs[key])
    requires SameButContents(w, w') && w'.chans == w.chans && w'.logs == w.logs
    ensures Inv(w')
  {
    OtherSyncsStayNamed(Pub(w), t, clock, w.syncs, key, w'.syncs[key]);
    SudogsStayNamed(Pub(w), t, clock, w.sudogs);
    ChansStayNamed(Pub(w), t, clock, w.chans, w.logs, w.chans);
    ContentsDoNotMatter(w, w');
  }

  lemma PutSyncKeepsInv(w: World, key: int, s: Sync)
    requires Inv(w) && SyncNamed(Pub(w), key, s)
    ensures Inv(PutSync(w, key, s))
  {
    ClocksCarryOver(w, PutSync(w, key, s));
    ContentsDoNotMatter(w, PutSync(w, key, s));
  }

  lemma MakeSyncKeepsInv(w: World, key: int)
    requires Inv(w)
    ensures Inv(MakeSync(w, key)) && key in MakeSync(w, key).syncs
  {
    if key !in w.syncs {
      PutSyncKeepsInv(w, key, Sync(false, 0, 0, None, None, 0));
    }
  }

  lemma LockKeepsInv(w: World, g: Gid, key: int)
    requires Inv(w) && g in w.gs && key in w.syncs
    ensures Inv(Lock(w, g, key))
  {
    var s := w.syncs[key];
    assert SyncNamed(Pub(w), key, s);
    var w1 := MergeIf(w, g, s.lastUnlock, SyncOf(key, s.gen));
    MergeIfKeepsInv(w, g, s.lastUnlock, SyncOf(key, s.gen));
    var w2 := MergeIf(w1, g, s.rUnlock, RUnlocksOf(key));
    MergeIfKeepsInv(w1, g, s.rUnlock, RUnlocksOf(key));
    PutSyncKeepsInv(w2, key, s.(locked := true));
    SameInv(PutSync(w2, key, s.(locked := true)), Lock(w, g, key));
  }

  lemma RLockKeepsInv(w: World, g: Gid, key: int)
    requires Inv(w) && g in w.gs && key in w.syncs
    ensures Inv(RLock(w, g, key))
  {
    var s := w.syncs[key];
    assert SyncNamed(Pub(w), key, s);
    var w1 := MergeIf(w, g, s.lastUnlock, SyncOf(key, s.gen));
    MergeIfKeepsInv(w, g, s.lastUnlock, SyncOf(key, s.gen));
    PutSyncKeepsInv(w1, key, s.(readers := s.readers + 1));
    SameInv(PutSync(w1, key, s.(readers := s.readers + 1)), RLock(w, g, key));
  }

  lemma UnlockKeepsInv(w: World, g: Gid, key: int)
    requires Inv(w) && g in w.gs && key in w.syncs
    ensures Inv(Unlock(w, g, key).0)
  {
    var s, w' := w.syncs[key], Unlock(w, g, key).0;
    if s.locked {
      var t := SyncOf(key, s.gen + 1);
      assert SyncNamed(Pub(w), key, s);
      PublishAgrees(w, g, t);
      ClocksCarryOver(Publish(w, g, t), w');
      SyncUpdateKeepsInv(w, w', key, t, w.gs[g].clock);
    }
  }

  lemma RUnlockKeepsInv(w: World, g: Gid, key: int)
    requires Inv(w) && g in w.gs && key in w.syncs
    ensures Inv(RUnlock(w, g, key).0)
  {
    var s, w' := w.syncs[key], RUnlock(w, g, key).0;
    if s.readers > 0 {
      var t := RUnlocksOf(key);
      assert SyncNamed(Pub(w), key, s);
      JoinAgrees(w, g, t);
      ClocksCarryOver(JoinAs(w, g, t), w');
      SyncUpdateKeepsInv(w, w', key, t, Joined(s.rUnlock, w.gs[g].clock).value);
    }
  }

  lemma GroupDoneKeepsInv(w: World, g: Gid, key: int, delta: int)
    requires Inv(w) && g in w.gs && key in w.syncs && delta < 0
    ensures Inv(GroupAdd(w, g, key, delta))
  {
    var s, w', t := w.syncs[key], GroupAdd(w, g, key, delta), SyncOf(key, w.syncs[key].gen);
    assert SyncNamed(Pub(w), key, s);
    JoinAgrees(w, g, t);
    ClocksCarryOver(JoinAs(w, g, t), w');
    SyncUpdateKeepsInv(w, w', key, t, Joined(s.lastUnlock, w.gs[g].clock).value);
  }

  lemma GroupAddKeepsInv(w: World, g: Gid, key: int, delta: int)
    requires Inv(w) && g in w.gs && key in w.syncs
    ensures Inv(GroupAdd(w, g, key, delta))
  {
    var s := w.syncs[key];
    if delta < 0 {
      GroupDoneKeepsInv(w, g, key, delta);
    } else {
      assert SyncNamed(Pub(w), key, s);
      PutSyncKeepsInv(w, key, s.(counter := s.counter + delta));
      SameInv(PutSync(w, key, s.(counter := s.counter + delta)), GroupAdd(w, g, key, delta));
    }
  }

  lemma GroupWaitKeepsInv(w: World, g: Gid, key: int)
    requires Inv(w) && g in w.gs && key in w.syncs
    ensures Inv(GroupWaitFor(w, g, key).0)
  {
    var s := w.syncs[key];
    assert SyncNamed(Pub(w), key, s);
    if s.counter <= 0 {
      MergeIfKeepsInv(w, g, s.lastUnlock, SyncOf(key, s.gen));
    } else {
      SetWaitKeepsInv(w, g, GroupWait(key));
    }
  }

  // ------------------------------------------------------------------
  // Steps and runs

  datatype Action =
    | DoStart(g: Gid)
    | DoGo(g: Gid, child: Gid)
    | DoMakeChan(g: Gid, c: ChanId, capacity: nat)
    | DoSend(g: Gid, c: ChanId, val: Value)
    | DoRecv(g: Gid, c: ChanId)
    | DoClose(g: Gid, c: ChanId)
    | DoSelect(g: Gid, cases: seq<Case>, blocking: bool)
    | DoLock(g: Gid, key: int)
    | DoUnlock(g: Gid, key: int)
    | DoRLock(g: Gid, key: int)
    | DoRUnlock(g: Gid, key: int)
    | DoGroupAdd(g: Gid, key: int, delta: int)
    | DoGroupWait(g: Gid, key: int)
    | DoAccess(g: Gid, acc: Acc)
    | DoResume(g: Gid)
    | DoAbort(g: Gid)

  /** What the program and the scheduler may do next. */
  predicate Allowed(w: World, a: Action) {
    match a
    case DoStart(g) => w.next <= g
    case DoResume(g) => g in w.gs && Ready(w, g)
    case DoAbort(g) => g in w.gs && !w.gs[g].wait.NoWait? && !w.gs[g].wait.Aborted?
    case DoGo(g, child) => g in w.gs && w.gs[g].wait.NoWait? && w.next <= child
    case DoMakeChan(g, c, _) => g in w.gs && w.gs[g].wait.NoWait? && c !in w.chans
    case _ => a.g in w.gs && w.gs[a.g].wait.NoWait?
  }

  /** Every queue entry and every wait refers to something that exists. */
  ghost predicate NoDangling(w: World) {
    && (forall c :: c in w.chans ==> KnownChan(w, c))
    && (forall g :: g in w.gs ==> KnownWait(w, g))
  }

  lemma InvHasNoDangling(w: World)
    requires Inv(w)
    ensures NoDangling(w)
  {
    forall c | c in w.chans
      ensures KnownChan(w, c)
    {
      InvKnowsChan(w, c);
    }
    forall g | g in w.gs
      ensures KnownWait(w, g)
    {
      InvKnowsWait(w, g);
    }
  }

  ghost function Step(w: World, a: Action): (World, Outcome)
    requires NoDangling(w) && Allowed(w, a)
  {
    match a
    case DoStart(g) => (StartEntry(w, g), Done)
    case DoGo(g, child) => (Go(w, g, child), Done)
    case DoMakeChan(_, c, capacity) => (MakeChan(w, c, capacity), Done)
    case DoSend(g, c, val) => Send(w, g, c, val)
    case DoRecv(g, c) => Recv(w, g, c)
    case DoClose(g, c) => Close(w, g, c)
    case DoSelect(g, cases, blocking) => Select(w, g, cases, blocking)
    case DoLock(g, key) => (Lock(MakeSync(w, key), g, key), Done)
    case DoUnlock(g, key) => Unlock(MakeSync(w, key), g, key)
    case DoRLock(g, key) => (RLock(MakeSync(w, key), g, key), Done)
    case DoRUnlock(g, key) => RUnlock(MakeSync(w, key), g, key)
    case DoGroupAdd(g, key, delta) => (GroupAdd(MakeSync(w, key), g, key, delta), Done)
    case DoGroupWait(g, key) => GroupWaitFor(MakeSync(w, key), g, key)
    case DoAccess(g, acc) => (Touch(w, g, acc), Done)
    case DoResume(g) => Resume(w, g)
    case DoAbort(g) => (Abort(w, g), Done)
  }

  predicate OnMutex(a: Action) {
    a.DoLock? || a.DoUnlock? || a.DoRLock? || a.DoRUnlock?
  }

  /** The new state of a mutex action once the mutex exists. */
  function AfterMutex(w: World, a: Action): World
    requires OnMutex(a) && a.g in w.gs && a.key in w.syncs
  {
    match a
    case DoLock(g, key) => Lock(w, g, key)
    case DoUnlock(g, key) => Unlock(w, g, key).0
    case DoRLock(g, key) => RLock(w, g, key)
    case DoRUnlock(g, key) => RUnlock(w, g, key).0
  }

  lemma MutexStep(w: World, a: Action)
    requires NoDangling(w) && Allowed(w, a) && OnMutex(a)
    ensures a.g in w.gs && Step(w, a).0 == AfterMutex(MakeSync(w, a.key), a)
  {
  }

  lemma ChannelStepKeepsInv(w: World, a: Action, w': World)
    requires Inv(w) && NoDangling(w) && Allowed(w, a) && w' == Step(w, a).0
    requires a.DoMakeChan? || a.DoSend? || a.DoRecv? || a.DoClose? || a.DoSelect?
    ensures Inv(w')
  {
    match a
    case DoMakeChan(_, c, capacity) => MakeChanKeepsInv(w, c, capacity); SameInv(MakeChan(w, c, capacity), w');
    case DoSend(g, c, val) => SendKeepsInv(w, g, c, val); SameInv(Send(w, g, c, val).0, w');
    case DoRecv(g, c) => RecvKeepsInv(w, g, c); SameInv(Recv(w, g, c).0, w');
    case DoClose(g, c) => CloseKeepsInv(w, g, c); SameInv(Close(w, g, c).0, w');
    case DoSelect(g, cases, blocking) =>
      SelectKeepsInv(w, g, cases, blocking);
      SameInv(Select(w, g, cases, blocking).0, w');
  }

  lemma SyncStepKeepsInv(w: World, a: Action, w': World)
    requires Inv(w) && NoDangling(w) && Allowed(w, a) && w' == Step(w, a).0
    requires a.DoLock? || a.DoUnlock? || a.DoRLock? || a.DoRUnlock? || a.DoGroupAdd? || a.DoGroupWait?
    ensures Inv(w')
  {
    var g, key := a.g, a.key;
    var w1 := MakeSync(w, key);
    MakeSyncKeepsInv(w, key);
    match a
    case DoLock(_, _) => LockKeepsInv(w1, g, key); SameInv(Lock(w1, g, key), w');
    case DoUnlock(_, _) => UnlockKeepsInv(w1, g, key); SameInv(Unlock(w1, g, key).0, w');
    case DoRLock(_, _) => RLockKeepsInv(w1, g, key); SameInv(RLock(w1, g, key), w');
    case DoRUnlock(_, _) => RUnlockKeepsInv(w1, g, key); SameInv(RUnlock(w1, g, key).0, w');
    case DoGroupAdd(_, _, d) => GroupAddKeepsInv(w1, g, key, d); SameInv(GroupAdd(w1, g, key, d), w');
    case DoGroupWait(_, _) => GroupWaitKeepsInv(w1, g, key); SameInv(GroupWaitFor(w1, g, key).0, w');
  }

  lemma OtherStepKeepsInv(w: World, a: Action, w': World)
    requires Inv(w) && NoDangling(w) && Allowed(w, a) && w' == Step(w, a).0
    requires a.DoStart? || a.DoGo? || a.DoAccess? || a.DoResume? || a.DoAbort?
    ensures Inv(w')
  {
    match a
    case DoStart(g) => StartKeepsInv(w, g); SameInv(StartEntry(w, g), w');
    case DoGo(g, child) => GoKeepsInv(w, g, child); SameInv(Go(w, g, child), w');
    case DoAccess(g, acc) => TouchKeepsInv(w, g, acc); SameInv(Touch(w, g, acc), w');
    case DoResume(g) => ResumeKeepsInv(w, g); SameInv(Resume(w, g).0, w');
    case DoAbort(g) => AbortKeepsInv(w, g); SameInv(Abort(w, g), w');
  }

  lemma StepKeepsInv(w: World, a: Action, w': World)
    requires Inv(w) && NoDangling(w) && Allowed(w, a) && w' == Step(w, a).0
    ensures Inv(w')
  {
    if a.DoMakeChan? || a.DoSend? || a.DoRecv? || a.DoClose? || a.DoSelect? {
      ChannelStepKeepsInv(w, a, w');
    } else if a.DoStart? || a.DoGo? || a.DoAccess? || a.DoResume? || a.DoAbort? {
      OtherStepKeepsInv(w, a, w');
    } else {
      SyncStepKeepsInv(w, a, w');
    }
  }

  /** A run from a fresh interpreter. */
  datatype Execution = Execution(worlds: seq<World>, acts: seq<Action>)

  ghost predicate IsExecution(e: Execution) {
    && |e.worlds| == |e.acts| + 1
    && e.worlds[0] == Fresh
    && forall n {:trigger e.acts[n]} :: 0 <= n < |e.acts| ==>
         && NoDangling(e.worlds[n]) && Allowed(e.worlds[n], e.acts[n])
         && e.worlds[n + 1] == Step(e.worlds[n], e.acts[n]).0
  }

  /** Every state of every run satisfies the invariant; in particular nothing ever dangles, so
      a run never gets stuck on a missing queue entry. */
  lemma {:induction false} RunsKeepInv(e: Execution, n: nat)
    requires IsExecution(e) && n < |e.worlds|
    ensures Inv(e.worlds[n]) && NoDangling(e.worlds[n])
  {
    if n == 0 {
      FreshInv();
    } else {
      RunsKeepInv(e, n - 1);
      StepKeepsInv(e.worlds[n - 1], e.acts[n - 1], e.worlds[n]);
    }
    InvHasNoDangling(e.worlds[n]);
  }
}
