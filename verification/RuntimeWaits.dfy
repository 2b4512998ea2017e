/** What waiting means: a goroutine waits exactly from an operation that could not complete until it
    resumes or is aborted, for that operation; and on an open channel the waiters others can meet are
    exactly the unanswered operations of goroutines that wait. */
module RuntimeWaits {
  import opened Clock
  import opened ClockMachine
  import opened Detector
  import opened Runtime
  import opened RuntimeInvariant
  import opened RuntimeRuns
  import opened RuntimeHistory
  import opened RuntimeTheorems
  import opened RuntimeDelivery
  import opened RuntimeSends
  import opened RuntimeMade
  import opened RuntimeDeadlock

  // ------------------------------------------------------------------
  // A wait is of the operation that began it

  /** wait is how action a waits when it cannot complete in w. */
  predicate WaitFor(w: World, a: Action, wait: Wait) {
    match a
    case DoSend(_, c, val) =>
      c in w.chans && wait == if w.chans[c].capacity == 0 then SendWait(c, |w.sudogs|) else BufSendWait(c, val)
    case DoRecv(_, c) =>
      c in w.chans && wait == if w.chans[c].capacity == 0 then RecvWait(c, |w.sudogs|) else BufRecvWait(c)
    case DoSelect(_, cases, blocking) => blocking && wait == SelWait(|w.sels|, cases)
    case DoGroupWait(_, key) => wait == GroupWait(key)
    case _ => false
  }

  /** The action parked exactly if its goroutine now waits, and then for that action. */
  ghost predicate ParksOrNot(w: World, a: Action, w': World, out: Outcome) {
    && a.g in w'.gs
    && (out == Parked <==> !w'.gs[a.g].wait.NoWait?)
    && (out == Parked ==> WaitFor(w, a, w'.gs[a.g].wait))
  }

  lemma SendParks(w: World, g: Gid, c: ChanId, val: Value)
    requires g in w.gs && w.gs[g].wait.NoWait? && (c in w.chans ==> KnownChan(w, c))
    ensures var (w', out) := Send(w, g, c, val); ParksOrNot(w, DoSend(g, c, val), w', out)
  {
  }

  lemma RecvReadyParksNot(w: World, g: Gid, c: ChanId)
    requires g in w.gs && w.gs[g].wait.NoWait? && KnownChan(w, c)
    ensures var (w', out) := RecvReady(w, g, c); g in w'.gs && out.RecvDone? && w'.gs[g].wait.NoWait?
  {
  }

  lemma RecvParks(w: World, g: Gid, c: ChanId)
    requires g in w.gs && w.gs[g].wait.NoWait? && (c in w.chans ==> KnownChan(w, c))
    ensures var (w', out) := Recv(w, g, c); ParksOrNot(w, DoRecv(g, c), w', out)
  {
    if c in w.chans {
      RecvReadyParksNot(w, g, c);
    }
  }

  lemma ReadyCaseParksNot(w: World, g: Gid, cases: seq<Case>, k: nat)
    requires g in w.gs && w.gs[g].wait.NoWait? && k < |cases| && KnownCases(w, cases) && CaseReady(w, cases[k], None)
    ensures var (w', out) := SelectCase(w, g, cases, k); g in w'.gs && out != Parked && w'.gs[g].wait.NoWait?
  {
    ReadyCaseFinishes(w, g, cases, k);
    if cases[k].send {
      SendParks(w, g, cases[k].ch.value, cases[k].val);
    } else {
      RecvReadyParksNot(w, g, cases[k].ch.value);
    }
  }

  lemma SelectParks(w: World, g: Gid, cases: seq<Case>, blocking: bool)
    requires g in w.gs && w.gs[g].wait.NoWait? && KnownCases(w, cases)
    ensures var (w', out) := Select(w, g, cases, blocking); ParksOrNot(w, DoSelect(g, cases, blocking), w', out)
  {
    var k := FirstReady(w, cases, None);
    if k < |cases| {
      ReadyCaseParksNot(w, g, cases, k);
    }
  }

  lemma SelectResumeParksNot(w: World, g: Gid)
    requires g in w.gs && KnownWait(w, g) && w.gs[g].wait.SelWait? && Ready(w, g)
    ensures var (w', out) := Resume(w, g); g in w'.gs && out != Parked && w'.gs[g].wait.NoWait?
  {
    var sw, cases := w.gs[g].wait.sw, w.gs[g].wait.cases;
    if !w.sels[sw].fired {
      var w1 := Withdrawn(w, g, sw);
      WithdrawnFirstReady(w, g, sw, cases);
      assert KnownCases(w1, cases);
      ReadyCaseParksNot(w1, g, cases, FirstReady(w1, cases, None));
    }
  }

  lemma ResumeParksNot(w: World, g: Gid)
    requires g in w.gs && KnownWait(w, g) && Ready(w, g)
    ensures var (w', out) := Resume(w, g); g in w'.gs && out != Parked && w'.gs[g].wait.NoWait?
  {
    if w.gs[g].wait.SelWait? {
      SelectResumeParksNot(w, g);
    } else if w.gs[g].wait.BufRecvWait? {
      var w0 := SetWait(w, g, NoWait);
      assert KnownChan(w0, w.gs[g].wait.ch);
      RecvReadyParksNot(w0, g, w.gs[g].wait.ch);
    }
  }

  lemma MutexParksNot(w: World, a: Action)
    requires OnMutex(a) && a.g in w.gs && w.gs[a.g].wait.NoWait? && a.key in w.syncs
    ensures a.g in AfterMutex(w, a).gs && AfterMutex(w, a).gs[a.g].wait.NoWait?
  {
  }

  lemma GroupParks(w: World, g: Gid, key: int, delta: int)
    requires g in w.gs && w.gs[g].wait.NoWait? && key in w.syncs
    ensures g in GroupAdd(w, g, key, delta).gs && GroupAdd(w, g, key, delta).gs[g].wait.NoWait?
    ensures var (w', out) := GroupWaitFor(w, g, key);
      && g in w'.gs && (out == Parked <==> !w'.gs[g].wait.NoWait?) && (out == Parked ==> w'.gs[g].wait == GroupWait(key))
  {
  }

  lemma SyncParks(w: World, a: Action, w': World, out: Outcome)
    requires NoDangling(w) && Allowed(w, a) && (w', out) == Step(w, a) && (OnMutex(a) || a.DoGroupAdd? || a.DoGroupWait?)
    ensures ParksOrNot(w, a, w', out)
  {
    if OnMutex(a) {
      MutexStep(w, a);
      MutexParksNot(MakeSync(w, a.key), a);
      assert out != Parked;
    } else {
      GroupParks(MakeSync(w, a.key), a.g, a.key, if a.DoGroupAdd? then a.delta else 0);
    }
  }

  /** Every action but an abort parks its goroutine, in a wait for that action, or leaves it able to act. */
  lemma StepParks(w: World, a: Action, w': World, out: Outcome)
    requires NoDangling(w) && Allowed(w, a) && (w', out) == Step(w, a) && !a.DoAbort?
    ensures ParksOrNot(w, a, w', out)
  {
    if a.DoSend? {
      SendParks(w, a.g, a.c, a.val);
    } else if a.DoRecv? {
      RecvParks(w, a.g, a.c);
    } else if a.DoSelect? {
      SelectParks(w, a.g, a.cases, a.blocking);
    } else if a.DoResume? {
      ResumeParksNot(w, a.g);
    } else if OnMutex(a) || a.DoGroupAdd? || a.DoGroupWait? {
      SyncParks(w, a, w', out);
    }
  }

  /** Step m began what goroutine g still waits for before step n; g did nothing since. */
  ghost predicate Began(e: Execution, m: nat, n: nat, g: Gid)
    requires IsExecution(e) && n < |e.worlds|
  {
    && m < n && e.acts[m].g == g && Step(e.worlds[m], e.acts[m]).1 == Parked
    && g in e.worlds[n].gs && WaitFor(e.worlds[m], e.acts[m], e.worlds[n].gs[g].wait)
    && forall k :: m < k < n ==> e.acts[k].g != g
  }

  lemma IdsAreFresh(e: Execution, n: nat, g: Gid)
    requires IsExecution(e) && n < |e.worlds| && g in e.worlds[n].gs
    ensures g < e.worlds[n].next
  {
    ReachableOwnAhead(e, n);
  }

  /** Another goroutine's step leaves g as it is. */
  lemma OthersStay(e: Execution, m: nat, g: Gid)
    requires IsExecution(e) && m < |e.acts| && g in e.worlds[m].gs && e.acts[m].g != g
    ensures g in e.worlds[m + 1].gs && e.worlds[m + 1].gs[g] == e.worlds[m].gs[g]
  {
    var w, a := e.worlds[m], e.acts[m];
    assert Allowed(w, a) && NoDangling(w) && e.worlds[m + 1] == Step(w, a).0;
    IdsAreFresh(e, m, g);
    if !a.DoStart? && !a.DoGo? {
      StepIsOwn(w, a);
    }
  }

  lemma NewcomersCanAct(e: Execution, m: nat, g: Gid)
    requires IsExecution(e) && m < |e.acts| && g !in e.worlds[m].gs && g in e.worlds[m + 1].gs
    ensures e.worlds[m + 1].gs[g].wait.NoWait?
  {
    var w, a := e.worlds[m], e.acts[m];
    assert Allowed(w, a) && NoDangling(w) && e.worlds[m + 1] == Step(w, a).0;
    if !a.DoStart? && !a.DoGo? {
      StepIsOwn(w, a);
    }
  }

  /** In every run a goroutine waits for the operation it last began, which could not complete. */
  lemma {:induction false} WaitBegan(e: Execution, n: nat, g: Gid) returns (m: nat)
    requires IsExecution(e) && n < |e.worlds| && Waiting(e.worlds[n], g)
    ensures Began(e, m, n, g)
  {
    if n == 0 {
      assert false;
    } else {
      var k := n - 1;
      var w, a := e.worlds[k], e.acts[k];
      assert Allowed(w, a) && NoDangling(w) && e.worlds[k + 1] == Step(w, a).0;
      if a.g == g {
        if a.DoAbort? {
          AbortIsOwn(w, g);
        } else {
          StepParks(w, a, e.worlds[n], Step(w, a).1);
        }
        m := k;
      } else {
        if g in w.gs {
          OthersStay(e, k, g);
        } else {
          NewcomersCanAct(e, k, g);
        }
        m := WaitBegan(e, k, g);
      }
    }
  }

  // ------------------------------------------------------------------
  // A waiting select offers every case

  /** Waiter s is goroutine g's offer of case k in select sw. */
  predicate IsOfferOf(s: Sudog, g: Gid, sw: nat, cases: seq<Case>, k: nat)
    requires k < |cases|
  {
    && s.gid == g && s.sel == Some(sw) && s.caseIdx == k && cases[k].ch == Some(s.ch) && s.send == cases[k].send
    && (s.send ==> s.val == cases[k].val)
  }

  lemma {:induction false} OfferAllOffers(w: World, g: Gid, sw: nat, cases: seq<Case>, j: nat, k: nat) returns (i: nat)
    requires g in w.gs && j <= k < |cases| && Offered(w, cases[k])
    ensures |w.sudogs| <= i < |OfferAll(w, g, sw, cases, j).sudogs|
    ensures IsOfferOf(OfferAll(w, g, sw, cases, j).sudogs[i], g, sw, cases, k)
    decreases |cases| - j
  {
    if Offered(w, cases[j]) {
      var w1 := Offer(w, g, cases[j].ch.value, cases[j].send, cases[j].val, Some(sw), j);
      OfferAllAppends(w1, g, sw, cases, j + 1);
      if j == k {
        i := |w.sudogs|;
        assert OfferAll(w, g, sw, cases, j).sudogs[i] == w1.sudogs[i];
      } else {
        i := OfferAllOffers(w1, g, sw, cases, j + 1, k);
      }
    } else {
      i := OfferAllOffers(w, g, sw, cases, j + 1, k);
    }
  }

  lemma ParkedSelectOffers(w: World, g: Gid, cases: seq<Case>, blocking: bool, k: nat) returns (i: nat)
    requires g in w.gs && KnownCases(w, cases) && Select(w, g, cases, blocking).1 == Parked && w.gs[g].wait.NoWait?
    requires k < |cases| && Offered(w, cases[k])
    ensures var w' := Select(w, g, cases, blocking).0;
      |w.sudogs| <= i < |w'.sudogs| && IsOfferOf(w'.sudogs[i], g, |w.sels|, cases, k)
  {
    if FirstReady(w, cases, None) < |cases| {
      ReadyCaseParksNot(w, g, cases, FirstReady(w, cases, None));
    }
    i := OfferAllOffers(w.(sels := w.sels + [SelectWait(g, false, None)]), g, |w.sels|, cases, 0, k);
  }

  /** In every run a select that waits has offered each case on an unbuffered channel, and the offer is
      still there. */
  lemma WaitingSelectOffers(e: Execution, m: nat, n: nat, g: Gid, k: nat) returns (i: nat)
    requires IsExecution(e) && n < |e.worlds| && Began(e, m, n, g) && e.worlds[n].gs[g].wait.SelWait?
    requires var cases := e.worlds[n].gs[g].wait.cases;
      k < |cases| && cases[k].ch.Some? && MadeWith(e.acts, m, cases[k].ch.value) == Some(0)
    ensures var wait := e.worlds[n].gs[g].wait;
      i < |e.worlds[n].sudogs| && IsOfferOf(e.worlds[n].sudogs[i], g, wait.sw, wait.cases, k)
  {
    var w, a := e.worlds[m], e.acts[m];
    assert Allowed(w, a) && NoDangling(w) && e.worlds[m + 1] == Step(w, a).0;
    ChannelsAreAsMade(e, m, a.cases[k].ch.value);
    i := ParkedSelectOffers(w, g, a.cases, a.blocking, k);
    SettledForever(e, m + 1, n);
    assert SameOffer(e.worlds[m + 1].sudogs[i], e.worlds[n].sudogs[i]);
  }

  // ------------------------------------------------------------------
  // Live waiters are those of goroutines that wait

  /** The goroutine of waiter i waits in it, or in its select. */
  predicate WaitsIn(w: World, i: nat) {
    && i < |w.sudogs| && w.sudogs[i].gid in w.gs
    && var s := w.sudogs[i];
    var wait := w.gs[s.gid].wait;
    if s.sel.Some? then wait.SelWait? && wait.sw == s.sel.value
    else wait == if s.send then SendWait(s.ch, i) else RecvWait(s.ch, i)
  }

  /** No counterpart has met waiter i, nor another case of its select. */
  ghost predicate Unmet(w: World, i: nat) {
    && i < |w.sudogs| && w.sudogs[i].peer.None?
    && (w.sudogs[i].sel.Some? ==> forall j :: 0 <= j < |w.sudogs| && w.sudogs[j].sel == w.sudogs[i].sel ==> w.sudogs[j].peer.None?)
  }

  predicate OpenFor(w: World, i: nat) {
    i < |w.sudogs| && w.sudogs[i].ch in w.chans && !w.chans[w.sudogs[i].ch].closed
  }

  lemma NewSelectWaiters(w: World, g: Gid, cases: seq<Case>, blocking: bool, i: nat)
    requires g in w.gs && w.gs[g].wait.NoWait? && KnownCases(w, cases)
    requires |w.sudogs| <= i < |Select(w, g, cases, blocking).0.sudogs|
    ensures WaitsIn(Select(w, g, cases, blocking).0, i)
  {
    var w' := Select(w, g, cases, blocking).0;
    var k := FirstReady(w, cases, None);
    if k < |cases| {
      ReadyCaseOffersNothing(w, g, cases, k);
    } else {
      OfferAllSelects(w.(sels := w.sels + [SelectWait(g, false, None)]), g, |w.sels|, cases, 0, i);
    }
  }

  lemma {:induction false} OfferAllSelects(w: World, g: Gid, sw: nat, cases: seq<Case>, j: nat, i: nat)
    requires g in w.gs && j <= |cases| && |w.sudogs| <= i < |OfferAll(w, g, sw, cases, j).sudogs|
    ensures var s := OfferAll(w, g, sw, cases, j).sudogs[i]; s.gid == g && s.sel == Some(sw)
    decreases |cases| - j
  {
    if j < |cases| {
      if Offered(w, cases[j]) {
        var w1 := Offer(w, g, cases[j].ch.value, cases[j].send, cases[j].val, Some(sw), j);
        OfferAllAppends(w1, g, sw, cases, j + 1);
        if i == |w.sudogs| {
          assert OfferAll(w, g, sw, cases, j).sudogs[i] == w1.sudogs[i];
        } else {
          OfferAllSelects(w1, g, sw, cases, j + 1, i);
        }
      } else {
        OfferAllSelects(w, g, sw, cases, j + 1, i);
      }
    }
  }

  lemma NewPlainWaiters(w: World, a: Action, w': World, i: nat)
    requires NoDangling(w) && Allowed(w, a) && w' == Step(w, a).0 && (a.DoSend? || a.DoRecv?)
    requires |w.sudogs| <= i < |w'.sudogs|
    ensures WaitsIn(w', i)
  {
  }

  lemma NewWaitersWait(w: World, a: Action, w': World, i: nat)
    requires NoDangling(w) && Allowed(w, a) && w' == Step(w, a).0
    requires |w.sudogs| <= i < |w'.sudogs|
    ensures WaitsIn(w', i)
  {
    StepMakes(w, a, w');
    assert Makes(a, w'.sudogs[i]);
    if a.DoSelect? {
      NewSelectWaiters(w, a.g, a.cases, a.blocking, i);
    } else {
      NewPlainWaiters(w, a, w', i);
    }
  }

  /** A goroutine that goes on, or is aborted, leaves no live waiter on an open channel. */
  lemma LeavingEndsWaiter(w: World, a: Action, w': World, i: nat)
    requires SelectsOk(w) && NoDangling(w) && Allowed(w, a) && w' == Step(w, a).0 && (a.DoResume? || a.DoAbort?)
    requires WaitsIn(w, i) && w.sudogs[i].gid == a.g && OpenFor(w, i) && KeepsSettled(w, w')
    ensures !Live(w', i)
  {
    assert StaysSettled(w, w', i) && SameOffer(w.sudogs[i], w'.sudogs[i]);
    if a.DoAbort? {
    } else if w.sudogs[i].sel.Some? {
      ResumedSelectFires(w, a.g, w.sudogs[i].sel.value, w.gs[a.g].wait.cases);
    } else {
      assert w.sudogs[i].done;
    }
  }

  /** Selects that were fired or withdrawn stay so. */
  ghost predicate FiredStays(w: World, w': World) {
    |w.sels| <= |w'.sels| && forall k :: 0 <= k < |w.sels| && w.sels[k].fired ==> w'.sels[k].fired
  }

  lemma SendKeepsFired(w: World, g: Gid, c: ChanId, val: Value)
    requires g in w.gs && (c in w.chans ==> KnownChan(w, c))
    ensures FiredStays(w, Send(w, g, c, val).0)
  {
  }

  lemma RecvReadyKeepsFired(w: World, g: Gid, c: ChanId)
    requires g in w.gs && KnownChan(w, c)
    ensures FiredStays(w, RecvReady(w, g, c).0)
  {
  }

  lemma ResumedSelectFires(w: World, g: Gid, sw: nat, cases: seq<Case>)
    requires g in w.gs && KnownWait(w, g) && w.gs[g].wait == SelWait(sw, cases)
    ensures var w' := Resume(w, g).0; sw < |w'.sels| && w'.sels[sw].fired
  {
    if !w.sels[sw].fired {
      var w1 := Withdrawn(w, g, sw);
      assert KnownCases(w1, cases);
      var k := FirstReady(w1, cases, None);
      if k < |cases| {
        SendKeepsFired(w1, g, cases[k].ch.value, cases[k].val);
        RecvReadyKeepsFired(w1, g, cases[k].ch.value);
      }
    }
  }

  lemma {:induction false} LiveWaitersWait(e: Execution, n: nat, i: nat)
    requires IsExecution(e) && n < |e.worlds| && Live(e.worlds[n], i) && OpenFor(e.worlds[n], i)
    ensures WaitsIn(e.worlds[n], i)
  {
    if n == 0 {
      assert false;
    } else {
      var m := n - 1;
      var w, a, w' := e.worlds[m], e.acts[m], e.worlds[n];
      RunsKeepInv(e, m);
      assert Allowed(w, a) && w' == Step(w, a).0;
      SettledForever(e, m, n);
      if i < |w.sudogs| {
        assert StaysSettled(w, w', i) && SameOffer(w.sudogs[i], w'.sudogs[i]);
        assert Live(w, i);
        StepMakesAndCloses(w, a, w');
        LiveWaitersWait(e, m, i);
        OwnerStays(e, m, i);
      } else {
        NewWaitersWait(w, a, w', i);
      }
    }
  }

  lemma OwnerStays(e: Execution, m: nat, i: nat)
    requires IsExecution(e) && m < |e.acts| && WaitsIn(e.worlds[m], i) && OpenFor(e.worlds[m], i) && Live(e.worlds[m + 1], i)
    ensures WaitsIn(e.worlds[m + 1], i)
  {
    var w, a, w' := e.worlds[m], e.acts[m], e.worlds[m + 1];
    var g := w.sudogs[i].gid;
    RunsKeepInv(e, m);
    assert Allowed(w, a) && w' == Step(w, a).0;
    SettledForever(e, m, m + 1);
    assert SameOffer(w.sudogs[i], w'.sudogs[i]);
    if a.g != g {
      OthersStay(e, m, g);
    } else {
      IdsAreFresh(e, m, g);
      LeavingEndsWaiter(w, a, w', i);
    }
  }

  /** Whether a waiting goroutine's waiter is live. */
  lemma UnmetIsLive(w: World, i: nat)
    requires SelectsOk(w) && WaitsOk(w) && WaitsIn(w, i)
    ensures Live(w, i) <==> Unmet(w, i)
  {
    var s := w.sudogs[i];
    assert WaitOk(w, s.gid);
    if s.sel.Some? {
      assert OwnSelect(w, s.gid, s.sel.value, w.gs[s.gid].wait.cases);
      if w.sels[s.sel.value].fired {
        var j := w.sels[s.sel.value].sg.value;
        assert w.sudogs[j].sel == s.sel && w.sudogs[j].done;
      }
    }
  }

  /** In every reachable state the waiters that can be met on an open channel are exactly those in which a
      goroutine waits and which nobody has met: nothing that ended or was aborted is met any more, and
      nothing that waits is overlooked. */
  lemma LiveIffWaiting(e: Execution, n: nat, i: nat)
    requires IsExecution(e) && n < |e.worlds| && OpenFor(e.worlds[n], i)
    ensures Live(e.worlds[n], i) <==> WaitsIn(e.worlds[n], i) && Unmet(e.worlds[n], i)
  {
    RunsKeepInv(e, n);
    if Live(e.worlds[n], i) {
      LiveWaitersWait(e, n, i);
    }
    if WaitsIn(e.worlds[n], i) {
      UnmetIsLive(e.worlds[n], i);
    }
  }
}
