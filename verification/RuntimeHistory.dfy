/** What later steps of a run may and may not do to earlier state. */
module RuntimeHistory {
  import opened Clock
  import opened ClockMachine
  import opened Detector
  import opened Runtime
  import opened RuntimeInvariant
  import opened RuntimeRuns

  /** Sudog s' is s with at most its completion added. */
  predicate SameOffer(s: Sudog, s': Sudog) {
    && s'.gid == s.gid && s'.ch == s.ch && s'.send == s.send && s'.clock == s.clock
    && s'.sel == s.sel && s'.caseIdx == s.caseIdx
    && (s.send ==> s'.val == s.val)
  }

  /** Once a waiter is completed or withdrawn it stays so, with the counterpart and value it had. */
  predicate StaysSettled(w: World, w': World, i: nat)
    requires i < |w.sudogs| <= |w'.sudogs|
  {
    !Live(w, i) ==>
      !Live(w', i) && w'.sudogs[i].peer == w.sudogs[i].peer && w'.sudogs[i].val == w.sudogs[i].val
  }

  /** The trace is extended by steps that access no memory. */
  predicate Silent(w: World, w': World) {
    && w.trace <= w'.trace
    && forall k :: |w.trace| <= k < |w'.trace| ==> !w'.trace[k].Access?
  }

  /** Settled waiters are untouched. */
  ghost predicate KeepsSettled(w: World, w': World) {
    && |w.sudogs| <= |w'.sudogs|
    && (forall i: nat :: i < |w.sudogs| ==> SameOffer(w.sudogs[i], w'.sudogs[i]))
    && (forall i: nat :: i < |w.sudogs| ==> StaysSettled(w, w', i))
  }

  ghost predicate Later(w: World, w': World) {
    Silent(w, w') && KeepsSettled(w, w')
  }

  lemma SettledTransitive(w1: World, w2: World, w3: World)
    requires KeepsSettled(w1, w2) && KeepsSettled(w2, w3)
    ensures KeepsSettled(w1, w3)
  {
    forall i: nat | i < |w1.sudogs|
      ensures SameOffer(w1.sudogs[i], w3.sudogs[i]) && StaysSettled(w1, w3, i)
    {
      assert SameOffer(w1.sudogs[i], w2.sudogs[i]) && SameOffer(w2.sudogs[i], w3.sudogs[i]);
      assert StaysSettled(w1, w2, i) && StaysSettled(w2, w3, i);
    }
  }

  lemma LaterTransitive(w1: World, w2: World, w3: World)
    requires Later(w1, w2) && Later(w2, w3)
    ensures Later(w1, w3)
  {
    SettledTransitive(w1, w2, w3);
  }

  /** Steps that touch no waiter. */
  lemma OnlyLonger(w: World, w': World)
    requires Silent(w, w') && w'.sudogs == w.sudogs && w'.sels == w.sels
    ensures Later(w, w')
  {
  }

  lemma OfferIsLater(w: World, g: Gid, c: ChanId, send: bool, val: Value, sel: Option<nat>, caseIdx: nat)
    requires g in w.gs && c in w.chans
    ensures Later(w, Offer(w, g, c, send, val, sel, caseIdx))
  {
    var w' := Offer(w, g, c, send, val, sel, caseIdx);
    assert forall i: nat :: i < |w.sudogs| ==> w'.sudogs[i] == w.sudogs[i];
  }

  lemma ClaimIsLater(w: World, i: nat, peer: VC)
    requires Live(w, i)
    ensures Later(w, Claim(w, i, peer))
  {
  }

  lemma MeetIsLater(w: World, g: Gid, i: nat)
    requires g in w.gs && Live(w, i)
    ensures Later(w, Meet(w, g, i))
  {
    var w1 := Merge(w, g, w.sudogs[i].clock, OfferOf(i));
    var w2 := Publish(w1, g, ReplyOf(i));
    OnlyLonger(w, w2);
    ClaimIsLater(w2, i, w1.gs[g].clock);
    LaterTransitive(w, w2, Meet(w, g, i));
  }

  lemma GiveToIsLater(w: World, g: Gid, c: ChanId, k: nat, val: Value)
    requires g in w.gs && KnownChan(w, c) && k < |w.chans[c].recvq| && Live(w, w.chans[c].recvq[k])
    requires QueueOk(w, w.chans[c].recvq, c, false)
    ensures Later(w, GiveTo(w, g, c, k, val))
  {
    var ch, log := w.chans[c], w.logs[c];
    var i := ch.recvq[k];
    var w1 := w.(chans := w.chans[c := ch.(recvq := ch.recvq[k + 1..])],
                 sudogs := w.sudogs[i := w.sudogs[i].(val := val)],
                 logs := w.logs[c := log.(sent := log.sent + [val], pending := log.pending[i := |log.sent|])]);
    assert On(w, i, c, false);
    assert Later(w, w1);
    MeetIsLater(w1, g, i);
    LaterTransitive(w, w1, GiveTo(w, g, c, k, val));
  }

  lemma TakeFromIsLater(w: World, g: Gid, c: ChanId, k: nat)
    requires g in w.gs && KnownChan(w, c) && k < |w.chans[c].sendq| && Live(w, w.chans[c].sendq[k])
    ensures Later(w, TakeFrom(w, g, c, k))
  {
    var ch, log := w.chans[c], w.logs[c];
    var i := ch.sendq[k];
    var val := w.sudogs[i].val;
    var w1 := w.(chans := w.chans[c := ch.(sendq := ch.sendq[k + 1..])],
                 logs := w.logs[c := log.(sent := log.sent + [val], taken := log.taken + [(|log.sent|, val)])]);
    OnlyLonger(w, w1);
    MeetIsLater(w1, g, i);
    LaterTransitive(w, w1, TakeFrom(w, g, c, k));
  }

  lemma SendIsLater(w: World, g: Gid, c: ChanId, val: Value)
    requires g in w.gs && (c in w.chans ==> KnownChan(w, c)) && QueuesOk(w)
    ensures Later(w, Send(w, g, c, val).0)
  {
    if c in w.chans {
      var ch := w.chans[c];
      var w' := Send(w, g, c, val).0;
      if ch.capacity > 0 || ch.closed {
        OnlyLonger(w, w');
      } else if FirstLive(w, ch.recvq) < |ch.recvq| {
        GiveToIsLater(w, g, c, FirstLive(w, ch.recvq), val);
      } else {
        OfferIsLater(w, g, c, true, val, None, 0);
        OnlyLonger(Offer(w, g, c, true, val, None, 0), w');
        LaterTransitive(w, Offer(w, g, c, true, val, None, 0), w');
      }
    } else {
      OnlyLonger(w, w);
    }
  }

  lemma RecvReadyIsLater(w: World, g: Gid, c: ChanId)
    requires g in w.gs && KnownChan(w, c)
    ensures Later(w, RecvReady(w, g, c).0)
  {
    var ch := w.chans[c];
    if |ch.buf| == 0 && ch.capacity == 0 && !ch.closed && FirstLive(w, ch.sendq) < |ch.sendq| {
      TakeFromIsLater(w, g, c, FirstLive(w, ch.sendq));
    } else {
      OnlyLonger(w, RecvReady(w, g, c).0);
    }
  }

  lemma RecvIsLater(w: World, g: Gid, c: ChanId)
    requires g in w.gs && (c in w.chans ==> KnownChan(w, c))
    ensures Later(w, Recv(w, g, c).0)
  {
    if c in w.chans {
      var ch := w.chans[c];
      var w' := Recv(w, g, c).0;
      if ch.capacity == 0 && !ch.closed {
        if FirstLive(w, ch.sendq) < |ch.sendq| {
          TakeFromIsLater(w, g, c, FirstLive(w, ch.sendq));
        } else {
          OfferIsLater(w, g, c, false, ZERO, None, 0);
          OnlyLonger(Offer(w, g, c, false, ZERO, None, 0), w');
          LaterTransitive(w, Offer(w, g, c, false, ZERO, None, 0), w');
        }
      } else if CanRecv(w, c, None) {
        RecvReadyIsLater(w, g, c);
      } else {
        OnlyLonger(w, w');
      }
    } else {
      OnlyLonger(w, w);
    }
  }

  lemma {:induction false} OfferAllIsLater(w: World, g: Gid, sw: nat, cases: seq<Case>, j: nat)
    requires g in w.gs && j <= |cases|
    ensures Later(w, OfferAll(w, g, sw, cases, j))
    decreases |cases| - j
  {
    if j == |cases| {
      OnlyLonger(w, w);
    } else if Offered(w, cases[j]) {
      var w1 := Offer(w, g, cases[j].ch.value, cases[j].send, cases[j].val, Some(sw), j);
      OfferIsLater(w, g, cases[j].ch.value, cases[j].send, cases[j].val, Some(sw), j);
      OfferAllIsLater(w1, g, sw, cases, j + 1);
      LaterTransitive(w, w1, OfferAll(w1, g, sw, cases, j + 1));
    } else {
      OfferAllIsLater(w, g, sw, cases, j + 1);
    }
  }

  lemma SelectCaseIsLater(w: World, g: Gid, cases: seq<Case>, k: nat)
    requires g in w.gs && k < |cases| && KnownCases(w, cases) && QueuesOk(w)
    requires cases[k].ch.Some? && cases[k].ch.value in w.chans
    ensures Later(w, SelectCase(w, g, cases, k).0)
  {
    if cases[k].send {
      SendIsLater(w, g, cases[k].ch.value, cases[k].val);
    } else {
      RecvReadyIsLater(w, g, cases[k].ch.value);
    }
  }

  lemma SelectIsLater(w: World, g: Gid, cases: seq<Case>, blocking: bool)
    requires g in w.gs && KnownCases(w, cases) && QueuesOk(w)
    ensures Later(w, Select(w, g, cases, blocking).0)
  {
    var k := FirstReady(w, cases, None);
    if k < |cases| {
      SelectCaseIsLater(w, g, cases, k);
    } else if !blocking {
      OnlyLonger(w, w);
    } else {
      var w0 := w.(sels := w.sels + [SelectWait(g, false, None)]);
      var w1 := OfferAll(w0, g, |w.sels|, cases, 0);
      assert Later(w, w0);
      OfferAllIsLater(w0, g, |w.sels|, cases, 0);
      LaterTransitive(w, w0, w1);
      OnlyLonger(w1, Select(w, g, cases, blocking).0);
      LaterTransitive(w, w1, Select(w, g, cases, blocking).0);
    }
  }

  lemma SelectResumeIsLater(w: World, g: Gid, sw: nat, cases: seq<Case>)
    requires g in w.gs && KnownWait(w, g) && w.gs[g].wait == SelWait(sw, cases) && QueuesOk(w)
    ensures Later(w, SelectResume(w, g, sw, cases).0)
  {
    var w' := SelectResume(w, g, sw, cases).0;
    if w.sels[sw].fired {
      OnlyLonger(w, w');
    } else {
      var w1 := SetWait(w, g, NoWait).(sels := w.sels[sw := w.sels[sw].(fired := true)]);
      assert Later(w, w1);
      var k := FirstReady(w1, cases, None);
      if k < |cases| {
        assert KnownCases(w1, cases) && QueuesOk(w1);
        SelectCaseIsLater(w1, g, cases, k);
        LaterTransitive(w, w1, w');
      }
    }
  }

  predicate Untouched(w: World, w': World) {
    Silent(w, w') && w'.sudogs == w.sudogs && w'.sels == w.sels
  }

  lemma CollectIsSilent(w: World, g: Gid, i: nat)
    requires g in w.gs && i < |w.sudogs|
    ensures g in Collect(w, g, i).gs && Untouched(w, Collect(w, g, i))
    ensures Untouched(w, TickNow(Collect(w, g, i), g))
  {
  }

  lemma UnbufferedResumeIsLater(w: World, g: Gid)
    requires g in w.gs && KnownWait(w, g) && (w.gs[g].wait.SendWait? || w.gs[g].wait.RecvWait?)
    ensures Later(w, Resume(w, g).0)
  {
    CollectIsSilent(SetWait(w, g, NoWait), g, w.gs[g].wait.sd);
    OnlyLonger(w, Resume(w, g).0);
  }

  lemma ResumeIsLater(w: World, g: Gid)
    requires g in w.gs && KnownWait(w, g) && QueuesOk(w)
    ensures Later(w, Resume(w, g).0)
  {
    var w0 := SetWait(w, g, NoWait);
    match w.gs[g].wait
    case SelWait(sw, cases) => SelectResumeIsLater(w, g, sw, cases);
    case SendWait(_, _) => UnbufferedResumeIsLater(w, g);
    case RecvWait(_, _) => UnbufferedResumeIsLater(w, g);
    case BufRecvWait(c) =>
      OnlyLonger(w, w0);
      assert KnownChan(w0, c);
      RecvReadyIsLater(w0, g, c);
      LaterTransitive(w, w0, Resume(w, g).0);
    case _ => OnlyLonger(w, Resume(w, g).0);
  }

  lemma AbortIsLater(w: World, g: Gid)
    requires g in w.gs && KnownWait(w, g)
    ensures Later(w, Abort(w, g))
  {
  }

  lemma MutexLeavesWaiters(w: World, a: Action)
    requires OnMutex(a) && a.g in w.gs && a.key in w.syncs
    ensures Untouched(w, AfterMutex(w, a))
  {
  }

  lemma GroupLeavesWaiters(w: World, g: Gid, key: int, delta: int)
    requires g in w.gs && key in w.syncs
    ensures Untouched(w, GroupAdd(w, g, key, delta)) && Untouched(w, GroupWaitFor(w, g, key).0)
  {
  }

  lemma MutexStepIsLater(w: World, a: Action)
    requires OnMutex(a) && a.g in w.gs
    ensures Later(w, AfterMutex(MakeSync(w, a.key), a))
  {
    MutexLeavesWaiters(MakeSync(w, a.key), a);
    OnlyLonger(w, AfterMutex(MakeSync(w, a.key), a));
  }

  lemma GroupStepIsLater(w: World, a: Action, w': World)
    requires NoDangling(w) && Allowed(w, a) && w' == Step(w, a).0
    requires a.DoGroupAdd? || a.DoGroupWait?
    ensures Later(w, w')
  {
    GroupLeavesWaiters(MakeSync(w, a.key), a.g, a.key, if a.DoGroupAdd? then a.delta else 0);
    OnlyLonger(w, w');
  }

  lemma PlainStepIsLater(w: World, a: Action, w': World)
    requires NoDangling(w) && Allowed(w, a) && w' == Step(w, a).0
    requires a.DoStart? || a.DoGo? || a.DoMakeChan? || a.DoClose?
    ensures Later(w, w')
  {
    OnlyLonger(w, w');
  }

  lemma StepIsLater(w: World, a: Action, w': World)
    requires QueuesOk(w) && NoDangling(w) && Allowed(w, a) && w' == Step(w, a).0 && !a.DoAccess?
    ensures Later(w, w')
  {
    if a.DoSend? {
      SendIsLater(w, a.g, a.c, a.val);
    } else if a.DoRecv? {
      RecvIsLater(w, a.g, a.c);
    } else if a.DoSelect? {
      SelectIsLater(w, a.g, a.cases, a.blocking);
    } else if a.DoResume? {
      ResumeIsLater(w, a.g);
    } else if a.DoAbort? {
      AbortIsLater(w, a.g);
    } else if a.DoStart? || a.DoGo? || a.DoMakeChan? || a.DoClose? {
      PlainStepIsLater(w, a, w');
    } else if a.DoGroupAdd? || a.DoGroupWait? {
      GroupStepIsLater(w, a, w');
    } else {
      MutexStep(w, a);
      MutexStepIsLater(w, a);
    }
  }

  /** Over any stretch of any run, a completed or withdrawn waiter stays completed or withdrawn,
      with the same counterpart and value: no counterpart claims a waiter twice, or claims an offer
      after it was withdrawn. The trace only grows. */
  lemma {:induction false} SettledForever(e: Execution, m: nat, n: nat)
    requires IsExecution(e) && m <= n < |e.worlds|
    ensures KeepsSettled(e.worlds[m], e.worlds[n])
    ensures e.worlds[m].trace <= e.worlds[n].trace
  {
    if m == n {
      OnlyLonger(e.worlds[m], e.worlds[n]);
    } else {
      var k := n - 1;
      SettledForever(e, m, k);
      RunsKeepInv(e, k);
      assert e.worlds[k + 1] == Step(e.worlds[k], e.acts[k]).0;
      if !e.acts[k].DoAccess? {
        StepIsLater(e.worlds[k], e.acts[k], e.worlds[n]);
      }
      assert KeepsSettled(e.worlds[k], e.worlds[n]);
      SettledTransitive(e.worlds[m], e.worlds[k], e.worlds[n]);
    }
  }
}
