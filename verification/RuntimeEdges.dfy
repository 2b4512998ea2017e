/** The synchronised-before edges that channel operations owe the Go memory model, over every run: a
    send before the receive of its value, the k-th receive before the (k+C)-th send, both ways across
    a rendezvous, and a close before a receive it ends. An edge is stated as events of one step
    released to events of a later step. */
module RuntimeEdges {
  import opened Clock
  import opened ClockMachine
  import opened HappensBefore
  import opened Detector
  import opened Runtime
  import opened RuntimeInvariant
  import opened RuntimeSteps
  import opened RuntimeRuns
  import opened RuntimeHistory
  import opened RuntimeRaces
  import opened RuntimeDelivery
  import opened RuntimeMade

  /** Going from w to w' records event op. */
  ghost predicate Emits(w: World, w': World, op: Op) {
    exists i :: |w.trace| <= i < |w'.trace| && w'.trace[i] == op
  }

  lemma EmitsLater(w: World, w1: World, w2: World, op: Op)
    requires w.trace <= w1.trace <= w2.trace && (Emits(w, w1, op) || Emits(w1, w2, op))
    ensures Emits(w, w2, op)
  {
    if Emits(w, w1, op) {
      var i :| |w.trace| <= i < |w1.trace| && w1.trace[i] == op;
      assert w2.trace[i] == op;
    } else {
      var i :| |w1.trace| <= i < |w2.trace| && w2.trace[i] == op;
    }
  }

  /** What goroutine g records when it moves values on a buffered channel: the k-th send publishes and
      merges the receive C places before, the k-th receive merges the k-th send and publishes. */
  ghost predicate TellsBuffered(w: World, w': World, g: Gid, c: ChanId)
    requires c in w.chans && c in w.logs && c in w'.logs
  {
    var cap, sent, taken := w.chans[c].capacity, |w.logs[c].sent|, |w.logs[c].taken|;
    && (|w'.logs[c].sent| > sent ==>
          && sent < taken + cap && Emits(w, w', Release(g, SendOf(c, sent)))
          && (sent >= cap ==> Emits(w, w', Acquire(g, RecvOf(c, sent - cap)))))
    && (|w'.logs[c].taken| > taken ==>
          taken < sent && Emits(w, w', Acquire(g, SendOf(c, taken))) && Emits(w, w', Release(g, RecvOf(c, taken))))
  }

  /** Histories only grow, and channels keep their capacity. */
  predicate ChannelGrows(w: World, w': World, c: ChanId)
    requires c in w.chans && c in w.logs
  {
    && c in w'.chans && c in w'.logs && w'.chans[c].capacity == w.chans[c].capacity
    && |w.logs[c].sent| <= |w'.logs[c].sent| && |w.logs[c].taken| <= |w'.logs[c].taken|
    && (w.chans[c].closed ==> w'.chans[c].closed && |w'.logs[c].sent| == |w.logs[c].sent|)
  }

  ghost predicate TellsChannels(w: World, w': World, g: Gid) {
    forall c :: c in w.chans && c in w.logs ==>
      && ChannelGrows(w, w', c)
      && (w.chans[c].capacity > 0 ==> TellsBuffered(w, w', g, c))
      && (!w.chans[c].closed && w'.chans[c].closed ==> Emits(w, w', Release(g, CloseOf(c))))
  }

  /** What g records when it offers an operation, and when it completes a waiting one. */
  ghost predicate TellsWaiters(w: World, w': World, g: Gid) {
    && |w.sudogs| <= |w'.sudogs|
    && (forall i: nat :: |w.sudogs| <= i < |w'.sudogs| ==>
          w'.sudogs[i].gid == g && Emits(w, w', Release(g, OfferOf(i))))
    && (forall i: nat :: i < |w.sudogs| && w.sudogs[i].peer.None? && w'.sudogs[i].peer.Some? ==>
          Emits(w, w', Acquire(g, OfferOf(i))) && Emits(w, w', Release(g, ReplyOf(i))))
    && (forall i: nat :: i < |w.sudogs| ==> w'.sudogs[i].gid == w.sudogs[i].gid)
    && (forall i: nat :: i < |w.sudogs| && w.sudogs[i].peer.Some? ==> w'.sudogs[i].peer.Some?)
  }

  ghost predicate Tells(w: World, w': World, g: Gid) {
    w.trace <= w'.trace && TellsChannels(w, w', g) && TellsWaiters(w, w', g)
  }

  lemma QuietTells(w: World, w': World, g: Gid)
    requires w.trace <= w'.trace && w'.logs == w.logs
    requires forall c :: c in w.chans ==>
      c in w'.chans && w'.chans[c].capacity == w.chans[c].capacity && w'.chans[c].closed == w.chans[c].closed
    requires |w'.sudogs| == |w.sudogs| && forall i :: 0 <= i < |w.sudogs| ==>
      w'.sudogs[i].peer == w.sudogs[i].peer && w'.sudogs[i].gid == w.sudogs[i].gid
    ensures Tells(w, w', g)
  {
  }

  lemma OfferTells(w: World, g: Gid, c: ChanId, send: bool, val: Value, sel: Option<nat>, caseIdx: nat)
    requires g in w.gs && c in w.chans
    ensures Tells(w, Offer(w, g, c, send, val, sel, caseIdx), g)
  {
    var w' := Offer(w, g, c, send, val, sel, caseIdx);
    assert w'.trace[|w.trace|] == Release(g, OfferOf(|w.sudogs|));
    assert Emits(w, w', Release(g, OfferOf(|w.sudogs|)));
    assert forall i: nat :: i < |w.sudogs| ==> w'.sudogs[i] == w.sudogs[i];
  }

  lemma BufPutEmits(w: World, g: Gid, c: ChanId, val: Value)
    requires Named(w) && g in w.gs && KnownChan(w, c)
    requires w.chans[c].capacity > 0 && |w.chans[c].buf| < w.chans[c].capacity
    ensures TellsBuffered(w, BufPut(w, g, c, val), g, c) && w.trace <= BufPut(w, g, c, val).trace
  {
    var w', ch, log := BufPut(w, g, c, val), w.chans[c], w.logs[c];
    assert BufferOk(Pub(w), c, ch, log) by {
      assert ChanNamed(Pub(w), c, ch, log);
    }
    KthReceiveMeetsSend(Pub(w), c, ch, log);
    assert w'.trace[|w'.trace| - 1] == Release(g, SendOf(c, |log.sent|));
    assert Emits(w, w', Release(g, SendOf(c, |log.sent|)));
    if |log.sent| >= ch.capacity {
      assert w'.trace[|w.trace|] == Acquire(g, RecvOf(c, |log.sent| - ch.capacity));
      assert Emits(w, w', Acquire(g, RecvOf(c, |log.sent| - ch.capacity)));
    }
  }

  lemma BufPutTells(w: World, g: Gid, c: ChanId, val: Value)
    requires Named(w) && g in w.gs && KnownChan(w, c) && !w.chans[c].closed
    requires w.chans[c].capacity > 0 && |w.chans[c].buf| < w.chans[c].capacity
    ensures Tells(w, BufPut(w, g, c, val), g)
  {
    BufPutEmits(w, g, c, val);
  }

  lemma BufferedIsSent(w: World, c: ChanId)
    requires Named(w) && c in w.chans && c in w.logs && |w.chans[c].buf| > 0
    ensures |w.logs[c].taken| < |w.logs[c].sent|
  {
    assert ChanNamed(Pub(w), c, w.chans[c], w.logs[c]);
  }

  lemma BufTakeTells(w: World, g: Gid, c: ChanId)
    requires g in w.gs && KnownChan(w, c) && |w.chans[c].buf| > 0 && |w.logs[c].taken| < |w.logs[c].sent|
    ensures Tells(w, BufTake(w, g, c), g)
  {
    var w', k := BufTake(w, g, c), |w.logs[c].taken|;
    assert w'.trace[|w.trace|] == Acquire(g, SendOf(c, k)) && w'.trace[|w.trace| + 1] == Release(g, RecvOf(c, k));
    assert Emits(w, w', Acquire(g, SendOf(c, k))) && Emits(w, w', Release(g, RecvOf(c, k)));
  }

  lemma MeetTells(w: World, w0: World, g: Gid, i: nat)
    requires g in w.gs && i < |w.sudogs| == |w0.sudogs| && w.trace == w0.trace
    requires w.sudogs == w0.sudogs[i := w.sudogs[i]] && w.sudogs[i].peer == w0.sudogs[i].peer
    requires w.sudogs[i].gid == w0.sudogs[i].gid
    ensures w0.trace <= Meet(w, g, i).trace && TellsWaiters(w0, Meet(w, g, i), g)
  {
    var w' := Meet(w, g, i);
    assert w'.trace[|w.trace|] == Acquire(g, OfferOf(i)) && w'.trace[|w.trace| + 1] == Release(g, ReplyOf(i));
    assert Emits(w0, w', Acquire(g, OfferOf(i))) && Emits(w0, w', Release(g, ReplyOf(i)));
  }

  lemma GiveToTells(w: World, g: Gid, c: ChanId, k: nat, val: Value)
    requires g in w.gs && KnownChan(w, c) && w.chans[c].capacity == 0 && !w.chans[c].closed && k < |w.chans[c].recvq|
    ensures Tells(w, GiveTo(w, g, c, k, val), g)
  {
    var ch, log := w.chans[c], w.logs[c];
    var i := ch.recvq[k];
    var w1 := w.(chans := w.chans[c := ch.(recvq := ch.recvq[k + 1..])],
                 sudogs := w.sudogs[i := w.sudogs[i].(val := val)],
                 logs := w.logs[c := log.(sent := log.sent + [val], pending := log.pending[i := |log.sent|])]);
    MeetTells(w1, w, g, i);
  }

  lemma TakeFromTells(w: World, g: Gid, c: ChanId, k: nat)
    requires g in w.gs && KnownChan(w, c) && w.chans[c].capacity == 0 && !w.chans[c].closed && k < |w.chans[c].sendq|
    ensures Tells(w, TakeFrom(w, g, c, k), g)
  {
    var ch, log := w.chans[c], w.logs[c];
    var i := ch.sendq[k];
    var val := w.sudogs[i].val;
    var w1 := w.(chans := w.chans[c := ch.(sendq := ch.sendq[k + 1..])],
                 logs := w.logs[c := log.(sent := log.sent + [val], taken := log.taken + [(|log.sent|, val)])]);
    MeetTells(w1, w, g, i);
  }

  lemma ParkTells(w: World, w1: World, g: Gid, wait: Wait)
    requires Tells(w, w1, g) && g in w1.gs
    ensures Tells(w, SetWait(w1, g, wait), g)
  {
    assert forall op :: Emits(w, SetWait(w1, g, wait), op) <==> Emits(w, w1, op);
  }

  lemma SendReadyTells(w: World, g: Gid, c: ChanId, val: Value)
    requires Named(w) && g in w.gs && KnownChan(w, c) && CanSend(w, c, None) && w.chans[c].capacity > 0
    ensures Tells(w, SendReady(w, g, c, val).0, g)
  {
    if w.chans[c].closed {
      QuietTells(w, w, g);
    } else {
      BufPutTells(w, g, c, val);
    }
  }

  lemma SendTells(w: World, g: Gid, c: ChanId, val: Value)
    requires Named(w) && g in w.gs && (c in w.chans ==> KnownChan(w, c))
    ensures Tells(w, Send(w, g, c, val).0, g)
  {
    QuietTells(w, w, g);
    if c in w.chans {
      var ch := w.chans[c];
      if ch.capacity > 0 || ch.closed {
        if CanSend(w, c, None) {
          if ch.capacity > 0 {
            SendReadyTells(w, g, c, val);
          }
        } else {
          ParkTells(w, w, g, BufSendWait(c, val));
        }
      } else if FirstLive(w, ch.recvq) < |ch.recvq| {
        GiveToTells(w, g, c, FirstLive(w, ch.recvq), val);
      } else {
        OfferTells(w, g, c, true, val, None, 0);
        ParkTells(w, Offer(w, g, c, true, val, None, 0), g, SendWait(c, |w.sudogs|));
      }
    }
  }

  lemma RecvReadyTells(w: World, g: Gid, c: ChanId)
    requires Named(w) && g in w.gs && KnownChan(w, c)
    ensures Tells(w, RecvReady(w, g, c).0, g)
  {
    var ch := w.chans[c];
    if |ch.buf| > 0 {
      BufferedIsSent(w, c);
      BufTakeTells(w, g, c);
    } else if ch.capacity == 0 && !ch.closed && FirstLive(w, ch.sendq) < |ch.sendq| {
      TakeFromTells(w, g, c, FirstLive(w, ch.sendq));
    } else {
      QuietTells(w, RecvReady(w, g, c).0, g);
    }
  }

  lemma RecvTells(w: World, g: Gid, c: ChanId)
    requires Named(w) && g in w.gs && (c in w.chans ==> KnownChan(w, c))
    ensures Tells(w, Recv(w, g, c).0, g)
  {
    QuietTells(w, w, g);
    if c in w.chans {
      var ch := w.chans[c];
      if ch.capacity == 0 && !ch.closed {
        if FirstLive(w, ch.sendq) < |ch.sendq| {
          TakeFromTells(w, g, c, FirstLive(w, ch.sendq));
        } else {
          OfferTells(w, g, c, false, ZERO, None, 0);
          ParkTells(w, Offer(w, g, c, false, ZERO, None, 0), g, RecvWait(c, |w.sudogs|));
        }
      } else if CanRecv(w, c, None) {
        RecvReadyTells(w, g, c);
      } else {
        ParkTells(w, w, g, BufRecvWait(c));
      }
    }
  }

  lemma CloseTells(w: World, g: Gid, c: ChanId)
    requires g in w.gs
    ensures Tells(w, Close(w, g, c).0, g)
  {
    var w' := Close(w, g, c).0;
    if c in w.chans && !w.chans[c].closed {
      assert w'.trace[|w.trace|] == Release(g, CloseOf(c));
      assert Emits(w, w', Release(g, CloseOf(c)));
    } else {
      QuietTells(w, w', g);
    }
  }

  // ------------------------------------------------------------------
  // Select, waits and every step

  lemma TellsTransitive(w: World, w1: World, w2: World, g: Gid)
    requires Tells(w, w1, g) && Tells(w1, w2, g) && w1.logs == w.logs
    ensures Tells(w, w2, g)
  {
    forall op | Emits(w, w1, op) || Emits(w1, w2, op)
      ensures Emits(w, w2, op)
    {
      EmitsLater(w, w1, w2, op);
    }
    forall c | c in w.chans && c in w.logs
      ensures ChannelGrows(w, w2, c)
      ensures w.chans[c].capacity > 0 ==> TellsBuffered(w, w2, g, c)
      ensures !w.chans[c].closed && w2.chans[c].closed ==> Emits(w, w2, Release(g, CloseOf(c)))
    {
      assert ChannelGrows(w, w1, c) && ChannelGrows(w1, w2, c);
    }
  }

  lemma {:induction false} OfferAllTells(w: World, g: Gid, sw: nat, cases: seq<Case>, j: nat)
    requires g in w.gs && j <= |cases|
    ensures Tells(w, OfferAll(w, g, sw, cases, j), g)
    decreases |cases| - j
  {
    if j == |cases| {
      QuietTells(w, w, g);
    } else if Offered(w, cases[j]) {
      var w1 := Offer(w, g, cases[j].ch.value, cases[j].send, cases[j].val, Some(sw), j);
      OfferTells(w, g, cases[j].ch.value, cases[j].send, cases[j].val, Some(sw), j);
      OfferAllTells(w1, g, sw, cases, j + 1);
      TellsTransitive(w, w1, OfferAll(w1, g, sw, cases, j + 1), g);
    } else {
      OfferAllTells(w, g, sw, cases, j + 1);
    }
  }

  lemma SelectCaseTells(w: World, g: Gid, cases: seq<Case>, k: nat)
    requires Named(w) && g in w.gs && k < |cases| && KnownCases(w, cases)
    requires cases[k].ch.Some? && cases[k].ch.value in w.chans
    ensures Tells(w, SelectCase(w, g, cases, k).0, g)
  {
    if cases[k].send {
      SendTells(w, g, cases[k].ch.value, cases[k].val);
    } else {
      RecvReadyTells(w, g, cases[k].ch.value);
    }
  }

  lemma SelectTells(w: World, g: Gid, cases: seq<Case>, blocking: bool)
    requires Named(w) && g in w.gs && KnownCases(w, cases)
    ensures Tells(w, Select(w, g, cases, blocking).0, g)
  {
    var k := FirstReady(w, cases, None);
    if k < |cases| {
      SelectCaseTells(w, g, cases, k);
    } else if !blocking {
      QuietTells(w, w, g);
    } else {
      var w0 := w.(sels := w.sels + [SelectWait(g, false, None)]);
      OfferAllTells(w0, g, |w.sels|, cases, 0);
      QuietTells(w, w0, g);
      TellsTransitive(w, w0, OfferAll(w0, g, |w.sels|, cases, 0), g);
      ParkTells(w, OfferAll(w0, g, |w.sels|, cases, 0), g, SelWait(|w.sels|, cases));
    }
  }

  lemma DeliverTells(w: World, w1: World, c: ChanId, i: nat, g: Gid)
    requires w.trace <= w1.trace && w1.logs == w.logs && w1.chans == w.chans && w1.sudogs == w.sudogs
    requires c in w.logs && i < |w.sudogs| && (c in w.chans ==> w.chans[c].capacity == 0)
    ensures Tells(w, Deliver(w1, c, i), g)
  {
  }

  /** Waits and select marks do not matter to names. */
  lemma NamedAnyway(w: World, w': World)
    requires Named(w) && w' == w.(gs := w'.gs, sels := w'.sels)
    requires forall h :: h in w'.gs <==> h in w.gs
    requires forall h :: h in w.gs ==> w'.gs[h].clock == w.gs[h].clock
    ensures Named(w')
  {
  }

  lemma FiredResumeTells(w: World, g: Gid, sw: nat, cases: seq<Case>)
    requires g in w.gs && KnownWait(w, g) && w.gs[g].wait == SelWait(sw, cases) && w.sels[sw].fired
    requires OffersCase(w, g, w.sudogs[w.sels[sw].sg.value], cases)
    ensures Tells(w, SelectResume(w, g, sw, cases).0, g)
  {
    var i := w.sels[sw].sg.value;
    var w1 := TickNow(Collect(SetWait(w, g, NoWait), g, i), g);
    QuietTells(w, w1, g);
    DeliverTells(w, w1, w.sudogs[i].ch, i, g);
  }

  lemma UnfiredResumeTells(w: World, g: Gid, sw: nat, cases: seq<Case>)
    requires Named(w) && g in w.gs && KnownWait(w, g) && w.gs[g].wait == SelWait(sw, cases) && !w.sels[sw].fired
    ensures Tells(w, SelectResume(w, g, sw, cases).0, g)
  {
    var w1 := Withdrawn(w, g, sw);
    NamedAnyway(w, w1);
    assert KnownCases(w1, cases);
    QuietTells(w, w1, g);
    var k := FirstReady(w1, cases, None);
    if k < |cases| {
      SelectCaseTells(w1, g, cases, k);
      TellsTransitive(w, w1, SelectCase(w1, g, cases, k).0, g);
    }
  }

  lemma SelectResumeTells(w: World, g: Gid, sw: nat, cases: seq<Case>)
    requires Named(w) && SelectsOk(w) && g in w.gs && KnownWait(w, g) && WaitOk(w, g) && w.gs[g].wait == SelWait(sw, cases)
    ensures Tells(w, SelectResume(w, g, sw, cases).0, g)
  {
    if w.sels[sw].fired {
      assert w.sudogs[w.sels[sw].sg.value].sel == Some(sw);
      FiredResumeTells(w, g, sw, cases);
    } else {
      UnfiredResumeTells(w, g, sw, cases);
    }
  }

  lemma BufferedResumeTells(w: World, g: Gid)
    requires Named(w) && g in w.gs && KnownWait(w, g) && WaitOk(w, g) && Ready(w, g)
    requires w.gs[g].wait.BufSendWait? || w.gs[g].wait.BufRecvWait?
    ensures Tells(w, Resume(w, g).0, g)
  {
    var w0, c := SetWait(w, g, NoWait), w.gs[g].wait.ch;
    QuietTells(w, w0, g);
    NamedAnyway(w, w0);
    assert KnownChan(w0, c);
    if w.gs[g].wait.BufSendWait? {
      SendReadyTells(w0, g, c, w.gs[g].wait.val);
    } else {
      RecvReadyTells(w0, g, c);
    }
    TellsTransitive(w, w0, Resume(w, g).0, g);
  }

  lemma UnbufferedResumeTells(w: World, g: Gid)
    requires g in w.gs && KnownWait(w, g) && WaitOk(w, g)
    requires w.gs[g].wait.SendWait? || w.gs[g].wait.RecvWait?
    ensures Tells(w, Resume(w, g).0, g)
  {
    var w0, c, i := SetWait(w, g, NoWait), w.gs[g].wait.ch, w.gs[g].wait.sd;
    if w.gs[g].wait.RecvWait? && w.sudogs[i].done {
      DeliverTells(w, TickNow(Collect(w0, g, i), g), c, i, g);
    } else {
      QuietTells(w, Resume(w, g).0, g);
    }
  }

  lemma ResumeTells(w: World, g: Gid)
    requires Named(w) && SelectsOk(w) && g in w.gs && KnownWait(w, g) && WaitOk(w, g) && Ready(w, g)
    ensures Tells(w, Resume(w, g).0, g)
  {
    if w.gs[g].wait.SelWait? {
      SelectResumeTells(w, g, w.gs[g].wait.sw, w.gs[g].wait.cases);
    } else if w.gs[g].wait.SendWait? || w.gs[g].wait.RecvWait? {
      UnbufferedResumeTells(w, g);
    } else if w.gs[g].wait.BufSendWait? || w.gs[g].wait.BufRecvWait? {
      BufferedResumeTells(w, g);
    } else {
      QuietTells(w, Resume(w, g).0, g);
    }
  }

  lemma AbortTells(w: World, g: Gid)
    requires g in w.gs && KnownWait(w, g)
    ensures Tells(w, Abort(w, g), g)
  {
  }

  lemma MutexTells(w: World, a: Action)
    requires OnMutex(a) && a.g in w.gs
    ensures Tells(w, AfterMutex(MakeSync(w, a.key), a), a.g)
  {
    var w1 := MakeSync(w, a.key);
    MutexLeavesWaiters(w1, a);
    MutexKeepsLogs(w1, a);
    QuietTells(w, AfterMutex(w1, a), a.g);
  }

  lemma GroupTells(w: World, a: Action, w': World)
    requires NoDangling(w) && Allowed(w, a) && w' == Step(w, a).0 && (a.DoGroupAdd? || a.DoGroupWait?)
    ensures Tells(w, w', a.g)
  {
    GroupLeavesWaiters(MakeSync(w, a.key), a.g, a.key, if a.DoGroupAdd? then a.delta else 0);
    QuietTells(w, w', a.g);
  }

  lemma PlainStepTells(w: World, a: Action, w': World)
    requires NoDangling(w) && Allowed(w, a) && w' == Step(w, a).0
    requires a.DoStart? || a.DoGo? || a.DoMakeChan? || a.DoAccess?
    ensures Tells(w, w', a.g)
  {
  }

  lemma ChannelStepTells(w: World, a: Action, w': World)
    requires Named(w) && NoDangling(w) && Allowed(w, a) && w' == Step(w, a).0
    requires a.DoSend? || a.DoRecv? || a.DoSelect? || a.DoClose?
    ensures Tells(w, w', a.g)
  {
    if a.DoSend? {
      SendTells(w, a.g, a.c, a.val);
    } else if a.DoRecv? {
      RecvTells(w, a.g, a.c);
    } else if a.DoSelect? {
      SelectTells(w, a.g, a.cases, a.blocking);
    } else {
      CloseTells(w, a.g, a.c);
    }
  }

  /** Every step records the events it owes. */
  lemma StepTells(w: World, a: Action, w': World)
    requires Inv(w) && NoDangling(w) && Allowed(w, a) && w' == Step(w, a).0
    ensures Tells(w, w', a.g)
  {
    if a.DoSend? || a.DoRecv? || a.DoSelect? || a.DoClose? {
      ChannelStepTells(w, a, w');
    } else if a.DoResume? {
      assert KnownWait(w, a.g) && WaitOk(w, a.g);
      ResumeTells(w, a.g);
    } else if a.DoAbort? {
      AbortTells(w, a.g);
    } else if OnMutex(a) {
      MutexStep(w, a);
      MutexTells(w, a);
    } else if a.DoGroupAdd? || a.DoGroupWait? {
      GroupTells(w, a, w');
    } else {
      PlainStepTells(w, a, w');
    }
  }

  // ------------------------------------------------------------------
  // Runs

  lemma RunTells(e: Execution, n: nat)
    requires IsExecution(e) && n < |e.acts|
    ensures Tells(e.worlds[n], e.worlds[n + 1], e.acts[n].g)
    ensures forall c :: c in e.worlds[n].chans ==> c in e.worlds[n].logs
  {
    RunsKeepInv(e, n);
    StepTells(e.worlds[n], e.acts[n], e.worlds[n + 1]);
  }

  /** Channel histories only grow along a run; after a close nothing more is sent. */
  lemma {:induction false} ChannelsGrow(e: Execution, m: nat, n: nat, c: ChanId)
    requires IsExecution(e) && m <= n < |e.worlds| && c in e.worlds[m].chans && c in e.worlds[m].logs
    ensures ChannelGrows(e.worlds[m], e.worlds[n], c)
  {
    if m < n {
      ChannelsGrow(e, m, n - 1, c);
      RunTells(e, n - 1);
    }
  }

  /** A waiter once answered stays answered. */
  lemma {:induction false} AnswersStay(e: Execution, m: nat, n: nat, i: nat)
    requires IsExecution(e) && m <= n < |e.worlds| && i < |e.worlds[m].sudogs|
    ensures i < |e.worlds[n].sudogs| && e.worlds[n].sudogs[i].gid == e.worlds[m].sudogs[i].gid
    ensures e.worlds[m].sudogs[i].peer.Some? ==> e.worlds[n].sudogs[i].peer.Some?
  {
    if m < n {
      AnswersStay(e, m, n - 1, i);
      RunTells(e, n - 1);
    }
  }

  /** An event of step m is released to an event of step n. */
  ghost predicate Synchronises(e: Execution, m: nat, n: nat)
    requires |e.worlds| == |e.acts| + 1 && m < n < |e.acts|
  {
    exists i, j ::
      && |e.worlds[m].trace| <= i < |e.worlds[m + 1].trace| && |e.worlds[n].trace| <= j < |e.worlds[n + 1].trace|
      && i < j < |TraceOf(e)| && Edge(TraceOf(e), i, j)
      && TraceOf(e)[i].g == e.acts[m].g && TraceOf(e)[j].g == e.acts[n].g
  }

  lemma TracesNested(e: Execution, m: nat, n: nat)
    requires IsExecution(e) && m < n < |e.acts|
    ensures e.worlds[m].trace <= e.worlds[m + 1].trace <= e.worlds[n].trace <= e.worlds[n + 1].trace <= TraceOf(e)
  {
    SettledForever(e, m, m + 1);
    SettledForever(e, m + 1, n);
    SettledForever(e, n, n + 1);
    SettledForever(e, n + 1, |e.worlds| - 1);
  }

  lemma EventsSynchronise(e: Execution, m: nat, n: nat, t: Token)
    requires |e.worlds| == |e.acts| + 1 && m < n < |e.acts|
    requires e.worlds[m].trace <= e.worlds[m + 1].trace <= e.worlds[n].trace <= e.worlds[n + 1].trace <= TraceOf(e)
    requires Emits(e.worlds[m], e.worlds[m + 1], Release(e.acts[m].g, t))
    requires Emits(e.worlds[n], e.worlds[n + 1], Acquire(e.acts[n].g, t))
    ensures Synchronises(e, m, n)
  {
    var tr := TraceOf(e);
    var i :| |e.worlds[m].trace| <= i < |e.worlds[m + 1].trace| && e.worlds[m + 1].trace[i] == Release(e.acts[m].g, t);
    var j :| |e.worlds[n].trace| <= j < |e.worlds[n + 1].trace| && e.worlds[n + 1].trace[j] == Acquire(e.acts[n].g, t);
    assert tr[i] == Release(e.acts[m].g, t) && tr[j] == Acquire(e.acts[n].g, t);
    assert Publishes(tr[i], t);
    assert Edge(tr, i, j);
  }

  lemma ReleasedAcross(e: Execution, m: nat, n: nat, t: Token)
    requires IsExecution(e) && m < n < |e.acts|
    requires Emits(e.worlds[m], e.worlds[m + 1], Release(e.acts[m].g, t))
    requires Emits(e.worlds[n], e.worlds[n + 1], Acquire(e.acts[n].g, t))
    ensures Synchronises(e, m, n)
  {
    TracesNested(e, m, n);
    EventsSynchronise(e, m, n, t);
  }

  lemma ChainAround(tr: seq<Op>, p: nat, i: nat, j: nat, q: nat)
    requires p < i < j < q < |tr| && tr[p].g == tr[i].g && tr[j].g == tr[q].g && Edge(tr, i, j)
    ensures HB(tr, p, q)
  {
    assert Edge(tr, p, i) && Edge(tr, j, q);
    HBTransitive(tr, p, i, j);
    HBTransitive(tr, p, j, q);
  }

  /** What such an edge means to the program: what the first goroutine accessed before, happens before
      what the second accesses after. */
  lemma EdgeOrdersAccesses(e: Execution, a: nat, m: nat, n: nat, b: nat)
    requires IsExecution(e) && a < m < n < b < |e.acts| && Synchronises(e, m, n)
    requires e.acts[a].DoAccess? && e.acts[b].DoAccess? && e.acts[a].g == e.acts[m].g && e.acts[b].g == e.acts[n].g
    ensures |e.worlds[a].trace| < |e.worlds[b].trace| < |TraceOf(e)|
    ensures HB(TraceOf(e), |e.worlds[a].trace|, |e.worlds[b].trace|)
  {
    var tr, p, q := TraceOf(e), |e.worlds[a].trace|, |e.worlds[b].trace|;
    AccessClock(e, a);
    AccessClock(e, b);
    AccessBefore(e, a, m);
    TracesNested(e, n, b);
    var i, j :|
      && |e.worlds[m].trace| <= i < |e.worlds[m + 1].trace| && |e.worlds[n].trace| <= j < |e.worlds[n + 1].trace|
      && i < j < |tr| && Edge(tr, i, j) && tr[i].g == e.acts[m].g && tr[j].g == e.acts[n].g;
    ChainAround(tr, p, i, j, q);
  }

  lemma AccessBefore(e: Execution, a: nat, m: nat)
    requires IsExecution(e) && a < m < |e.acts| && e.acts[a].DoAccess?
    ensures |e.worlds[a].trace| < |e.worlds[m].trace|
  {
    assert e.worlds[a + 1] == Step(e.worlds[a], e.acts[a]).0;
    SettledForever(e, a + 1, m);
  }

  /** Step m sends the k-th value on buffered channel c. */
  predicate SendsKth(e: Execution, m: nat, c: ChanId, k: nat)
    requires |e.worlds| == |e.acts| + 1 && m < |e.acts|
  {
    var w, w' := e.worlds[m], e.worlds[m + 1];
    && c in w.chans && c in w.logs && c in w'.logs && w.chans[c].capacity > 0
    && |w.logs[c].sent| == k < |w'.logs[c].sent|
  }

  /** Step n receives the k-th value of buffered channel c. */
  predicate ReceivesKth(e: Execution, n: nat, c: ChanId, k: nat)
    requires |e.worlds| == |e.acts| + 1 && n < |e.acts|
  {
    var w, w' := e.worlds[n], e.worlds[n + 1];
    && c in w.chans && c in w.logs && c in w'.logs && w.chans[c].capacity > 0
    && |w.logs[c].taken| == k < |w'.logs[c].taken|
  }

  /** The k-th send on a buffered channel is synchronised before the k-th receive. */
  lemma BufferedSendBeforeReceive(e: Execution, m: nat, n: nat, c: ChanId, k: nat)
    requires IsExecution(e) && m < |e.acts| && n < |e.acts| && SendsKth(e, m, c, k) && ReceivesKth(e, n, c, k)
    ensures m < n && Synchronises(e, m, n)
  {
    RunTells(e, m);
    RunTells(e, n);
    if n <= m {
      ChannelsGrow(e, n, m, c);
    }
    ReleasedAcross(e, m, n, SendOf(c, k));
  }

  /** The k-th receive on a channel made with capacity cap is synchronised before the (k+cap)-th send. */
  lemma ReceiveBeforeSendCapacityLater(e: Execution, m: nat, n: nat, c: ChanId, k: nat, cap: nat)
    requires IsExecution(e) && m < |e.acts| && n < |e.acts| && ReceivesKth(e, m, c, k)
    requires MadeWith(e.acts, m, c) == Some(cap) && SendsKth(e, n, c, k + cap)
    ensures m < n && Synchronises(e, m, n)
  {
    ChannelsAreAsMade(e, m, c);
    RunTells(e, m);
    RunTells(e, n);
    if n <= m {
      ChannelsGrow(e, n, m, c);
    } else {
      ChannelsGrow(e, m, n, c);
    }
    ReleasedAcross(e, m, n, RecvOf(c, k));
  }

  /** Step m offers operation i to counterparts. */
  predicate Offers(e: Execution, m: nat, i: nat)
    requires |e.worlds| == |e.acts| + 1 && m < |e.acts|
  {
    |e.worlds[m].sudogs| <= i < |e.worlds[m + 1].sudogs|
  }

  /** Step n completes waiting operation i. */
  predicate Completes(e: Execution, n: nat, i: nat)
    requires |e.worlds| == |e.acts| + 1 && n < |e.acts|
  {
    && i < |e.worlds[n].sudogs| && i < |e.worlds[n + 1].sudogs|
    && e.worlds[n].sudogs[i].peer.None? && e.worlds[n + 1].sudogs[i].peer.Some?
  }

  /** A waiting operation's start is synchronised before its counterpart completes: a receive before
      the send that meets it, and a send before the receive that meets it. */
  lemma OfferBeforeCompletion(e: Execution, m: nat, n: nat, i: nat)
    requires IsExecution(e) && m < |e.acts| && n < |e.acts| && Offers(e, m, i) && Completes(e, n, i)
    ensures m < n && Synchronises(e, m, n)
  {
    RunTells(e, m);
    RunTells(e, n);
    if n <= m {
      AnswersStay(e, n, m, i);
    }
    ReleasedAcross(e, m, n, OfferOf(i));
  }

  /** Step r resumes a goroutine whose waiting operation i was completed. */
  predicate Returns(w: World, a: Action, i: nat) {
    && a.DoResume? && a.g in w.gs && i < |w.sudogs| && w.sudogs[i].done
    && match w.gs[a.g].wait
       case SendWait(_, sd) => sd == i
       case RecvWait(_, sd) => sd == i
       case SelWait(sw, _) => sw < |w.sels| && w.sels[sw].fired && w.sels[sw].sg == Some(i)
       case _ => false
  }

  lemma ReturnCollects(w: World, a: Action, i: nat)
    requires SelectsOk(w) && a.DoResume? && a.g in w.gs && KnownWait(w, a.g) && WaitOk(w, a.g) && Returns(w, a, i)
    ensures w.sudogs[i].peer.Some? && Emits(w, Resume(w, a.g).0, Acquire(a.g, ReplyOf(i)))
  {
    assert w.sudogs[i].peer.Some?;
    assert Resume(w, a.g).0.trace[|w.trace|] == Acquire(a.g, ReplyOf(i));
  }

  /** The counterpart's step is synchronised before the waiting operation returns. */
  lemma CompletionBeforeReturn(e: Execution, n: nat, r: nat, i: nat)
    requires IsExecution(e) && n < |e.acts| && r < |e.acts| && Completes(e, n, i) && Returns(e.worlds[r], e.acts[r], i)
    ensures n < r && Synchronises(e, n, r)
  {
    RunTells(e, n);
    RunsKeepInv(e, r);
    assert e.worlds[r + 1] == Step(e.worlds[r], e.acts[r]).0;
    assert KnownWait(e.worlds[r], e.acts[r].g) && WaitOk(e.worlds[r], e.acts[r].g);
    ReturnCollects(e.worlds[r], e.acts[r], i);
    if r <= n {
      AnswersStay(e, r, n, i);
    }
    ReleasedAcross(e, n, r, ReplyOf(i));
  }

  // ------------------------------------------------------------------
  // Close

  /** The receive on c that an outcome ended without a value. */
  function EmptyOn(c: ChanId, out: Outcome): Option<ChanId> {
    if (out.RecvDone? || out.SelectDone?) && !out.ok then Some(c) else None
  }

  function EmptyCase(cases: seq<Case>, out: Outcome): Option<ChanId> {
    if out.SelectDone? && out.idx < |cases| && !cases[out.idx].send then
      if cases[out.idx].ch.Some? then EmptyOn(cases[out.idx].ch.value, out) else None
    else None
  }

  /** The channel from which this step received without a value. */
  function EmptyReceive(w: World, a: Action, out: Outcome): Option<ChanId> {
    match a
    case DoRecv(_, c) => if c in w.chans then EmptyOn(c, out) else None
    case DoSelect(_, cases, _) => EmptyCase(cases, out)
    case DoResume(g) =>
      if g !in w.gs then None else (
        match w.gs[g].wait
        case RecvWait(c, _) => EmptyOn(c, out)
        case BufRecvWait(c) => EmptyOn(c, out)
        case SelWait(_, cases) => EmptyCase(cases, out)
        case _ => None)
    case _ => None
  }

  /** A receive without a value is from a closed channel and merges the close. */
  ghost predicate LearnsClose(w: World, w': World, g: Gid, from: Option<ChanId>) {
    from.Some? ==>
      from.value in w.chans && w.chans[from.value].closed && Emits(w, w', Acquire(g, CloseOf(from.value)))
  }

  lemma RecvClosedLearns(w: World, w0: World, g: Gid, c: ChanId)
    requires g in w.gs && KnownChan(w, c) && w.chans[c].closed && w.chans[c].closeClock.Some?
    requires w0.trace == w.trace && w0.chans == w.chans
    ensures LearnsClose(w0, RecvClosed(w, g, c).0, g, Some(c))
  {
    assert RecvClosed(w, g, c).0.trace[|w.trace|] == Acquire(g, CloseOf(c));
  }

  lemma RecvReadyLearns(w: World, w0: World, g: Gid, c: ChanId)
    requires g in w.gs && KnownChan(w, c) && CanRecv(w, c, None)
    requires w.chans[c].closed ==> w.chans[c].closeClock.Some?
    requires w0.trace == w.trace && w0.chans == w.chans
    ensures var (w', out) := RecvReady(w, g, c); LearnsClose(w0, w', g, EmptyOn(c, out))
  {
    var ch := w.chans[c];
    if |ch.buf| == 0 {
      if ch.capacity == 0 && !ch.closed {
        assert HasLive(w, ch.sendq, None);
      } else {
        RecvClosedLearns(w, w0, g, c);
      }
    }
  }

  lemma ClosedHasClock(w: World, c: ChanId)
    requires Named(w) && c in w.chans
    ensures w.chans[c].closed ==> w.chans[c].closeClock.Some?
  {
    assert c in w.logs && ChanNamed(Pub(w), c, w.chans[c], w.logs[c]);
  }

  lemma RecvLearns(w: World, g: Gid, c: ChanId)
    requires Named(w) && g in w.gs && KnownChan(w, c)
    ensures var (w', out) := Recv(w, g, c); LearnsClose(w, w', g, EmptyOn(c, out))
  {
    ClosedHasClock(w, c);
    if !(w.chans[c].capacity == 0 && !w.chans[c].closed) && CanRecv(w, c, None) {
      RecvReadyLearns(w, w, g, c);
    }
  }

  lemma CaseLearns(w: World, w0: World, g: Gid, cases: seq<Case>, k: nat)
    requires Named(w) && g in w.gs && k < |cases| && KnownCases(w, cases) && CaseReady(w, cases[k], None)
    requires w0.trace == w.trace && w0.chans == w.chans
    ensures var (w', out) := SelectCase(w, g, cases, k); LearnsClose(w0, w', g, EmptyCase(cases, out))
  {
    if !cases[k].send {
      ClosedHasClock(w, cases[k].ch.value);
      RecvReadyLearns(w, w0, g, cases[k].ch.value);
    } else {
      ReadyCaseFinishes(w, g, cases, k);
    }
  }

  lemma SelectLearns(w: World, g: Gid, cases: seq<Case>, blocking: bool)
    requires Named(w) && g in w.gs && KnownCases(w, cases)
    ensures var (w', out) := Select(w, g, cases, blocking); LearnsClose(w, w', g, EmptyCase(cases, out))
  {
    var k := FirstReady(w, cases, None);
    if k < |cases| {
      CaseLearns(w, w, g, cases, k);
    }
  }

  lemma SelectResumeLearns(w: World, g: Gid, sw: nat, cases: seq<Case>)
    requires Named(w) && g in w.gs && KnownWait(w, g) && w.gs[g].wait == SelWait(sw, cases) && Ready(w, g)
    ensures var (w', out) := Resume(w, g); LearnsClose(w, w', g, EmptyCase(cases, out))
  {
    if !w.sels[sw].fired {
      var w1 := Withdrawn(w, g, sw);
      NamedAnyway(w, w1);
      WithdrawnFirstReady(w, g, sw, cases);
      assert KnownCases(w1, cases);
      CaseLearns(w1, w, g, cases, FirstReady(w1, cases, None));
    }
  }

  lemma RecvResumeLearns(w: World, g: Gid)
    requires Named(w) && g in w.gs && KnownWait(w, g) && WaitOk(w, g) && Ready(w, g)
    requires w.gs[g].wait.RecvWait? || w.gs[g].wait.BufRecvWait?
    ensures var (w', out) := Resume(w, g); LearnsClose(w, w', g, EmptyOn(w.gs[g].wait.ch, out))
  {
    var w0, c := SetWait(w, g, NoWait), w.gs[g].wait.ch;
    ClosedHasClock(w, c);
    assert KnownChan(w0, c);
    if w.gs[g].wait.BufRecvWait? {
      RecvReadyLearns(w0, w, g, c);
    } else if !w.sudogs[w.gs[g].wait.sd].done {
      RecvClosedLearns(w0, w, g, c);
    }
  }

  lemma StepLearns(w: World, a: Action, w': World, out: Outcome)
    requires Inv(w) && NoDangling(w) && Allowed(w, a) && (w', out) == Step(w, a)
    ensures LearnsClose(w, w', a.g, EmptyReceive(w, a, out))
  {
    if a.DoRecv? {
      if a.c in w.chans {
        RecvLearns(w, a.g, a.c);
      }
    } else if a.DoSelect? {
      SelectLearns(w, a.g, a.cases, a.blocking);
    } else if a.DoResume? {
      assert KnownWait(w, a.g) && WaitOk(w, a.g);
      if w.gs[a.g].wait.SelWait? {
        SelectResumeLearns(w, a.g, w.gs[a.g].wait.sw, w.gs[a.g].wait.cases);
      } else if w.gs[a.g].wait.RecvWait? || w.gs[a.g].wait.BufRecvWait? {
        RecvResumeLearns(w, a.g);
      }
    }
  }

  /** Step m closes channel c. */
  predicate Closes(e: Execution, m: nat, c: ChanId)
    requires |e.worlds| == |e.acts| + 1 && m < |e.acts|
  {
    && c in e.worlds[m].chans && c in e.worlds[m].logs && c in e.worlds[m + 1].chans
    && !e.worlds[m].chans[c].closed && e.worlds[m + 1].chans[c].closed
  }

  /** A close is synchronised before every receive that returns because the channel is closed. */
  lemma CloseBeforeEmptyReceive(e: Execution, m: nat, n: nat, c: ChanId)
    requires IsExecution(e) && m < |e.acts| && n < |e.acts| && Closes(e, m, c)
    requires EmptyReceive(e.worlds[n], e.acts[n], Step(e.worlds[n], e.acts[n]).1) == Some(c)
    ensures m < n && Synchronises(e, m, n)
  {
    RunTells(e, m);
    RunTells(e, n);
    RunsKeepInv(e, n);
    StepLearns(e.worlds[n], e.acts[n], e.worlds[n + 1], Step(e.worlds[n], e.acts[n]).1);
    if n <= m {
      ChannelsGrow(e, n, m, c);
    }
    ReleasedAcross(e, m, n, CloseOf(c));
  }

  // ------------------------------------------------------------------
  // Go

  /** What a goroutine accessed before a go statement happens before everything the new goroutine
      accesses. */
  lemma GoOrdersAccesses(e: Execution, a: nat, m: nat, b: nat)
    requires IsExecution(e) && a < m < b < |e.acts| && e.acts[m].DoGo?
    requires e.acts[a].DoAccess? && e.acts[b].DoAccess? && e.acts[a].g == e.acts[m].g && e.acts[b].g == e.acts[m].child
    ensures |e.worlds[a].trace| < |e.worlds[b].trace| < |TraceOf(e)|
    ensures HB(TraceOf(e), |e.worlds[a].trace|, |e.worlds[b].trace|)
  {
    var tr, p, i, q := TraceOf(e), |e.worlds[a].trace|, |e.worlds[m].trace|, |e.worlds[b].trace|;
    AccessClock(e, a);
    AccessClock(e, b);
    AccessBefore(e, a, m);
    assert e.worlds[m + 1] == Step(e.worlds[m], e.acts[m]).0;
    TracesNested(e, m, b);
    assert tr[i] == e.worlds[m + 1].trace[i] == Spawn(e.acts[m].g, e.acts[m].child);
    assert Edge(tr, p, i) && Edge(tr, i, q);
  }
}
