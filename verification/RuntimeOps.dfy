/** Every runtime operation keeps the invariant, so every reachable state has it. */
module RuntimeOps {
  import opened Clock
  import opened ClockMachine
  import opened Detector
  import opened Runtime
  import opened RuntimeInvariant
  import opened RuntimeSteps

  // ------------------------------------------------------------------
  // What the invariant gives operations

  lemma InvKnowsChan(w: World, c: ChanId)
    requires Inv(w) && c in w.chans
    ensures KnownChan(w, c)
  {
    assert QueueOk(w, w.chans[c].recvq, c, false) && QueueOk(w, w.chans[c].sendq, c, true);
  }

  lemma InvKnowsCases(w: World, cases: seq<Case>)
    requires Inv(w)
    ensures KnownCases(w, cases)
  {
    forall k | 0 <= k < |cases| && cases[k].ch.Some? && cases[k].ch.value in w.chans
      ensures KnownChan(w, cases[k].ch.value)
    {
      InvKnowsChan(w, cases[k].ch.value);
    }
  }

  lemma InvKnowsWait(w: World, g: Gid)
    requires Inv(w) && g in w.gs
    ensures KnownWait(w, g)
  {
    assert WaitOk(w, g);
    match w.gs[g].wait
    case NoWait =>
    case Aborted =>
    case SendWait(c, _) => InvKnowsChan(w, c);
    case RecvWait(c, _) => InvKnowsChan(w, c);
    case BufSendWait(c, _) => InvKnowsChan(w, c);
    case BufRecvWait(c) => InvKnowsChan(w, c);
    case SelWait(sw, cases) => InvKnowsCases(w, cases);
    case GroupWait(_) =>
  }

  lemma SameInv(w: World, w': World)
    requires Inv(w) && w' == w
    ensures Inv(w')
  {
  }

  // ------------------------------------------------------------------
  // Send and receive

  /** A queue without a live sudog means that no one waits there. */
  lemma NobodyWaits(w: World, c: ChanId, send: bool, sel: Option<nat>)
    requires LiveAreQueued(w) && c in w.chans
    requires forall i :: i in QueueOf(w, c, !send) ==> !Live(w, i)
    ensures NoRival(w, c, send, sel)
  {
    forall i: nat | On(w, i, c, !send)
      ensures !Live(w, i)
    {
    }
  }

  lemma ParkedSelectsAreOld(w: World, sel: Option<nat>)
    requires WaitsOk(w) && (sel.Some? ==> sel.value >= |w.sels|)
    ensures forall h :: h in w.gs && w.gs[h].wait.SelWait? ==> Some(w.gs[h].wait.sw) != sel
  {
    forall h | h in w.gs && w.gs[h].wait.SelWait?
      ensures Some(w.gs[h].wait.sw) != sel
    {
      assert WaitOk(w, h);
    }
  }

  lemma ParkOnOffer(w: World, g: Gid, c: ChanId, send: bool, val: Value)
    requires Inv(w) && g in w.gs && c in w.chans && w.chans[c].capacity == 0 && NoRival(w, c, send, None)
    ensures Inv(SetWait(Offer(w, g, c, send, val, None, 0), g,
                        if send then SendWait(c, |w.sudogs|) else RecvWait(c, |w.sudogs|)))
  {
    ParkedSelectsAreOld(w, None);
    OfferKeepsInv(w, g, c, send, val, None, 0);
    var w1 := Offer(w, g, c, send, val, None, 0);
    assert c in w.logs;
    SetWaitKeepsInv(w1, g, if send then SendWait(c, |w.sudogs|) else RecvWait(c, |w.sudogs|));
  }

  lemma SendReadyKeepsInv(w: World, g: Gid, c: ChanId, val: Value)
    requires Inv(w) && g in w.gs && KnownChan(w, c) && CanSend(w, c, None)
    requires w.chans[c].capacity > 0 || w.chans[c].closed
    ensures Inv(SendReady(w, g, c, val).0)
  {
    if !w.chans[c].closed {
      BufPutKeepsInv(w, g, c, val);
    }
  }

  lemma SendKeepsInv(w: World, g: Gid, c: ChanId, val: Value)
    requires Inv(w) && g in w.gs && (c in w.chans ==> KnownChan(w, c))
    ensures Inv(Send(w, g, c, val).0)
  {
    if c in w.chans {
      var ch := w.chans[c];
      if ch.capacity > 0 || ch.closed {
        if CanSend(w, c, None) {
          SendReadyKeepsInv(w, g, c, val);
          SameInv(SendReady(w, g, c, val).0, Send(w, g, c, val).0);
        } else {
          SetWaitKeepsInv(w, g, BufSendWait(c, val));
          SameInv(SetWait(w, g, BufSendWait(c, val)), Send(w, g, c, val).0);
        }
      } else {
        var k := FirstLive(w, ch.recvq);
        if k < |ch.recvq| {
          GiveToKeepsInv(w, g, c, k, val);
          SameInv(GiveTo(w, g, c, k, val), Send(w, g, c, val).0);
        } else {
          NobodyWaits(w, c, true, None);
          ParkOnOffer(w, g, c, true, val);
          SameInv(SetWait(Offer(w, g, c, true, val, None, 0), g, SendWait(c, |w.sudogs|)), Send(w, g, c, val).0);
        }
      }
    }
  }

  lemma RecvClosedKeepsInv(w: World, g: Gid, c: ChanId)
    requires Inv(w) && g in w.gs && KnownChan(w, c)
    ensures Inv(RecvClosed(w, g, c).0)
  {
    assert ChanNamed(Pub(w), c, w.chans[c], w.logs[c]);
    MergeIfKeepsInv(w, g, w.chans[c].closeClock, CloseOf(c));
  }

  lemma RecvReadyKeepsInv(w: World, g: Gid, c: ChanId)
    requires Inv(w) && g in w.gs && KnownChan(w, c)
    ensures Inv(RecvReady(w, g, c).0)
  {
    var ch := w.chans[c];
    if |ch.buf| > 0 {
      BufTakeKeepsInv(w, g, c);
      SameInv(BufTake(w, g, c), RecvReady(w, g, c).0);
    } else if ch.capacity == 0 && !ch.closed && FirstLive(w, ch.sendq) < |ch.sendq| {
      TakeFromKeepsInv(w, g, c, FirstLive(w, ch.sendq));
      SameInv(TakeFrom(w, g, c, FirstLive(w, ch.sendq)), RecvReady(w, g, c).0);
    } else {
      RecvClosedKeepsInv(w, g, c);
      SameInv(RecvClosed(w, g, c).0, RecvReady(w, g, c).0);
    }
  }

  lemma RecvKeepsInv(w: World, g: Gid, c: ChanId)
    requires Inv(w) && g in w.gs && (c in w.chans ==> KnownChan(w, c))
    ensures Inv(Recv(w, g, c).0)
  {
    if c in w.chans {
      var ch := w.chans[c];
      if ch.capacity == 0 && !ch.closed {
        var k := FirstLive(w, ch.sendq);
        if k < |ch.sendq| {
          TakeFromKeepsInv(w, g, c, k);
          SameInv(TakeFrom(w, g, c, k), Recv(w, g, c).0);
        } else {
          NobodyWaits(w, c, false, None);
          ParkOnOffer(w, g, c, false, ZERO);
          SameInv(SetWait(Offer(w, g, c, false, ZERO, None, 0), g, RecvWait(c, |w.sudogs|)), Recv(w, g, c).0);
        }
      } else if CanRecv(w, c, None) {
        RecvReadyKeepsInv(w, g, c);
        SameInv(RecvReady(w, g, c).0, Recv(w, g, c).0);
      } else {
        SetWaitKeepsInv(w, g, BufRecvWait(c));
        SameInv(SetWait(w, g, BufRecvWait(c)), Recv(w, g, c).0);
      }
    }
  }

  // ------------------------------------------------------------------
  // Select

  lemma SelectCaseKeepsInv(w: World, g: Gid, cases: seq<Case>, k: nat)
    requires Inv(w) && g in w.gs && k < |cases| && KnownCases(w, cases)
    requires cases[k].ch.Some? && cases[k].ch.value in w.chans
    ensures Inv(SelectCase(w, g, cases, k).0)
  {
    if cases[k].send {
      SendKeepsInv(w, g, cases[k].ch.value, cases[k].val);
    } else {
      RecvReadyKeepsInv(w, g, cases[k].ch.value);
    }
  }

  /** Cases from j on can be offered under select sw, which has no counterpart yet. */
  ghost predicate Offering(w: World, g: Gid, sw: nat, cases: seq<Case>, j: nat) {
    && g in w.gs && sw < |w.sels| && w.sels[sw] == SelectWait(g, false, None)
    && (forall h :: h in w.gs && w.gs[h].wait.SelWait? ==> w.gs[h].wait.sw != sw)
    && (forall i: nat :: i < |w.sudogs| && w.sudogs[i].sel == Some(sw) ==>
          OffersCase(w, g, w.sudogs[i], cases) && !w.sudogs[i].done)
    && (forall k :: j <= k < |cases| && Offered(w, cases[k]) ==>
          NoRival(w, cases[k].ch.value, cases[k].send, Some(sw)))
  }

  lemma OfferKeepsOffering(w: World, g: Gid, sw: nat, cases: seq<Case>, j: nat)
    requires j < |cases| && Offering(w, g, sw, cases, j) && Offered(w, cases[j])
    requires cases[j].ch.value in w.logs
    ensures Offering(Offer(w, g, cases[j].ch.value, cases[j].send, cases[j].val, Some(sw), j), g, sw, cases, j + 1)
  {
    var n, w' := |w.sudogs|, Offer(w, g, cases[j].ch.value, cases[j].send, cases[j].val, Some(sw), j);
    assert forall i: nat :: i < n ==> w'.sudogs[i] == w.sudogs[i];
    forall k | j + 1 <= k < |cases| && Offered(w', cases[k])
      ensures NoRival(w', cases[k].ch.value, cases[k].send, Some(sw))
    {
      assert Offered(w, cases[k]) && NoRival(w, cases[k].ch.value, cases[k].send, Some(sw));
      forall i: nat | i < n
        ensures Live(w', i) <==> Live(w, i)
      {
      }
    }
  }

  lemma OfferOneMore(w: World, g: Gid, sw: nat, cases: seq<Case>, j: nat)
    requires Inv(w) && j < |cases| && Offering(w, g, sw, cases, j) && Offered(w, cases[j])
    ensures Inv(Offer(w, g, cases[j].ch.value, cases[j].send, cases[j].val, Some(sw), j))
    ensures Offering(Offer(w, g, cases[j].ch.value, cases[j].send, cases[j].val, Some(sw), j), g, sw, cases, j + 1)
  {
    assert NoRival(w, cases[j].ch.value, cases[j].send, Some(sw));
    OfferKeepsInv(w, g, cases[j].ch.value, cases[j].send, cases[j].val, Some(sw), j);
    OfferKeepsOffering(w, g, sw, cases, j);
  }

  lemma {:induction false} OfferAllKeepsInv(w: World, g: Gid, sw: nat, cases: seq<Case>, j: nat)
    requires Inv(w) && j <= |cases| && Offering(w, g, sw, cases, j)
    ensures Inv(OfferAll(w, g, sw, cases, j))
    ensures Offering(OfferAll(w, g, sw, cases, j), g, sw, cases, |cases|)
    decreases |cases| - j
  {
    if j < |cases| {
      if Offered(w, cases[j]) {
        OfferOneMore(w, g, sw, cases, j);
        OfferAllKeepsInv(Offer(w, g, cases[j].ch.value, cases[j].send, cases[j].val, Some(sw), j), g, sw, cases, j + 1);
      } else {
        OfferAllKeepsInv(w, g, sw, cases, j + 1);
      }
    }
  }

  lemma NewSelectKeepsMatched(w: World, g: Gid)
    requires Matched(w)
    ensures Matched(w.(sels := w.sels + [SelectWait(g, false, None)]))
  {
    var w' := w.(sels := w.sels + [SelectWait(g, false, None)]);
    assert forall i: nat :: Live(w', i) <==> Live(w, i);
    assert QueuesOk(w') by {
      forall c | c in w'.chans
        ensures QueueOk(w', w'.chans[c].recvq, c, false) && QueueOk(w', w'.chans[c].sendq, c, true)
      {
        assert QueueOk(w, w.chans[c].recvq, c, false) && QueueOk(w, w.chans[c].sendq, c, true);
      }
    }
  }

  lemma NewSelectKeepsInv(w: World, g: Gid)
    requires Inv(w)
    ensures Inv(w.(sels := w.sels + [SelectWait(g, false, None)]))
  {
    var w' := w.(sels := w.sels + [SelectWait(g, false, None)]);
    ClocksCarryOver(w, w');
    NewSelectKeepsMatched(w, g);
    forall h | h in w'.gs
      ensures WaitOk(w', h)
    {
      assert WaitOk(w, h);
    }
  }

  /** With no case ready, nobody waits for any case on an unbuffered channel. */
  lemma NothingReadyNobodyWaits(w: World, cases: seq<Case>, k: nat, sel: Option<nat>)
    requires Inv(w) && FirstReady(w, cases, None) == |cases| && k < |cases| && Offered(w, cases[k])
    ensures NoRival(w, cases[k].ch.value, cases[k].send, sel)
  {
    var cs := cases[k];
    assert !CaseReady(w, cs, None);
    var q := QueueOf(w, cs.ch.value, !cs.send);
    forall i | i in q
      ensures !Live(w, i)
    {
      var m :| 0 <= m < |q| && q[m] == i;
      assert !Counts(w, q[m], None);
    }
    NobodyWaits(w, cs.ch.value, cs.send, sel);
  }

  lemma NothingOfferedYet(w: World, g: Gid, cases: seq<Case>)
    requires Inv(w) && g in w.gs && FirstReady(w, cases, None) == |cases|
    ensures Offering(w.(sels := w.sels + [SelectWait(g, false, None)]), g, |w.sels|, cases, 0)
  {
    var sw := |w.sels|;
    var w0 := w.(sels := w.sels + [SelectWait(g, false, None)]);
    ParkedSelectsAreOld(w, Some(sw));
    forall m | 0 <= m < |cases| && Offered(w0, cases[m])
      ensures NoRival(w0, cases[m].ch.value, cases[m].send, Some(sw))
    {
      assert Offered(w, cases[m]);
      NothingReadyNobodyWaits(w, cases, m, Some(sw));
      assert forall i: nat :: Live(w0, i) <==> Live(w, i);
    }
  }

  lemma OfferedSelectWaitOk(w: World, g: Gid, sw: nat, cases: seq<Case>)
    requires Offering(w, g, sw, cases, |cases|)
    ensures WaitOk(SetWait(w, g, SelWait(sw, cases)), g)
  {
    var w' := SetWait(w, g, SelWait(sw, cases));
    forall i: nat | i < |w'.sudogs| && w'.sudogs[i].sel == Some(sw)
      ensures OffersCase(w', g, w'.sudogs[i], cases)
    {
      assert OffersCase(w, g, w.sudogs[i], cases);
    }
  }

  lemma ParkSelectKeepsInv(w: World, g: Gid, cases: seq<Case>)
    requires Inv(w) && g in w.gs && FirstReady(w, cases, None) == |cases|
    ensures var w0 := w.(sels := w.sels + [SelectWait(g, false, None)]);
            Inv(SetWait(OfferAll(w0, g, |w.sels|, cases, 0), g, SelWait(|w.sels|, cases)))
  {
    var sw := |w.sels|;
    var w0 := w.(sels := w.sels + [SelectWait(g, false, None)]);
    NewSelectKeepsInv(w, g);
    NothingOfferedYet(w, g, cases);
    OfferAllKeepsInv(w0, g, sw, cases, 0);
    var w1 := OfferAll(w0, g, sw, cases, 0);
    OfferedSelectWaitOk(w1, g, sw, cases);
    SetWaitKeepsInv(w1, g, SelWait(sw, cases));
  }

  lemma SelectKeepsInv(w: World, g: Gid, cases: seq<Case>, blocking: bool)
    requires Inv(w) && g in w.gs && KnownCases(w, cases)
    ensures Inv(Select(w, g, cases, blocking).0)
  {
    var k := FirstReady(w, cases, None);
    if k < |cases| {
      SelectCaseKeepsInv(w, g, cases, k);
      SameInv(SelectCase(w, g, cases, k).0, Select(w, g, cases, blocking).0);
    } else if blocking {
      ParkSelectKeepsInv(w, g, cases);
      var w0 := w.(sels := w.sels + [SelectWait(g, false, None)]);
      SameInv(SetWait(OfferAll(w0, g, |w.sels|, cases, 0), g, SelWait(|w.sels|, cases)), Select(w, g, cases, blocking).0);
    }
  }

  // ------------------------------------------------------------------
  // Resuming

  /** Goroutine g is not parked, so nothing but g refers to its sudogs and selects. */
  ghost predicate Idle(w: World, g: Gid) {
    g in w.gs && (w.gs[g].wait.NoWait? || w.gs[g].wait.Aborted?)
  }

  lemma CollectKeepsInv(w: World, g: Gid, i: nat)
    requires Inv(w) && g in w.gs && i < |w.sudogs|
    ensures Inv(Collect(w, g, i)) && SameButClocks(w, Collect(w, g, i))
  {
    assert Names(Pub(w), ReplyOf(i), w.sudogs[i].peer);
    MergeIfKeepsInv(w, g, w.sudogs[i].peer, ReplyOf(i));
  }

  lemma DeliveredLogOk(w: World, c: ChanId, log: Log, i: nat)
    requires MeetingLogOk(w, c, log) && i in log.pending
    ensures MeetingLogOk(w, c, log.(taken := log.taken + [(log.pending[i], w.sudogs[i].val)], pending := log.pending - {i}))
    ensures MeetingLogOk(w, c, log.(pending := log.pending - {i}))
  {
  }

  /** Removing i from c's pending values is safe once its goroutine no longer waits for it. */
  lemma UnpendKeepsWaits(w: World, w': World, c: ChanId, i: nat)
    requires WaitsOk(w) && i < |w.sudogs| && c in w.logs && Idle(w, w.sudogs[i].gid)
    requires w' == w.(logs := w'.logs) && c in w'.logs && w'.logs == w.logs[c := w'.logs[c]]
    requires w'.logs[c].pending == w.logs[c].pending - {i}
    ensures WaitsOk(w')
  {
    forall h | h in w'.gs
      ensures WaitOk(w', h)
    {
      assert WaitOk(w, h);
    }
  }

  lemma UnpendKeepsNames(w: World, w': World, c: ChanId)
    requires Named(w) && c in w.chans && w.chans[c].capacity == 0 && c in w.logs
    requires w' == w.(logs := w'.logs) && c in w'.logs && w'.logs == w.logs[c := w'.logs[c]]
    ensures Named(w')
  {
    ClocksCarryOver(w, w');
    assert w.chans[c := w.chans[c]] == w.chans;
    UnbufferedStaysNamed(Pub(w), w.chans, w.logs, c, w.chans[c], w'.logs[c]);
  }

  lemma UnpendKeepsLogs(w: World, w': World, c: ChanId)
    requires MeetingLogsOk(w) && c in w.logs
    requires w' == w.(logs := w'.logs) && c in w'.logs && w'.logs == w.logs[c := w'.logs[c]]
    requires MeetingLogOk(w, c, w'.logs[c])
    ensures MeetingLogsOk(w')
  {
    forall d | d in w'.chans && d in w'.logs && w'.chans[d].capacity == 0
      ensures MeetingLogOk(w', d, w'.logs[d])
    {
      if d == c {
        LogStaysOk(w, w', c, w'.logs[c]);
      } else {
        LogStaysOk(w, w', d, w.logs[d]);
      }
    }
  }

  lemma UnpendKeepsInv(w: World, w': World, c: ChanId, i: nat)
    requires Inv(w) && i < |w.sudogs| && c in w.chans && w.chans[c].capacity == 0 && c in w.logs
    requires Idle(w, w.sudogs[i].gid)
    requires w' == w.(logs := w'.logs) && c in w'.logs && w'.logs == w.logs[c := w'.logs[c]]
    requires w'.logs[c].pending == w.logs[c].pending - {i}
    requires MeetingLogOk(w, c, w'.logs[c])
    ensures Inv(w')
  {
    UnpendKeepsWaits(w, w', c, i);
    UnpendKeepsNames(w, w', c);
    UnpendKeepsLogs(w, w', c);
    LogsKeepMatched(w, w');
  }

  lemma LogsKeepMatched(w: World, w': World)
    requires Matched(w) && w'.chans == w.chans && w'.sudogs == w.sudogs && w'.sels == w.sels
    ensures Matched(w')
  {
    assert forall j: nat :: Live(w', j) <==> Live(w, j);
    forall c | c in w'.chans
      ensures QueueOk(w', w'.chans[c].recvq, c, false) && QueueOk(w', w'.chans[c].sendq, c, true)
    {
      assert QueueOk(w, w.chans[c].recvq, c, false) && QueueOk(w, w.chans[c].sendq, c, true);
    }
  }

  lemma DeliverKeepsInv(w: World, c: ChanId, i: nat)
    requires Inv(w) && i < |w.sudogs| && c in w.chans && w.chans[c].capacity == 0 && c in w.logs
    requires Idle(w, w.sudogs[i].gid)
    ensures Inv(Deliver(w, c, i))
  {
    if i in w.logs[c].pending {
      assert MeetingLogOk(w, c, w.logs[c]);
      DeliveredLogOk(w, c, w.logs[c], i);
      UnpendKeepsInv(w, Deliver(w, c, i), c, i);
    }
  }

  /** The goroutine's wait is over: it becomes idle. */
  lemma UnparkKeepsInv(w: World, g: Gid, wait: Wait)
    requires Inv(w) && g in w.gs && (wait.NoWait? || wait.Aborted?)
    ensures Inv(SetWait(w, g, wait)) && Idle(SetWait(w, g, wait), g)
  {
    SetWaitKeepsInv(w, g, wait);
  }

  /** Collects a completed operation: the counterpart's clock, a tick, and a received value. */
  lemma CompleteKeepsInv(w: World, g: Gid, c: ChanId, i: nat)
    requires Inv(w) && Idle(w, g) && i < |w.sudogs| && w.sudogs[i].gid == g
    requires c in w.chans && w.chans[c].capacity == 0 && c in w.logs
    ensures Inv(TickNow(Collect(w, g, i), g))
    ensures Inv(Deliver(TickNow(Collect(w, g, i), g), c, i))
  {
    CollectKeepsInv(w, g, i);
    var w1 := Collect(w, g, i);
    TickKeepsInv(w1, g);
    DeliverKeepsInv(TickNow(w1, g), c, i);
  }

  /** w' is w with some plain sudogs marked done and some selects marked fired. */
  ghost predicate Withdraws(w: World, w': World) {
    && w'.chans == w.chans && |w'.sudogs| == |w.sudogs| && |w'.sels| == |w.sels|
    && (forall i: nat :: i < |w.sudogs| ==>
          || w'.sudogs[i] == w.sudogs[i]
          || (w.sudogs[i].sel.None? && w'.sudogs[i] == w.sudogs[i].(done := true)))
    && (forall k: nat :: k < |w.sels| ==>
          w'.sels[k] == w.sels[k] || w'.sels[k] == w.sels[k].(fired := true))
  }

  lemma WithdrawalLiveness(w: World, w': World, i: nat)
    requires Withdraws(w, w') && Live(w', i)
    ensures Live(w, i)
  {
    if w.sudogs[i].sel.Some? && w.sudogs[i].sel.value < |w.sels| {
      assert w'.sels[w.sudogs[i].sel.value] == w.sels[w.sudogs[i].sel.value] || w'.sels[w.sudogs[i].sel.value].fired;
    }
  }

  /** Offers that are withdrawn can no longer be claimed; the others are unaffected. */
  lemma WithdrawalKeepsMatched(w: World, w': World)
    requires Matched(w) && Withdraws(w, w')
    ensures Matched(w')
  {
    forall c | c in w'.chans
      ensures QueueOk(w', w'.chans[c].recvq, c, false) && QueueOk(w', w'.chans[c].sendq, c, true)
    {
      assert QueueOk(w, w.chans[c].recvq, c, false) && QueueOk(w, w.chans[c].sendq, c, true);
    }
    forall i: nat | Live(w', i)
      ensures Live(w, i) && w'.sudogs[i] == w.sudogs[i]
    {
      WithdrawalLiveness(w, w', i);
    }
  }

  lemma WithdrawSelectKeepsWaits(w: World, sw: nat)
    requires WaitsOk(w) && sw < |w.sels| && Idle(w, w.sels[sw].gid)
    ensures WaitsOk(w.(sels := w.sels[sw := w.sels[sw].(fired := true)]))
  {
    var w' := w.(sels := w.sels[sw := w.sels[sw].(fired := true)]);
    forall h | h in w'.gs
      ensures WaitOk(w', h)
    {
      assert WaitOk(w, h);
    }
  }

  /** Withdrawing select sw's offers once its goroutine no longer waits. */
  lemma WithdrawSelectKeepsInv(w: World, sw: nat)
    requires Inv(w) && sw < |w.sels| && Idle(w, w.sels[sw].gid)
    ensures Inv(w.(sels := w.sels[sw := w.sels[sw].(fired := true)]))
  {
    var w' := w.(sels := w.sels[sw := w.sels[sw].(fired := true)]);
    ClocksCarryOver(w, w');
    WithdrawalKeepsMatched(w, w');
    WithdrawSelectKeepsWaits(w, sw);
  }

  lemma WithdrawSudogKeepsWaits(w: World, i: nat)
    requires WaitsOk(w) && i < |w.sudogs| && w.sudogs[i].sel.None? && Idle(w, w.sudogs[i].gid)
    ensures WaitsOk(w.(sudogs := w.sudogs[i := w.sudogs[i].(done := true)]))
  {
    var w' := w.(sudogs := w.sudogs[i := w.sudogs[i].(done := true)]);
    forall h | h in w'.gs
      ensures WaitOk(w', h)
    {
      assert WaitOk(w, h);
    }
  }

  lemma WithdrawSudogKeepsInv(w: World, i: nat)
    requires Inv(w) && i < |w.sudogs| && w.sudogs[i].sel.None? && Idle(w, w.sudogs[i].gid)
    ensures Inv(w.(sudogs := w.sudogs[i := w.sudogs[i].(done := true)]))
  {
    var w' := w.(sudogs := w.sudogs[i := w.sudogs[i].(done := true)]);
    ClocksCarryOver(w, w');
    WithdrawalKeepsMatched(w, w');
    WithdrawSudogKeepsWaits(w, i);
    assert SudogsNamed(Pub(w'), w'.sudogs) by {
      forall k: nat | k < |w'.sudogs|
        ensures Names(Pub(w), OfferOf(k), Some(w'.sudogs[k].clock)) && Names(Pub(w), ReplyOf(k), w'.sudogs[k].peer)
      {
        assert Names(Pub(w), OfferOf(k), Some(w.sudogs[k].clock)) && Names(Pub(w), ReplyOf(k), w.sudogs[k].peer);
      }
    }
    forall c | c in w'.chans && c in w'.logs && w'.chans[c].capacity == 0
      ensures MeetingLogOk(w', c, w'.logs[c])
    {
      assert MeetingLogOk(w, c, w.logs[c]);
      DoneLogOk(w, w', c, w.logs[c]);
    }
  }

  lemma DoneLogOk(w: World, w': World, c: ChanId, log: Log)
    requires MeetingLogOk(w, c, log) && |w'.sudogs| == |w.sudogs|
    requires forall j: nat :: j < |w.sudogs| ==> w'.sudogs[j] == w.sudogs[j] || w'.sudogs[j] == w.sudogs[j].(done := true)
    ensures MeetingLogOk(w', c, log)
  {
  }

  /** The part of a select's resumption where a counterpart has completed one of its cases. */
  lemma FiredSelectKeepsInv(w: World, g: Gid, sw: nat, cases: seq<Case>)
    requires Inv(w) && g in w.gs && KnownWait(w, g) && w.gs[g].wait == SelWait(sw, cases) && w.sels[sw].fired
    ensures Inv(SelectResume(w, g, sw, cases).0)
  {
    assert WaitOk(w, g);
    var w0, i := SetWait(w, g, NoWait), w.sels[sw].sg.value;
    UnparkKeepsInv(w, g, NoWait);
    var s := w.sudogs[i];
    assert OffersCase(w, g, s, cases);
    CompleteKeepsInv(w0, g, s.ch, i);
    var w1 := TickNow(Collect(w0, g, i), g);
    if cases[s.caseIdx].send {
      SameInv(w1, SelectResume(w, g, sw, cases).0);
    } else {
      SameInv(Deliver(w1, s.ch, i), SelectResume(w, g, sw, cases).0);
    }
  }

  lemma WithdrawWhileIdle(w: World, g: Gid, sw: nat, cases: seq<Case>)
    requires Inv(w) && g in w.gs && w.gs[g].wait == SelWait(sw, cases)
    ensures sw < |w.sels| && Inv(SetWait(w, g, NoWait).(sels := w.sels[sw := w.sels[sw].(fired := true)]))
  {
    assert WaitOk(w, g);
    UnparkKeepsInv(w, g, NoWait);
    WithdrawSelectKeepsInv(SetWait(w, g, NoWait), sw);
  }

  /** The part where the wait ended without a counterpart: the offers are withdrawn. */
  lemma UnfiredSelectKeepsInv(w: World, g: Gid, sw: nat, cases: seq<Case>)
    requires Inv(w) && g in w.gs && KnownWait(w, g) && w.gs[g].wait == SelWait(sw, cases) && !w.sels[sw].fired
    ensures Inv(SelectResume(w, g, sw, cases).0)
  {
    WithdrawWhileIdle(w, g, sw, cases);
    var w1 := SetWait(w, g, NoWait).(sels := w.sels[sw := w.sels[sw].(fired := true)]);
    var k := FirstReady(w1, cases, None);
    if k < |cases| {
      SelectCaseKeepsInv(w1, g, cases, k);
      SameInv(SelectCase(w1, g, cases, k).0, SelectResume(w, g, sw, cases).0);
    } else {
      SameInv(w1, SelectResume(w, g, sw, cases).0);
    }
  }

  lemma SelectResumeKeepsInv(w: World, g: Gid, sw: nat, cases: seq<Case>)
    requires Inv(w) && g in w.gs && KnownWait(w, g) && w.gs[g].wait == SelWait(sw, cases)
    ensures Inv(SelectResume(w, g, sw, cases).0)
  {
    if w.sels[sw].fired {
      FiredSelectKeepsInv(w, g, sw, cases);
    } else {
      UnfiredSelectKeepsInv(w, g, sw, cases);
    }
  }
}
