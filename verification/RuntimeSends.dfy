/** What the history of sends records: exactly the sends that programs performed, each when it
    completes. A send completes in the step that performs it, or when a receive meets it waiting. */
module RuntimeSends {
  import opened Clock
  import opened ClockMachine
  import opened Detector
  import opened Runtime
  import opened RuntimeInvariant
  import opened RuntimeRuns
  import opened RuntimeHistory
  import opened RuntimeDelivery
  import opened RuntimeEvents

  // ------------------------------------------------------------------
  // What one step sends

  /** Waiting send i on c meets its receiver. */
  predicate MetSend(w: World, w': World, c: ChanId, i: nat) {
    && i < |w.sudogs| && i < |w'.sudogs| && w.sudogs[i].send && w.sudogs[i].ch == c
    && w.sudogs[i].peer.None? && w'.sudogs[i].peer.Some?
  }

  ghost predicate NoneMet(w: World, w': World, c: ChanId) {
    forall i: nat :: !MetSend(w, w', c, i)
  }

  ghost predicate OnlyMet(w: World, w': World, c: ChanId, i: nat) {
    forall j: nat :: MetSend(w, w', c, j) <==> j == i
  }

  /** The step completes one send of own on c, or one waiting send with its value, or none. */
  ghost predicate SendsOn(w: World, w': World, own: Option<Value>, c: ChanId)
    requires c in w.logs
  {
    && c in w'.chans && c in w'.logs
    && var sent, sent' := w.logs[c].sent, w'.logs[c].sent;
      if own.Some? then sent' == sent + [own.value] && NoneMet(w, w', c)
      else
        || (sent' == sent && NoneMet(w, w', c))
        || (exists i: nat :: i < |w.sudogs| && OnlyMet(w, w', c, i) && sent' == sent + [w.sudogs[i].val])
  }

  ghost predicate Sends(w: World, w': World, own: Option<(ChanId, Value)>) {
    && (forall c :: c in w.chans && c in w.logs ==> SendsOn(w, w', For(own, c), c))
    && (forall c :: c in w'.chans && c !in w.chans ==> c in w'.logs && w'.logs[c].sent == [])
  }

  /** The send that the outcome of a select completes. */
  function SentBySelect(cases: seq<Case>, out: Outcome): Option<(ChanId, Value)> {
    if out.SelectDone? && out.idx < |cases| && cases[out.idx].ch.Some? && cases[out.idx].send
    then Some((cases[out.idx].ch.value, cases[out.idx].val)) else None
  }

  /** The send of its own that goroutine a.g completes in this step. A send that waited on an unbuffered
      channel was completed by the receive that met it. */
  function Sent(w: World, a: Action, out: Outcome): Option<(ChanId, Value)> {
    match a
    case DoSend(g, c, val) => if c in w.chans && out == Done then Some((c, val)) else None
    case DoSelect(g, cases, _) => SentBySelect(cases, out)
    case DoResume(g) =>
      if g !in w.gs then None else (
        match w.gs[g].wait
        case BufSendWait(c, val) => if out == Done then Some((c, val)) else None
        case SelWait(sw, cases) => if Fired(w, Some(sw)) then None else SentBySelect(cases, out)
        case _ => None)
    case _ => None
  }

  // ------------------------------------------------------------------
  // Operations

  lemma SendsNothing(w: World, w': World)
    requires w'.logs == w.logs && w'.chans.Keys == w.chans.Keys && |w.sudogs| <= |w'.sudogs|
    requires forall i: nat :: i < |w.sudogs| ==> w'.sudogs[i].peer == w.sudogs[i].peer
    ensures Sends(w, w', None)
  {
  }

  lemma SendsAfter(w: World, w1: World, w2: World, own: Option<(ChanId, Value)>)
    requires w1.logs == w.logs && w1.chans == w.chans && w1.sudogs == w.sudogs && Sends(w1, w2, own)
    ensures Sends(w, w2, own)
  {
    assert forall c, i: nat :: MetSend(w1, w2, c, i) <==> MetSend(w, w2, c, i);
    forall c | c in w.chans && c in w.logs
      ensures SendsOn(w, w2, For(own, c), c)
    {
      assert SendsOn(w1, w2, For(own, c), c);
      if i: nat :| i < |w1.sudogs| && OnlyMet(w1, w2, c, i) && w2.logs[c].sent == w1.logs[c].sent + [w1.sudogs[i].val] {
        assert OnlyMet(w, w2, c, i);
      }
    }
  }

  lemma GiveToSends(w: World, g: Gid, c: ChanId, k: nat, val: Value)
    requires g in w.gs && KnownChan(w, c) && k < |w.chans[c].recvq| && !w.sudogs[w.chans[c].recvq[k]].send
    ensures Sends(w, GiveTo(w, g, c, k, val), Some((c, val)))
  {
    var w', i := GiveTo(w, g, c, k, val), w.chans[c].recvq[k];
    assert forall j: nat :: j < |w.sudogs| && j != i ==> w'.sudogs[j] == w.sudogs[j];
    assert forall d :: NoneMet(w, w', d);
  }

  lemma TakeFromSends(w: World, g: Gid, c: ChanId, k: nat)
    requires g in w.gs && KnownChan(w, c) && k < |w.chans[c].sendq|
    requires var s := w.sudogs[w.chans[c].sendq[k]]; s.send && s.ch == c && s.peer.None?
    ensures Sends(w, TakeFrom(w, g, c, k), None)
  {
    var w', i := TakeFrom(w, g, c, k), w.chans[c].sendq[k];
    assert forall j: nat :: j < |w.sudogs| && j != i ==> w'.sudogs[j] == w.sudogs[j];
    assert OnlyMet(w, w', c, i) && forall d :: d != c ==> NoneMet(w, w', d);
  }

  /** What the waiters in c's queues are. */
  lemma QueuedAre(w: World, c: ChanId, k: nat)
    requires QueuesOk(w) && SelectsOk(w) && KnownChan(w, c)
    ensures k < |w.chans[c].recvq| ==> !w.sudogs[w.chans[c].recvq[k]].send
    ensures k < |w.chans[c].sendq| && Live(w, w.chans[c].sendq[k]) ==>
      var s := w.sudogs[w.chans[c].sendq[k]]; s.send && s.ch == c && s.peer.None?
  {
    assert QueueOk(w, w.chans[c].recvq, c, false) && QueueOk(w, w.chans[c].sendq, c, true);
    if k < |w.chans[c].sendq| && Live(w, w.chans[c].sendq[k]) {
      LiveIsUnanswered(w, w.chans[c].sendq[k]);
    }
  }

  lemma BufPutSends(w: World, g: Gid, c: ChanId, val: Value)
    requires g in w.gs && KnownChan(w, c)
    ensures Sends(w, BufPut(w, g, c, val), Some((c, val)))
  {
  }

  lemma SendSends(w: World, g: Gid, c: ChanId, val: Value)
    requires QueuesOk(w) && SelectsOk(w) && g in w.gs && c in w.chans && KnownChan(w, c)
    ensures var (w', out) := Send(w, g, c, val); Sends(w, w', if out == Done then Some((c, val)) else None)
  {
    var ch := w.chans[c];
    if ch.capacity > 0 || ch.closed {
      if CanSend(w, c, None) && !ch.closed {
        BufPutSends(w, g, c, val);
      }
    } else {
      var k := FirstLive(w, ch.recvq);
      QueuedAre(w, c, k);
      if k < |ch.recvq| {
        GiveToSends(w, g, c, k, val);
      }
    }
  }

  lemma RecvReadySends(w: World, g: Gid, c: ChanId)
    requires QueuesOk(w) && SelectsOk(w) && g in w.gs && KnownChan(w, c)
    ensures Sends(w, RecvReady(w, g, c).0, None)
  {
    var ch := w.chans[c];
    if |ch.buf| == 0 && ch.capacity == 0 && !ch.closed {
      var k := FirstLive(w, ch.sendq);
      QueuedAre(w, c, k);
      if k < |ch.sendq| {
        TakeFromSends(w, g, c, k);
      }
    }
  }

  lemma RecvSends(w: World, g: Gid, c: ChanId)
    requires QueuesOk(w) && SelectsOk(w) && g in w.gs && KnownChan(w, c)
    ensures Sends(w, Recv(w, g, c).0, None)
  {
    var ch := w.chans[c];
    if ch.capacity == 0 && !ch.closed {
      var k := FirstLive(w, ch.sendq);
      QueuedAre(w, c, k);
      if k < |ch.sendq| {
        TakeFromSends(w, g, c, k);
      }
    } else if CanRecv(w, c, None) {
      RecvReadySends(w, g, c);
    }
  }

  lemma SelectCaseSends(w: World, g: Gid, cases: seq<Case>, k: nat)
    requires QueuesOk(w) && SelectsOk(w) && g in w.gs && k < |cases| && KnownCases(w, cases) && CaseReady(w, cases[k], None)
    ensures var (w', out) := SelectCase(w, g, cases, k); Sends(w, w', SentBySelect(cases, out))
  {
    var c := cases[k].ch.value;
    ReadyCaseFinishes(w, g, cases, k);
    if cases[k].send {
      SendSends(w, g, c, cases[k].val);
    } else {
      RecvReadySends(w, g, c);
    }
  }

  lemma {:induction false} OfferAllAppends(w: World, g: Gid, sw: nat, cases: seq<Case>, j: nat)
    requires g in w.gs && j <= |cases|
    ensures w.sudogs <= OfferAll(w, g, sw, cases, j).sudogs
    decreases |cases| - j
  {
    if j < |cases| {
      if Offered(w, cases[j]) {
        OfferAllAppends(Offer(w, g, cases[j].ch.value, cases[j].send, cases[j].val, Some(sw), j), g, sw, cases, j + 1);
      } else {
        OfferAllAppends(w, g, sw, cases, j + 1);
      }
    }
  }

  lemma SelectSends(w: World, g: Gid, cases: seq<Case>, blocking: bool)
    requires QueuesOk(w) && SelectsOk(w) && g in w.gs && KnownCases(w, cases)
    ensures var (w', out) := Select(w, g, cases, blocking); Sends(w, w', SentBySelect(cases, out))
  {
    var k := FirstReady(w, cases, None);
    if k < |cases| {
      SelectCaseSends(w, g, cases, k);
    } else if blocking {
      var w0 := w.(sels := w.sels + [SelectWait(g, false, None)]);
      OfferAllKeepsLogs(w0, g, |w.sels|, cases, 0);
      OfferAllAppends(w0, g, |w.sels|, cases, 0);
      SendsNothing(w, Select(w, g, cases, blocking).0);
    }
  }

  lemma UnfiredResumeSends(w: World, g: Gid, sw: nat, cases: seq<Case>)
    requires QueuesOk(w) && SelectsOk(w) && g in w.gs && KnownWait(w, g) && w.gs[g].wait == SelWait(sw, cases) && !w.sels[sw].fired
    requires FirstReady(w, cases, Some(sw)) < |cases|
    ensures var (w', out) := Resume(w, g); Sends(w, w', SentBySelect(cases, out))
  {
    var w1 := Withdrawn(w, g, sw);
    WithdrawnFirstReady(w, g, sw, cases);
    WithdrawKeepsSelects(w, g, sw);
    assert KnownCases(w1, cases);
    assert QueuesOk(w1) by {
      forall c | c in w1.chans
        ensures QueueOk(w1, w1.chans[c].recvq, c, false) && QueueOk(w1, w1.chans[c].sendq, c, true)
      {
        assert QueueOk(w, w.chans[c].recvq, c, false) && QueueOk(w, w.chans[c].sendq, c, true);
      }
    }
    SelectCaseSends(w1, g, cases, FirstReady(w1, cases, None));
    SendsAfter(w, w1, Resume(w, g).0, SentBySelect(cases, Resume(w, g).1));
  }

  lemma FiredResumeSends(w: World, g: Gid, sw: nat, cases: seq<Case>)
    requires g in w.gs && KnownWait(w, g) && w.gs[g].wait == SelWait(sw, cases) && w.sels[sw].fired
    ensures Sends(w, Resume(w, g).0, None)
  {
    var i := w.sels[sw].sg.value;
    var w1 := TickNow(Collect(SetWait(w, g, NoWait), g, i), g);
    SendsNothing(w, w1);
    var w2 := Deliver(w1, w.sudogs[i].ch, i);
    assert w2.sudogs == w.sudogs && w2.chans == w.chans;
  }

  lemma SelectResumeSends(w: World, g: Gid)
    requires QueuesOk(w) && SelectsOk(w) && g in w.gs && KnownWait(w, g) && w.gs[g].wait.SelWait? && Ready(w, g)
    ensures var (w', out) := Resume(w, g); Sends(w, w', Sent(w, DoResume(g), out))
  {
    var sw, cases := w.gs[g].wait.sw, w.gs[g].wait.cases;
    if w.sels[sw].fired {
      FiredResumeSends(w, g, sw, cases);
    } else {
      UnfiredResumeSends(w, g, sw, cases);
    }
  }

  lemma BufferedResumeSends(w: World, g: Gid)
    requires QueuesOk(w) && SelectsOk(w) && g in w.gs && KnownWait(w, g) && (w.gs[g].wait.BufRecvWait? || w.gs[g].wait.BufSendWait?)
    ensures var (w', out) := Resume(w, g); Sends(w, w', Sent(w, DoResume(g), out))
  {
    var w0, c := SetWait(w, g, NoWait), w.gs[g].wait.ch;
    assert KnownChan(w0, c);
    var own := Sent(w, DoResume(g), Resume(w, g).1);
    if w.gs[g].wait.BufSendWait? {
      if !w.chans[c].closed {
        BufPutSends(w0, g, c, w.gs[g].wait.val);
      } else {
        SendsNothing(w0, w0);
      }
    } else {
      assert QueuesOk(w0) && SelectsOk(w0) by {
        SetWaitLeavesQueues(w, g);
      }
      RecvReadySends(w0, g, c);
    }
    SendsAfter(w, w0, Resume(w, g).0, own);
  }

  lemma SetWaitLeavesQueues(w: World, g: Gid)
    requires QueuesOk(w) && SelectsOk(w) && g in w.gs
    ensures QueuesOk(SetWait(w, g, NoWait)) && SelectsOk(SetWait(w, g, NoWait))
  {
    var w0 := SetWait(w, g, NoWait);
    forall c | c in w0.chans
      ensures QueueOk(w0, w0.chans[c].recvq, c, false) && QueueOk(w0, w0.chans[c].sendq, c, true)
    {
      assert QueueOk(w, w.chans[c].recvq, c, false) && QueueOk(w, w.chans[c].sendq, c, true);
    }
  }

  lemma WaitResumeSends(w: World, g: Gid)
    requires g in w.gs && KnownWait(w, g)
    requires !w.gs[g].wait.SelWait? && !w.gs[g].wait.BufRecvWait? && !w.gs[g].wait.BufSendWait?
    ensures Sends(w, Resume(w, g).0, None)
  {
    var w' := Resume(w, g).0;
    assert w'.sudogs == w.sudogs && w'.chans == w.chans;
    if w.gs[g].wait.RecvWait? && w.sudogs[w.gs[g].wait.sd].done {
      var c, i := w.gs[g].wait.ch, w.gs[g].wait.sd;
      var w1 := TickNow(Collect(SetWait(w, g, NoWait), g, i), g);
      assert w' == Deliver(w1, c, i) && w1.logs == w.logs;
    } else {
      SendsNothing(w, w');
    }
  }

  lemma ResumeSends(w: World, g: Gid)
    requires QueuesOk(w) && SelectsOk(w) && g in w.gs && KnownWait(w, g) && Ready(w, g)
    ensures var (w', out) := Resume(w, g); Sends(w, w', Sent(w, DoResume(g), out))
  {
    match w.gs[g].wait
    case SelWait(_, _) => SelectResumeSends(w, g);
    case BufSendWait(_, _) => BufferedResumeSends(w, g);
    case BufRecvWait(_) => BufferedResumeSends(w, g);
    case _ => WaitResumeSends(w, g);
  }

  lemma AbortSends(w: World, g: Gid)
    requires g in w.gs && KnownWait(w, g)
    ensures Sends(w, Abort(w, g), None)
  {
  }

  lemma MutexSends(w: World, a: Action)
    requires OnMutex(a) && a.g in w.gs
    ensures Sends(w, AfterMutex(MakeSync(w, a.key), a), None)
  {
    MutexKeepsLogs(MakeSync(w, a.key), a);
    MutexLeavesWaiters(MakeSync(w, a.key), a);
    SendsNothing(w, AfterMutex(MakeSync(w, a.key), a));
  }

  lemma GroupIsQuiet(w: World, g: Gid, key: int, delta: int)
    requires g in w.gs && key in w.syncs
    ensures var w1, w2 := GroupAdd(w, g, key, delta), GroupWaitFor(w, g, key).0;
      && w1.logs == w.logs && w1.chans == w.chans && w1.sudogs == w.sudogs
      && w2.logs == w.logs && w2.chans == w.chans && w2.sudogs == w.sudogs
  {
  }

  lemma GroupSends(w: World, a: Action, w': World)
    requires NoDangling(w) && Allowed(w, a) && w' == Step(w, a).0 && (a.DoGroupAdd? || a.DoGroupWait?)
    ensures Sends(w, w', None)
  {
    GroupIsQuiet(MakeSync(w, a.key), a.g, a.key, if a.DoGroupAdd? then a.delta else 0);
    SendsNothing(w, w');
  }

  lemma PlainSends(w: World, a: Action, w': World)
    requires NoDangling(w) && Allowed(w, a) && w' == Step(w, a).0
    requires a.DoStart? || a.DoGo? || a.DoMakeChan? || a.DoAccess? || a.DoClose?
    ensures Sends(w, w', None)
  {
    if !a.DoMakeChan? {
      SendsNothing(w, w');
    }
  }

  lemma ChannelStepSends(w: World, a: Action, w': World, out: Outcome)
    requires QueuesOk(w) && SelectsOk(w) && NoDangling(w) && Allowed(w, a) && (w', out) == Step(w, a)
    requires a.DoSend? || a.DoRecv? || a.DoSelect? || a.DoResume? || a.DoAbort?
    ensures Sends(w, w', Sent(w, a, out))
  {
    match a
    case DoSend(g, c, val) =>
      if c in w.chans {
        SendSends(w, g, c, val);
      } else {
        SendsNothing(w, w');
      }
    case DoRecv(g, c) =>
      if c in w.chans {
        RecvSends(w, g, c);
      } else {
        SendsNothing(w, w');
      }
    case DoSelect(g, cases, blocking) => SelectSends(w, g, cases, blocking);
    case DoResume(g) => ResumeSends(w, g);
    case DoAbort(g) => AbortSends(w, g);
  }

  /** In every step the sends recorded grow by exactly the send its goroutine completes, or the waiting
      send that its receive meets. */
  lemma StepSends(w: World, a: Action, w': World, out: Outcome)
    requires Inv(w) && NoDangling(w) && Allowed(w, a) && (w', out) == Step(w, a)
    ensures Sends(w, w', Sent(w, a, out))
  {
    if a.DoSend? || a.DoRecv? || a.DoSelect? || a.DoResume? || a.DoAbort? {
      ChannelStepSends(w, a, w', out);
    } else if OnMutex(a) {
      MutexStep(w, a);
      MutexSends(w, a);
    } else if a.DoGroupAdd? || a.DoGroupWait? {
      GroupSends(w, a, w');
    } else {
      PlainSends(w, a, w');
    }
  }

  // ------------------------------------------------------------------
  // Runs

  /** Step m records the p-th send on c: its goroutine's own, or waiting send i that it meets. */
  ghost predicate RecordsSend(e: Execution, m: nat, c: ChanId, p: nat, v: Value)
    requires IsExecution(e) && m < |e.acts|
  {
    var w, a, w' := e.worlds[m], e.acts[m], e.worlds[m + 1];
    && c in w.chans && c in w.logs && |w.logs[c].sent| == p
    && (Sent(w, a, Step(w, a).1) == Some((c, v))
        || exists i: nat :: MetSend(w, w', c, i) && w.sudogs[i].val == v)
  }

  /** In every run each value in the history of sends was sent: it was recorded by a step that completed a
      send of that value on that channel, and each such step records one. */
  lemma {:induction false} EachSentIsASend(e: Execution, n: nat, c: ChanId, p: nat) returns (m: nat)
    requires IsExecution(e) && n < |e.worlds| && c in e.worlds[n].chans && c in e.worlds[n].logs && p < |e.worlds[n].logs[c].sent|
    ensures m < n && RecordsSend(e, m, c, p, e.worlds[n].logs[c].sent[p])
  {
    if n > 0 {
      var k := n - 1;
      RunsKeepInv(e, k);
      var w, a, w' := e.worlds[k], e.acts[k], e.worlds[n];
      assert w' == Step(w, a).0;
      StepSends(w, a, w', Step(w, a).1);
      if c in w.chans {
        assert KnownChan(w, c) && SendsOn(w, w', For(Sent(w, a, Step(w, a).1), c), c);
        if p < |w.logs[c].sent| {
          m := EachSentIsASend(e, k, c, p);
        } else {
          m := k;
        }
      }
    }
  }

  // ------------------------------------------------------------------
  // Waiting sends

  /** Action a offers s: a send or receive that waits, or a case of a select that does. */
  predicate Makes(a: Action, s: Sudog) {
    && s.gid == a.g
    && match a
       case DoSend(_, c, val) => s.send && s.ch == c && s.val == val
       case DoRecv(_, c) => !s.send && s.ch == c
       case DoSelect(_, cases, _) =>
         && s.caseIdx < |cases| && cases[s.caseIdx].ch == Some(s.ch) && cases[s.caseIdx].send == s.send
         && cases[s.caseIdx].val == s.val
       case _ => false
  }

  /** The waiters that are new in w' were offered by a. */
  ghost predicate NewAreMade(w: World, w': World, a: Action) {
    |w.sudogs| <= |w'.sudogs| && forall i :: |w.sudogs| <= i < |w'.sudogs| ==> Makes(a, w'.sudogs[i])
  }

  lemma {:induction false} OfferAllMakes(w: World, g: Gid, sw: nat, cases: seq<Case>, j: nat, blocking: bool)
    requires g in w.gs && j <= |cases|
    ensures NewAreMade(w, OfferAll(w, g, sw, cases, j), DoSelect(g, cases, blocking))
    decreases |cases| - j
  {
    if j < |cases| {
      if Offered(w, cases[j]) {
        var w1 := Offer(w, g, cases[j].ch.value, cases[j].send, cases[j].val, Some(sw), j);
        OfferAllMakes(w1, g, sw, cases, j + 1, blocking);
        OfferAllAppends(w1, g, sw, cases, j + 1);
        assert w1.sudogs[|w.sudogs|] == OfferAll(w, g, sw, cases, j).sudogs[|w.sudogs|];
      } else {
        OfferAllMakes(w, g, sw, cases, j + 1, blocking);
      }
    }
  }

  lemma ReadyCaseOffersNothing(w: World, g: Gid, cases: seq<Case>, k: nat)
    requires g in w.gs && k < |cases| && KnownCases(w, cases) && CaseReady(w, cases[k], None)
    ensures |SelectCase(w, g, cases, k).0.sudogs| == |w.sudogs|
  {
    ReadyCaseFinishes(w, g, cases, k);
  }

  lemma SelectMakes(w: World, g: Gid, cases: seq<Case>, blocking: bool)
    requires g in w.gs && KnownCases(w, cases)
    ensures NewAreMade(w, Select(w, g, cases, blocking).0, DoSelect(g, cases, blocking))
  {
    var k := FirstReady(w, cases, None);
    if k < |cases| {
      ReadyCaseOffersNothing(w, g, cases, k);
    } else if blocking {
      OfferAllMakes(w.(sels := w.sels + [SelectWait(g, false, None)]), g, |w.sels|, cases, 0, blocking);
    }
  }

  lemma SendMakes(w: World, g: Gid, c: ChanId, val: Value)
    requires g in w.gs && (c in w.chans ==> KnownChan(w, c))
    ensures NewAreMade(w, Send(w, g, c, val).0, DoSend(g, c, val))
  {
  }

  lemma RecvMakes(w: World, g: Gid, c: ChanId)
    requires g in w.gs && (c in w.chans ==> KnownChan(w, c))
    ensures NewAreMade(w, Recv(w, g, c).0, DoRecv(g, c))
  {
  }

  lemma ResumeMakesNothing(w: World, g: Gid)
    requires g in w.gs && KnownWait(w, g) && Ready(w, g)
    ensures |Resume(w, g).0.sudogs| == |w.sudogs|
  {
    if w.gs[g].wait.SelWait? && !w.sels[w.gs[g].wait.sw].fired {
      var sw, cases := w.gs[g].wait.sw, w.gs[g].wait.cases;
      var w1 := Withdrawn(w, g, sw);
      WithdrawnFirstReady(w, g, sw, cases);
      assert KnownCases(w1, cases);
      ReadyCaseOffersNothing(w1, g, cases, FirstReady(w1, cases, None));
    }
  }

  lemma PlainMakesNothing(w: World, a: Action, w': World)
    requires NoDangling(w) && Allowed(w, a) && w' == Step(w, a).0
    requires !a.DoSend? && !a.DoRecv? && !a.DoSelect? && !a.DoResume? && !OnMutex(a)
    ensures |w'.sudogs| == |w.sudogs|
  {
  }

  lemma StepMakes(w: World, a: Action, w': World)
    requires NoDangling(w) && Allowed(w, a) && w' == Step(w, a).0
    ensures NewAreMade(w, w', a)
  {
    if a.DoSend? {
      SendMakes(w, a.g, a.c, a.val);
    } else if a.DoRecv? {
      RecvMakes(w, a.g, a.c);
    } else if a.DoSelect? {
      SelectMakes(w, a.g, a.cases, a.blocking);
    } else if a.DoResume? {
      ResumeMakesNothing(w, a.g);
    } else if OnMutex(a) {
      MutexStep(w, a);
      MutexLeavesWaiters(MakeSync(w, a.key), a);
    } else {
      PlainMakesNothing(w, a, w');
    }
  }

  /** In every run each waiting send was offered by an earlier send or select of its goroutine, on that
      channel and with that value. */
  lemma {:induction false} WaitingSendWasMade(e: Execution, n: nat, i: nat) returns (m: nat)
    requires IsExecution(e) && n < |e.worlds| && i < |e.worlds[n].sudogs| && e.worlds[n].sudogs[i].send
    ensures m < n && Makes(e.acts[m], e.worlds[n].sudogs[i])
  {
    if n > 0 {
      var k := n - 1;
      RunsKeepInv(e, k);
      var w, a, w' := e.worlds[k], e.acts[k], e.worlds[n];
      assert Allowed(w, a) && w' == Step(w, a).0;
      StepMakes(w, a, w');
      if i < |w.sudogs| {
        SettledForever(e, k, n);
        assert SameOffer(w.sudogs[i], w'.sudogs[i]);
        m := WaitingSendWasMade(e, k, i);
      } else {
        m := k;
      }
    }
  }
}
