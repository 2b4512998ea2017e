/** What is lost on unbuffered channels: exactly the values held by goroutines that are aborted. Every
    other value that was handed over has been received, or is held for the receiver it was handed to. */
module RuntimeLossless {
  import opened Clock
  import opened ClockMachine
  import opened Detector
  import opened Runtime
  import opened RuntimeInvariant
  import opened RuntimeRuns
  import opened RuntimeDelivery
  import RuntimeEdges
  import opened RuntimeEvents

  /** The value of send p was received, or is held for a receiver. */
  ghost predicate Accounted(log: Log, p: nat) {
    (exists k :: 0 <= k < |log.taken| && log.taken[k].0 == p) || (exists i :: i in log.pending && log.pending[i] == p)
  }

  ghost predicate AllAccounted(log: Log) {
    forall p: nat :: p < |log.sent| ==> Accounted(log, p)
  }

  /** What is accounted for stays so, what is not stays lost, and what is new is accounted for. */
  ghost predicate SameAccount(log: Log, log': Log) {
    && |log.sent| <= |log'.sent|
    && (forall p: nat :: p < |log.sent| ==> (Accounted(log', p) <==> Accounted(log, p)))
    && (forall p: nat :: |log.sent| <= p < |log'.sent| ==> Accounted(log', p))
  }

  /** This holds of all unbuffered channels, and new ones have lost nothing. */
  ghost predicate Keeps(w: World, w': World) {
    && (forall c :: c in w.chans && c in w.logs && w.chans[c].capacity == 0 ==>
          c in w'.chans && c in w'.logs && w'.chans[c].capacity == 0 && SameAccount(w.logs[c], w'.logs[c]))
    && (forall c :: c in w'.chans && c !in w.chans ==> c in w'.logs && AllAccounted(w'.logs[c]))
    && (forall c :: c in w.chans ==> c in w'.chans && w'.chans[c].capacity == w.chans[c].capacity)
  }

  lemma SameLogsKeep(w: World, w': World)
    requires w'.logs == w.logs && w'.chans.Keys == w.chans.Keys
    requires forall c :: c in w.chans ==> c in w'.chans && w'.chans[c].capacity == w.chans[c].capacity
    ensures Keeps(w, w')
  {
  }

  lemma KeepsThen(w1: World, w2: World, w3: World)
    requires w2.logs == w1.logs && w2.chans == w1.chans && Keeps(w2, w3)
    ensures Keeps(w1, w3)
  {
  }

  // ------------------------------------------------------------------
  // What a log update keeps

  lemma GivenAccounted(log: Log, i: nat, val: Value)
    requires i !in log.pending
    ensures SameAccount(log, log.(sent := log.sent + [val], pending := log.pending[i := |log.sent|]))
  {
    var log' := log.(sent := log.sent + [val], pending := log.pending[i := |log.sent|]);
    assert i in log'.pending && log'.pending[i] == |log.sent|;
    forall p: nat | p < |log.sent|
      ensures Accounted(log', p) <==> Accounted(log, p)
    {
      if j :| j in log.pending && log.pending[j] == p {
        assert j in log'.pending && log'.pending[j] == p;
      }
    }
  }

  lemma TakenAccounted(log: Log, val: Value)
    ensures SameAccount(log, log.(sent := log.sent + [val], taken := log.taken + [(|log.sent|, val)]))
  {
    var log' := log.(sent := log.sent + [val], taken := log.taken + [(|log.sent|, val)]);
    assert log'.taken[|log.taken|].0 == |log.sent|;
    forall p: nat | p < |log.sent|
      ensures Accounted(log', p) <==> Accounted(log, p)
    {
      if k :| 0 <= k < |log.taken| && log.taken[k].0 == p {
        assert log'.taken[k].0 == p;
      }
    }
  }

  lemma DeliveredAccounted(log: Log, i: nat, val: Value)
    requires i in log.pending
    ensures SameAccount(log, log.(taken := log.taken + [(log.pending[i], val)], pending := log.pending - {i}))
  {
    var log' := log.(taken := log.taken + [(log.pending[i], val)], pending := log.pending - {i});
    assert log'.taken[|log.taken|].0 == log.pending[i];
    forall p: nat | p < |log.sent|
      ensures Accounted(log', p) <==> Accounted(log, p)
    {
      if k :| 0 <= k < |log.taken| && log.taken[k].0 == p {
        assert log'.taken[k].0 == p;
      }
      if j :| j in log.pending && log.pending[j] == p {
        assert j != i ==> j in log'.pending && log'.pending[j] == p;
      }
    }
  }

  // ------------------------------------------------------------------
  // Operations

  lemma NotHeld(w: World, c: ChanId, i: nat)
    requires SelectsOk(w) && MeetingLogsOk(w) && c in w.chans && c in w.logs && w.chans[c].capacity == 0 && Live(w, i)
    ensures i !in w.logs[c].pending
  {
    LiveIsUnanswered(w, i);
    assert MeetingLogOk(w, c, w.logs[c]);
  }

  lemma GiveToKeeps(w: World, g: Gid, c: ChanId, k: nat, val: Value)
    requires SelectsOk(w) && MeetingLogsOk(w) && g in w.gs && KnownChan(w, c) && w.chans[c].capacity == 0
    requires k < |w.chans[c].recvq| && Live(w, w.chans[c].recvq[k])
    ensures Keeps(w, GiveTo(w, g, c, k, val))
  {
    var i := w.chans[c].recvq[k];
    NotHeld(w, c, i);
    GivenAccounted(w.logs[c], i, val);
  }

  lemma TakeFromKeeps(w: World, g: Gid, c: ChanId, k: nat)
    requires g in w.gs && KnownChan(w, c) && k < |w.chans[c].sendq|
    ensures Keeps(w, TakeFrom(w, g, c, k))
  {
    TakenAccounted(w.logs[c], w.sudogs[w.chans[c].sendq[k]].val);
  }

  lemma SendReadyKeeps(w: World, g: Gid, c: ChanId, val: Value)
    requires g in w.gs && KnownChan(w, c) && (w.chans[c].closed || w.chans[c].capacity > 0)
    ensures Keeps(w, SendReady(w, g, c, val).0)
  {
  }

  lemma SendKeeps(w: World, g: Gid, c: ChanId, val: Value)
    requires SelectsOk(w) && MeetingLogsOk(w) && g in w.gs && (c in w.chans ==> KnownChan(w, c))
    ensures Keeps(w, Send(w, g, c, val).0)
  {
    if c in w.chans {
      var ch := w.chans[c];
      if ch.capacity > 0 || ch.closed {
        if CanSend(w, c, None) {
          SendReadyKeeps(w, g, c, val);
        }
      } else if FirstLive(w, ch.recvq) < |ch.recvq| {
        GiveToKeeps(w, g, c, FirstLive(w, ch.recvq), val);
      }
    }
  }

  lemma RecvReadyKeeps(w: World, g: Gid, c: ChanId)
    requires Named(w) && g in w.gs && KnownChan(w, c)
    ensures Keeps(w, RecvReady(w, g, c).0)
  {
    var ch := w.chans[c];
    if |ch.buf| > 0 {
      BufferedHasCapacity(w, c);
    } else if ch.capacity == 0 && !ch.closed && FirstLive(w, ch.sendq) < |ch.sendq| {
      TakeFromKeeps(w, g, c, FirstLive(w, ch.sendq));
    }
  }

  lemma RecvKeeps(w: World, g: Gid, c: ChanId)
    requires Named(w) && g in w.gs && (c in w.chans ==> KnownChan(w, c))
    ensures Keeps(w, Recv(w, g, c).0)
  {
    if c in w.chans {
      var ch := w.chans[c];
      if ch.capacity == 0 && !ch.closed {
        if FirstLive(w, ch.sendq) < |ch.sendq| {
          TakeFromKeeps(w, g, c, FirstLive(w, ch.sendq));
        }
      } else if CanRecv(w, c, None) {
        RecvReadyKeeps(w, g, c);
      }
    }
  }

  lemma {:induction false} OfferAllCapacities(w: World, g: Gid, sw: nat, cases: seq<Case>, j: nat)
    requires g in w.gs && j <= |cases|
    ensures var w' := OfferAll(w, g, sw, cases, j);
      w'.logs == w.logs && w'.chans.Keys == w.chans.Keys
      && forall c :: c in w.chans ==> c in w'.chans && w'.chans[c].capacity == w.chans[c].capacity
    decreases |cases| - j
  {
    if j < |cases| {
      if Offered(w, cases[j]) {
        OfferAllCapacities(Offer(w, g, cases[j].ch.value, cases[j].send, cases[j].val, Some(sw), j), g, sw, cases, j + 1);
      } else {
        OfferAllCapacities(w, g, sw, cases, j + 1);
      }
    }
  }

  lemma SelectCaseKeeps(w: World, g: Gid, cases: seq<Case>, k: nat)
    requires Named(w) && SelectsOk(w) && MeetingLogsOk(w) && g in w.gs && k < |cases| && KnownCases(w, cases)
    requires cases[k].ch.Some? && cases[k].ch.value in w.chans
    ensures Keeps(w, SelectCase(w, g, cases, k).0)
  {
    if cases[k].send {
      SendKeeps(w, g, cases[k].ch.value, cases[k].val);
    } else {
      RecvReadyKeeps(w, g, cases[k].ch.value);
    }
  }

  lemma SelectKeeps(w: World, g: Gid, cases: seq<Case>, blocking: bool)
    requires Named(w) && SelectsOk(w) && MeetingLogsOk(w) && g in w.gs && KnownCases(w, cases)
    ensures Keeps(w, Select(w, g, cases, blocking).0)
  {
    var k := FirstReady(w, cases, None);
    if k < |cases| {
      SelectCaseKeeps(w, g, cases, k);
    } else {
      OfferAllCapacities(w.(sels := w.sels + [SelectWait(g, false, None)]), g, |w.sels|, cases, 0);
      SameLogsKeep(w, Select(w, g, cases, blocking).0);
    }
  }

  lemma DeliverKeeps(w: World, w1: World, c: ChanId, i: nat)
    requires w1.logs == w.logs && w1.chans == w.chans && w1.sudogs == w.sudogs && c in w.logs && i < |w.sudogs|
    ensures Keeps(w, Deliver(w1, c, i))
  {
    if i in w.logs[c].pending {
      DeliveredAccounted(w.logs[c], i, w.sudogs[i].val);
    }
  }

  lemma SelectResumeKeeps(w: World, g: Gid)
    requires Named(w) && SelectsOk(w) && MeetingLogsOk(w) && g in w.gs && KnownWait(w, g) && w.gs[g].wait.SelWait?
    ensures Keeps(w, Resume(w, g).0)
  {
    var sw, cases := w.gs[g].wait.sw, w.gs[g].wait.cases;
    if w.sels[sw].fired {
      var i := w.sels[sw].sg.value;
      var w1 := TickNow(Collect(SetWait(w, g, NoWait), g, i), g);
      SameLogsKeep(w, w1);
      DeliverKeeps(w, w1, w.sudogs[i].ch, i);
    } else {
      UnfiredResumeKeeps(w, g, sw, cases);
    }
  }

  lemma UnfiredResumeKeeps(w: World, g: Gid, sw: nat, cases: seq<Case>)
    requires Named(w) && SelectsOk(w) && MeetingLogsOk(w) && g in w.gs && KnownWait(w, g)
    requires w.gs[g].wait == SelWait(sw, cases) && !w.sels[sw].fired
    ensures Keeps(w, Resume(w, g).0)
  {
    var w1 := Withdrawn(w, g, sw);
    RuntimeEdges.NamedAnyway(w, w1);
    WithdrawKeepsSelects(w, g, sw);
    SameMeetings(w, w1);
    assert KnownCases(w1, cases);
    SameLogsKeep(w, w1);
    var k := FirstReady(w1, cases, None);
    if k < |cases| {
      SelectCaseKeeps(w1, g, cases, k);
      KeepsThen(w, w1, Resume(w, g).0);
    }
  }

  lemma SameMeetings(w: World, w': World)
    requires MeetingLogsOk(w) && w'.chans == w.chans && w'.logs == w.logs && w'.sudogs == w.sudogs
    ensures MeetingLogsOk(w')
  {
    forall c | c in w'.chans && c in w'.logs && w'.chans[c].capacity == 0
      ensures MeetingLogOk(w', c, w'.logs[c])
    {
      assert MeetingLogOk(w, c, w.logs[c]);
      assert forall i: nat :: On(w', i, c, false) <==> On(w, i, c, false);
    }
  }

  lemma ChannelResumeKeeps(w: World, g: Gid)
    requires Named(w) && g in w.gs && KnownWait(w, g) && WaitOk(w, g) && !w.gs[g].wait.SelWait?
    ensures Keeps(w, Resume(w, g).0)
  {
    var w0 := SetWait(w, g, NoWait);
    SameLogsKeep(w, w0);
    if w.gs[g].wait.BufRecvWait? {
      RuntimeEdges.NamedAnyway(w, w0);
      assert KnownChan(w0, w.gs[g].wait.ch);
      RecvReadyKeeps(w0, g, w.gs[g].wait.ch);
      KeepsThen(w, w0, Resume(w, g).0);
    } else if w.gs[g].wait.BufSendWait? {
      assert KnownChan(w0, w.gs[g].wait.ch);
      SendReadyKeeps(w0, g, w.gs[g].wait.ch, w.gs[g].wait.val);
      KeepsThen(w, w0, Resume(w, g).0);
    } else if w.gs[g].wait.RecvWait? && w.sudogs[w.gs[g].wait.sd].done {
      DeliverKeeps(w, TickNow(Collect(w0, g, w.gs[g].wait.sd), g), w.gs[g].wait.ch, w.gs[g].wait.sd);
    } else {
      SameLogsKeep(w, Resume(w, g).0);
    }
  }

  /** The channel and position of the value that goroutine g was handed and has not returned yet. */
  function HeldBy(w: World, g: Gid): Option<(ChanId, nat)>
    requires g in w.gs
  {
    match w.gs[g].wait
    case RecvWait(c, i) => if c in w.chans && c in w.logs && i in w.logs[c].pending then Some((c, w.logs[c].pending[i])) else None
    case SelWait(sw, _) =>
      if sw < |w.sels| && w.sels[sw].fired && w.sels[sw].sg.Some? && w.sels[sw].sg.value < |w.sudogs| then
        var i := w.sels[sw].sg.value;
        var c := w.sudogs[i].ch;
        if c in w.chans && c in w.logs && i in w.logs[c].pending then Some((c, w.logs[c].pending[i])) else None
      else None
    case _ => None
  }

  /** Action a aborts the goroutine that holds the value of send p on c. */
  predicate Drops(w: World, a: Action, c: ChanId, p: nat) {
    a.DoAbort? && a.g in w.gs && HeldBy(w, a.g) == Some((c, p))
  }

  lemma DroppedAccount(log: Log, i: nat)
    requires i in log.pending
    requires forall k :: 0 <= k < |log.taken| ==> log.taken[k].0 != log.pending[i]
    requires forall j :: j in log.pending && j != i ==> log.pending[j] != log.pending[i]
    ensures forall p: nat :: Accounted(log.(pending := log.pending - {i}), p) <==> Accounted(log, p) && p != log.pending[i]
  {
    var log' := log.(pending := log.pending - {i});
    forall p: nat
      ensures Accounted(log', p) <==> Accounted(log, p) && p != log.pending[i]
    {
      if j :| j in log.pending && log.pending[j] == p {
        assert j != i ==> j in log'.pending && log'.pending[j] == p;
      }
    }
  }

  /** The log of c lost the value held for waiting receiver i. */
  predicate WithoutHeld(w: World, w': World, g: Gid, c: ChanId, i: nat)
    requires g in w.gs
  {
    && c in w.logs && c in w'.logs && i in w.logs[c].pending && HeldBy(w, g) == Some((c, w.logs[c].pending[i]))
    && w'.logs[c] == w.logs[c].(pending := w.logs[c].pending - {i})
  }

  /** The log of c after an abort: without the value that was held, if it was of c. */
  lemma AbortedLog(w: World, g: Gid, c: ChanId)
    requires g in w.gs && KnownWait(w, g) && c in w.chans && c in w.logs
    ensures var w' := Abort(w, g);
      && c in w'.chans && c in w'.logs && w'.chans[c] == w.chans[c]
      && if HeldBy(w, g).Some? && HeldBy(w, g).value.0 == c then exists i :: WithoutHeld(w, w', g, c, i)
         else w'.logs[c] == w.logs[c]
  {
    assert forall i :: i !in w.logs[c].pending ==> w.logs[c].pending - {i} == w.logs[c].pending;
    var w' := Abort(w, g);
    if HeldBy(w, g).Some? && HeldBy(w, g).value.0 == c {
      var i := if w.gs[g].wait.RecvWait? then w.gs[g].wait.sd else w.sels[w.gs[g].wait.sw].sg.value;
      assert WithoutHeld(w, w', g, c, i);
    }
  }

  /** What a step does to the values handed over on unbuffered channel c. */
  ghost predicate Settles(w: World, a: Action, w': World, c: ChanId) {
    && c in w.chans && c in w.logs && c in w'.chans && c in w'.logs && |w.logs[c].sent| <= |w'.logs[c].sent|
    && (forall p: nat :: p < |w.logs[c].sent| ==> (Accounted(w'.logs[c], p) <==> Accounted(w.logs[c], p) && !Drops(w, a, c, p)))
    && (forall p: nat :: |w.logs[c].sent| <= p < |w'.logs[c].sent| ==> Accounted(w'.logs[c], p))
  }

  lemma AbortSettles(w: World, a: Action, c: ChanId)
    requires a.DoAbort? && a.g in w.gs && KnownWait(w, a.g)
    requires MeetingLogsOk(w) && c in w.chans && c in w.logs && w.chans[c].capacity == 0
    ensures Settles(w, a, Abort(w, a.g), c)
  {
    AbortedLog(w, a.g, c);
    assert MeetingLogOk(w, c, w.logs[c]);
    var log, log' := w.logs[c], Abort(w, a.g).logs[c];
    if i :| WithoutHeld(w, Abort(w, a.g), a.g, c, i) {
      DroppedAccount(log, i);
    }
  }

  lemma MutexKeeps(w: World, a: Action)
    requires OnMutex(a) && a.g in w.gs
    ensures Keeps(w, AfterMutex(MakeSync(w, a.key), a))
  {
    MutexKeepsLogs(MakeSync(w, a.key), a);
    SameLogsKeep(w, AfterMutex(MakeSync(w, a.key), a));
  }

  lemma PlainStepKeeps(w: World, a: Action, w': World)
    requires NoDangling(w) && Allowed(w, a) && w' == Step(w, a).0
    requires a.DoStart? || a.DoGo? || a.DoMakeChan? || a.DoAccess? || a.DoClose?
    ensures Keeps(w, w')
  {
  }

  lemma GroupLogs(w: World, g: Gid, key: int, delta: int)
    requires g in w.gs && key in w.syncs
    ensures var w1, w2 := GroupAdd(w, g, key, delta), GroupWaitFor(w, g, key).0;
      w1.logs == w.logs && w1.chans == w.chans && w2.logs == w.logs && w2.chans == w.chans
  {
  }

  lemma GroupStepKeeps(w: World, a: Action, w': World)
    requires NoDangling(w) && Allowed(w, a) && w' == Step(w, a).0 && (a.DoGroupAdd? || a.DoGroupWait?)
    ensures Keeps(w, w')
  {
    GroupLogs(MakeSync(w, a.key), a.g, a.key, if a.DoGroupAdd? then a.delta else 0);
    SameLogsKeep(w, w');
  }

  lemma StepKeeps(w: World, a: Action, w': World)
    requires Inv(w) && NoDangling(w) && Allowed(w, a) && w' == Step(w, a).0 && !a.DoAbort?
    ensures Keeps(w, w')
  {
    if a.DoSend? {
      SendKeeps(w, a.g, a.c, a.val);
    } else if a.DoRecv? {
      RecvKeeps(w, a.g, a.c);
    } else if a.DoSelect? {
      SelectKeeps(w, a.g, a.cases, a.blocking);
    } else if a.DoResume? {
      assert KnownWait(w, a.g) && WaitOk(w, a.g);
      if w.gs[a.g].wait.SelWait? {
        SelectResumeKeeps(w, a.g);
      } else {
        ChannelResumeKeeps(w, a.g);
      }
    } else if OnMutex(a) {
      MutexStep(w, a);
      MutexKeeps(w, a);
    } else if a.DoGroupAdd? || a.DoGroupWait? {
      GroupStepKeeps(w, a, w');
    } else {
      PlainStepKeeps(w, a, w');
    }
  }

  lemma KeepingSettles(w: World, a: Action, w': World, c: ChanId)
    requires Keeps(w, w') && !a.DoAbort? && c in w.chans && c in w.logs && w.chans[c].capacity == 0
    ensures Settles(w, a, w', c)
  {
  }

  lemma StepSettles(e: Execution, m: nat, c: ChanId)
    requires IsExecution(e) && m < |e.acts| && c in e.worlds[m].chans && e.worlds[m].chans[c].capacity == 0
    ensures Settles(e.worlds[m], e.acts[m], e.worlds[m + 1], c)
  {
    RunsKeepInv(e, m);
    var w, a := e.worlds[m], e.acts[m];
    assert Allowed(w, a) && e.worlds[m + 1] == Step(w, a).0 && KnownChan(w, c);
    if a.DoAbort? {
      assert KnownWait(w, a.g);
      AbortSettles(w, a, c);
    } else {
      StepKeeps(w, a, e.worlds[m + 1]);
      KeepingSettles(w, a, e.worlds[m + 1], c);
    }
  }

  /** A new channel has lost nothing. */
  lemma NewChannelSettled(e: Execution, m: nat, c: ChanId)
    requires IsExecution(e) && m < |e.acts| && c !in e.worlds[m].chans && c in e.worlds[m + 1].chans
    ensures c in e.worlds[m + 1].logs && AllAccounted(e.worlds[m + 1].logs[c])
  {
    RunsKeepInv(e, m);
    var w, a := e.worlds[m], e.acts[m];
    assert Allowed(w, a) && e.worlds[m + 1] == Step(w, a).0;
    if !a.DoAbort? {
      StepKeeps(w, a, e.worlds[m + 1]);
    }
  }

  /** What is dropped was handed over, and is still of the log. */
  lemma DroppedWasSent(e: Execution, m: nat, n: nat, c: ChanId, p: nat)
    requires IsExecution(e) && m < |e.acts| && m <= n < |e.worlds| && Drops(e.worlds[m], e.acts[m], c, p)
    requires c in e.worlds[m].chans ==> e.worlds[m].chans[c].capacity == 0
    ensures c in e.worlds[n].chans && c in e.worlds[n].logs && p < |e.worlds[n].logs[c].sent|
  {
    RunsKeepInv(e, m);
    assert MeetingLogOk(e.worlds[m], c, e.worlds[m].logs[c]);
    RuntimeEdges.ChannelsGrow(e, m, n, c);
  }

  lemma {:induction false} CapacityStays(e: Execution, m: nat, n: nat, c: ChanId)
    requires IsExecution(e) && m <= n < |e.worlds| && c in e.worlds[m].chans
    ensures c in e.worlds[n].chans && e.worlds[n].chans[c].capacity == e.worlds[m].chans[c].capacity
  {
    RunsKeepInv(e, m);
    assert KnownChan(e.worlds[m], c);
    RuntimeEdges.ChannelsGrow(e, m, n, c);
  }

  /** In every run, a value that a send on an unbuffered channel handed over is lost, neither received nor
      held for a receiver, exactly when the goroutine that held it was aborted. */
  lemma {:induction false} LostIffDropped(e: Execution, n: nat, c: ChanId, p: nat)
    requires IsExecution(e) && n < |e.worlds| && c in e.worlds[n].chans && e.worlds[n].chans[c].capacity == 0
    requires c in e.worlds[n].logs ==> p < |e.worlds[n].logs[c].sent|
    ensures c in e.worlds[n].logs
    ensures Accounted(e.worlds[n].logs[c], p) <==> forall m {:trigger e.acts[m]} :: 0 <= m < n ==> !Drops(e.worlds[m], e.acts[m], c, p)
  {
    var k := n - 1;
    if n > 0 && c in e.worlds[k].chans {
      CapacityStays(e, k, n, c);
      StepSettles(e, k, c);
      if p < |e.worlds[k].logs[c].sent| {
        LostIffDropped(e, k, c, p);
      } else {
        NotDroppedBefore(e, k, n, c, p);
      }
    } else if n > 0 {
      NewChannelSettled(e, k, c);
      NotDroppedBefore(e, k, n, c, p);
    }
  }

  /** Nothing drops what has not been handed over. */
  lemma NotDroppedBefore(e: Execution, k: nat, n: nat, c: ChanId, p: nat)
    requires IsExecution(e) && n == k + 1 < |e.worlds| && c in e.worlds[n].chans && e.worlds[n].chans[c].capacity == 0
    requires c in e.worlds[k].chans && c in e.worlds[k].logs ==> |e.worlds[k].logs[c].sent| <= p
    ensures forall m {:trigger e.acts[m]} :: 0 <= m < n ==> !Drops(e.worlds[m], e.acts[m], c, p)
  {
    forall m {:trigger e.acts[m]} | 0 <= m < n
      ensures !Drops(e.worlds[m], e.acts[m], c, p)
    {
      if Drops(e.worlds[m], e.acts[m], c, p) {
        CapacityStays(e, m, n, c);
        DroppedWasSent(e, m, k, c, p);
      }
    }
  }

  /** So in a run in which no goroutine is aborted while it holds a value of c, every value handed over on
      c was received, or is held for the receiver that will return it. */
  lemma NothingIsLost(e: Execution, n: nat, c: ChanId)
    requires IsExecution(e) && n < |e.worlds| && c in e.worlds[n].chans && e.worlds[n].chans[c].capacity == 0
    requires forall m, p: nat {:trigger Drops(e.worlds[m], e.acts[m], c, p)} :: 0 <= m < n ==> !Drops(e.worlds[m], e.acts[m], c, p)
    ensures c in e.worlds[n].logs && AllAccounted(e.worlds[n].logs[c])
  {
    RunsKeepInv(e, n);
    assert KnownChan(e.worlds[n], c);
    forall p: nat | p < |e.worlds[n].logs[c].sent|
      ensures Accounted(e.worlds[n].logs[c], p)
    {
      LostIffDropped(e, n, c, p);
    }
  }
}
