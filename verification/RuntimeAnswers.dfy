/** How channel operations answer in every reachable state, in terms of what the program did before:
    capacities as made, closes, values sent and received, and goroutines that wait. */
module RuntimeAnswers {
  import opened Clock
  import opened ClockMachine
  import opened Detector
  import opened Runtime
  import opened RuntimeInvariant
  import opened RuntimeRuns
  import opened RuntimeHistory
  import opened RuntimeTheorems
  import opened RuntimeDelivery
  import opened RuntimeEvents
  import opened RuntimeSends
  import opened RuntimeMade
  import opened RuntimeCounts
  import opened RuntimeWaits

  // ------------------------------------------------------------------
  // When an operation need not wait

  /** How many values sent on c have not been received. */
  function Backlog(w: World, c: ChanId): int
    requires c in w.logs
  {
    |w.logs[c].sent| - |w.logs[c].taken|
  }

  /** Waiter i sends on c, or receives, can be met, and is no offer of select self. */
  ghost predicate Meets(w: World, i: nat, c: ChanId, send: bool, self: Option<nat>) {
    On(w, i, c, send) && WaitsIn(w, i) && Unmet(w, i) && (w.sudogs[i].sel.Some? ==> w.sudogs[i].sel != self)
  }

  ghost predicate SomeoneMeets(w: World, c: ChanId, send: bool, self: Option<nat>) {
    exists i: nat :: Meets(w, i, c, send, self)
  }

  /** A send on c, or a receive, need not wait: c is closed, has room or a value, or someone waits for it. */
  ghost predicate Proceeds(e: Execution, n: nat, c: ChanId, send: bool, self: Option<nat>)
    requires IsExecution(e) && n < |e.worlds|
  {
    var w, cap := e.worlds[n], MadeWith(e.acts, n, c);
    && cap.Some? && c in w.logs
    && (|| ClosedBy(e.acts, n, c)
        || (cap.value == 0 && SomeoneMeets(w, c, !send, self))
        || (cap.value > 0 && if send then Backlog(w, c) < cap.value else Backlog(w, c) > 0))
  }

  lemma HasLiveIff(w: World, c: ChanId, send: bool, self: Option<nat>)
    requires QueuesOk(w) && LiveAreQueued(w) && c in w.chans
    ensures HasLive(w, QueueOf(w, c, send), self) <==> exists i: nat :: On(w, i, c, send) && Counts(w, i, self)
  {
    var q := QueueOf(w, c, send);
    assert QueueOk(w, q, c, send);
    if HasLive(w, q, self) {
      var k :| 0 <= k < |q| && Counts(w, q[k], self);
      assert On(w, q[k], c, send);
    }
    if i: nat :| On(w, i, c, send) && Counts(w, i, self) {
      var k :| 0 <= k < |q| && q[k] == i;
    }
  }

  lemma CountsIffMeets(e: Execution, n: nat, i: nat, c: ChanId, send: bool, self: Option<nat>)
    requires IsExecution(e) && n < |e.worlds| && c in e.worlds[n].chans && !e.worlds[n].chans[c].closed
    ensures On(e.worlds[n], i, c, send) && Counts(e.worlds[n], i, self) <==> Meets(e.worlds[n], i, c, send, self)
  {
    if On(e.worlds[n], i, c, send) {
      LiveIffWaiting(e, n, i);
    }
  }

  lemma HasLiveIffMeets(e: Execution, n: nat, c: ChanId, send: bool, self: Option<nat>)
    requires IsExecution(e) && n < |e.worlds| && c in e.worlds[n].chans && !e.worlds[n].chans[c].closed
    ensures HasLive(e.worlds[n], QueueOf(e.worlds[n], c, send), self) <==> SomeoneMeets(e.worlds[n], c, send, self)
  {
    RunsKeepInv(e, n);
    var w := e.worlds[n];
    HasLiveIff(w, c, send, self);
    if i: nat :| On(w, i, c, send) && Counts(w, i, self) {
      CountsIffMeets(e, n, i, c, send, self);
    }
    if i: nat :| Meets(w, i, c, send, self) {
      CountsIffMeets(e, n, i, c, send, self);
    }
  }

  /** What the buffer holds is what has not been received. */
  lemma BufferIsBacklog(e: Execution, n: nat, c: ChanId)
    requires IsExecution(e) && n < |e.worlds| && c in e.worlds[n].chans
    ensures KnownChan(e.worlds[n], c)
    ensures e.worlds[n].chans[c].capacity == 0 ==> e.worlds[n].chans[c].buf == []
    ensures e.worlds[n].chans[c].capacity > 0 ==>
      var w := e.worlds[n];
      && |w.chans[c].buf| == Backlog(w, c)
      && (Backlog(w, c) > 0 ==> w.chans[c].buf[0].val == w.logs[c].sent[|w.logs[c].taken|])
  {
    RunsKeepInv(e, n);
    var w := e.worlds[n];
    assert KnownChan(w, c) && ChanNamed(Pub(w), c, w.chans[c], w.logs[c]);
    if w.chans[c].buf != [] {
      BufferedHasCapacity(w, c);
    }
  }

  /** The interpreter's test is exact, for a plain operation and for a case of a waiting select. */
  lemma ProceedsIff(e: Execution, n: nat, c: ChanId, send: bool, self: Option<nat>)
    requires IsExecution(e) && n < |e.worlds|
    ensures Proceeds(e, n, c, send, self) <==>
      c in e.worlds[n].chans && if send then CanSend(e.worlds[n], c, self) else CanRecv(e.worlds[n], c, self)
  {
    ChannelsAreAsMade(e, n, c);
    if c in e.worlds[n].chans {
      BufferIsBacklog(e, n, c);
      if !e.worlds[n].chans[c].closed {
        HasLiveIffMeets(e, n, c, !send, self);
      }
    }
  }

  // ------------------------------------------------------------------
  // Plain operations

  /** The oldest waiter that an operation on c meets gets its counterpart. */
  ghost predicate MeetsOldest(w: World, w': World, c: ChanId, send: bool, i: nat) {
    && Meets(w, i, c, send, None) && (forall j: nat :: Meets(w, j, c, send, None) ==> i <= j)
    && i < |w'.sudogs| && w'.sudogs[i].peer.Some?
  }

  lemma FirstLiveCounts(w: World, q: seq<nat>, c: ChanId, send: bool)
    requires QueueOk(w, q, c, send)
    ensures var k := FirstLive(w, q); k < |q| ==> On(w, q[k], c, send) && Counts(w, q[k], None)
  {
  }

  /** The first live entry of a queue is the oldest live waiter there. */
  lemma FirstLiveIsFirst(w: World, c: ChanId, send: bool, j: nat)
    requires QueuesOk(w) && LiveAreQueued(w) && c in w.chans
    ensures var q := QueueOf(w, c, send);
      var k := FirstLive(w, q);
      && (k < |q| ==> On(w, q[k], c, send) && Counts(w, q[k], None))
      && (On(w, j, c, send) && Counts(w, j, None) ==> k < |q| && q[k] <= j)
  {
    var q := QueueOf(w, c, send);
    assert QueueOk(w, q, c, send);
    FirstLiveCounts(w, q, c, send);
    if On(w, j, c, send) && Counts(w, j, None) {
      FirstLiveIsOldest(w, q, c, send, j);
    }
  }

  lemma FirstLiveIsMet(e: Execution, n: nat, c: ChanId, send: bool)
    requires IsExecution(e) && n < |e.worlds| && c in e.worlds[n].chans && !e.worlds[n].chans[c].closed
    ensures var q := QueueOf(e.worlds[n], c, send);
      var k := FirstLive(e.worlds[n], q);
      && (k < |q| <==> SomeoneMeets(e.worlds[n], c, send, None))
      && (k < |q| ==> Meets(e.worlds[n], q[k], c, send, None) && forall j: nat :: Meets(e.worlds[n], j, c, send, None) ==> q[k] <= j)
  {
    RunsKeepInv(e, n);
    var w, q := e.worlds[n], QueueOf(e.worlds[n], c, send);
    var k := FirstLive(w, q);
    FirstLiveIsFirst(w, c, send, 0);
    if k < |q| {
      CountsIffMeets(e, n, q[k], c, send, None);
    }
    forall j: nat | Meets(w, j, c, send, None)
      ensures k < |q| && q[k] <= j
    {
      CountsIffMeets(e, n, j, c, send, None);
      FirstLiveIsFirst(w, c, send, j);
    }
  }

  /** How a send answers. */
  ghost predicate SendAnswer(e: Execution, n: nat, c: ChanId, val: Value, w': World, out: Outcome)
    requires IsExecution(e) && n < |e.worlds|
  {
    var w := e.worlds[n];
    if MadeWith(e.acts, n, c).None? then out == Done && w' == w
    else if ClosedBy(e.acts, n, c) then out == Panicked("send on closed channel") && w' == w
    else if !Proceeds(e, n, c, true, None) then out == Parked
    else out == Done && (MadeWith(e.acts, n, c) == Some(0) ==> exists i: nat :: MeetsOldest(w, w', c, false, i) && w'.sudogs[i].val == val)
  }

  /** A send on an unknown channel has no effect, on a closed one panics, with room or a waiting receiver
      completes, and otherwise waits. A waiting receiver that gets the value is the oldest. */
  lemma SendAnswers(e: Execution, n: nat, g: Gid, c: ChanId, val: Value)
    requires IsExecution(e) && n < |e.worlds| && Allowed(e.worlds[n], DoSend(g, c, val))
    ensures NoDangling(e.worlds[n])
    ensures var (w', out) := Step(e.worlds[n], DoSend(g, c, val)); SendAnswer(e, n, c, val, w', out)
  {
    RunsKeepInv(e, n);
    var w := e.worlds[n];
    ChannelsAreAsMade(e, n, c);
    ProceedsIff(e, n, c, true, None);
    if c in w.chans && w.chans[c].capacity == 0 && !w.chans[c].closed {
      FirstLiveIsMet(e, n, c, false);
      HasLiveIffMeets(e, n, c, false, None);
      var q := w.chans[c].recvq;
      var k := FirstLive(w, q);
      if k < |q| {
        assert MeetsOldest(w, GiveTo(w, g, c, k, val), c, false, q[k]);
      }
    }
  }

  /** How a receive answers. */
  ghost predicate RecvAnswer(e: Execution, n: nat, c: ChanId, w': World, out: Outcome)
    requires IsExecution(e) && n < |e.worlds|
  {
    var w, cap := e.worlds[n], MadeWith(e.acts, n, c);
    if cap.None? then out == RecvDone(ZERO, true) && w' == w
    else if !Proceeds(e, n, c, false, None) then out == Parked
    else if cap.value > 0 && Backlog(w, c) > 0 then out == RecvDone(w.logs[c].sent[|w.logs[c].taken|], true)
    else if ClosedBy(e.acts, n, c) then out == RecvDone(ZERO, false)
    else exists i: nat :: MeetsOldest(w, w', c, true, i) && out == RecvDone(w.sudogs[i].val, true)
  }

  /** A receive on an unknown channel yields nothing, one with a backlog the first value not received, one
      on a closed channel without a backlog the zero value, and one that meets a waiting sender the value
      of the oldest; otherwise it waits. */
  lemma RecvAnswers(e: Execution, n: nat, g: Gid, c: ChanId)
    requires IsExecution(e) && n < |e.worlds| && Allowed(e.worlds[n], DoRecv(g, c))
    ensures NoDangling(e.worlds[n])
    ensures var (w', out) := Step(e.worlds[n], DoRecv(g, c)); RecvAnswer(e, n, c, w', out)
  {
    RunsKeepInv(e, n);
    var w := e.worlds[n];
    ChannelsAreAsMade(e, n, c);
    ProceedsIff(e, n, c, false, None);
    if c in w.chans {
      BufferIsBacklog(e, n, c);
      if w.chans[c].capacity == 0 && !w.chans[c].closed {
        FirstLiveIsMet(e, n, c, true);
        var q := w.chans[c].sendq;
        var k := FirstLive(w, q);
        if k < |q| {
          assert MeetsOldest(w, TakeFrom(w, g, c, k), c, true, q[k]);
        }
      }
    }
  }

  /** A close of an unknown channel has no effect, a second close panics and changes nothing. */
  lemma CloseAnswers(e: Execution, n: nat, g: Gid, c: ChanId)
    requires IsExecution(e) && n < |e.worlds| && Allowed(e.worlds[n], DoClose(g, c))
    ensures NoDangling(e.worlds[n])
    ensures var (w', out) := Step(e.worlds[n], DoClose(g, c));
      if MadeWith(e.acts, n, c).None? then out == Done && w' == e.worlds[n]
      else if ClosedBy(e.acts, n, c) then out == Panicked("close of closed channel") && w' == e.worlds[n]
      else out == Done && c in w'.chans && w'.chans[c].closed
  {
    RunsKeepInv(e, n);
    ChannelsAreAsMade(e, n, c);
  }

  // ------------------------------------------------------------------
  // Select

  /** Case k of a select need not wait. */
  ghost predicate CaseProceeds(e: Execution, n: nat, cs: Case, self: Option<nat>)
    requires IsExecution(e) && n < |e.worlds|
  {
    cs.ch.Some? && Proceeds(e, n, cs.ch.value, cs.send, self)
  }

  ghost predicate LeastCase(e: Execution, n: nat, cases: seq<Case>, self: Option<nat>, k: nat)
    requires IsExecution(e) && n < |e.worlds|
  {
    && k < |cases| && CaseProceeds(e, n, cases[k], self)
    && forall j :: 0 <= j < k ==> !CaseProceeds(e, n, cases[j], self)
  }

  lemma FirstReadyIsLeast(e: Execution, n: nat, cases: seq<Case>, self: Option<nat>)
    requires IsExecution(e) && n < |e.worlds|
    ensures var k := FirstReady(e.worlds[n], cases, self);
      if k < |cases| then LeastCase(e, n, cases, self, k)
      else forall j :: 0 <= j < |cases| ==> !CaseProceeds(e, n, cases[j], self)
  {
    forall j | 0 <= j < |cases|
      ensures CaseProceeds(e, n, cases[j], self) <==> CaseReady(e.worlds[n], cases[j], self)
    {
      if cases[j].ch.Some? {
        ProceedsIff(e, n, cases[j].ch.value, cases[j].send, self);
      }
    }
  }

  /** The plain operation that case cs stands for. */
  function Alone(g: Gid, cs: Case): Action
    requires cs.ch.Some?
  {
    if cs.send then DoSend(g, cs.ch.value, cs.val) else DoRecv(g, cs.ch.value)
  }

  /** A select that finishes with case k, where the plain operation alone would end with out. */
  function AsCase(k: nat, out: Outcome): Outcome {
    match out
    case Done => SelectDone(k, ZERO, false)
    case RecvDone(val, ok) => SelectDone(k, val, ok)
    case _ => out
  }

  lemma ReadyRecvIsRecv(w: World, g: Gid, c: ChanId)
    requires Named(w) && QueuesOk(w) && LiveAreQueued(w) && g in w.gs && KnownChan(w, c) && CanRecv(w, c, None)
    ensures RecvReady(w, g, c) == Recv(w, g, c) && Recv(w, g, c).1.RecvDone?
  {
    if |w.chans[c].buf| > 0 {
      BufferedHasCapacity(w, c);
    } else if w.chans[c].capacity == 0 && !w.chans[c].closed {
      HasLiveIff(w, c, true, None);
      var i: nat :| On(w, i, c, true) && Counts(w, i, None);
      FirstLiveIsFirst(w, c, true, i);
    }
  }

  /** The select finished with case k, doing what that operation alone does. */
  ghost predicate DoesAlone(w: World, g: Gid, cases: seq<Case>, k: nat, w': World, out: Outcome)
    requires NoDangling(w) && k < |cases| && cases[k].ch.Some? && Allowed(w, Alone(g, cases[k]))
  {
    (w', out) == (Step(w, Alone(g, cases[k])).0, AsCase(k, Step(w, Alone(g, cases[k])).1)) && FinishedWith(w, cases, k, out)
  }

  /** A ready case does what the operation alone does. */
  lemma ReadyCaseIsAlone(w: World, g: Gid, cases: seq<Case>, k: nat)
    requires Named(w) && QueuesOk(w) && LiveAreQueued(w) && NoDangling(w) && g in w.gs && w.gs[g].wait.NoWait?
    requires k < |cases| && KnownCases(w, cases) && CaseReady(w, cases[k], None)
    ensures var (w', out) := SelectCase(w, g, cases, k); DoesAlone(w, g, cases, k, w', out)
  {
    var c := cases[k].ch.value;
    ReadyCaseFinishes(w, g, cases, k);
    if !cases[k].send {
      ReadyRecvIsRecv(w, g, c);
    }
  }

  ghost predicate NoneProceeds(e: Execution, n: nat, cases: seq<Case>, self: Option<nat>)
    requires IsExecution(e) && n < |e.worlds|
  {
    forall k :: 0 <= k < |cases| ==> !CaseProceeds(e, n, cases[k], self)
  }

  /** How a select answers; g can act, so it could do each case alone. */
  ghost predicate SelectAnswer(e: Execution, n: nat, g: Gid, cases: seq<Case>, blocking: bool, w': World, out: Outcome)
    requires IsExecution(e) && n < |e.worlds| && NoDangling(e.worlds[n]) && Allowed(e.worlds[n], DoSelect(g, cases, blocking))
  {
    if NoneProceeds(e, n, cases, None) then
      if blocking then out == Parked else out == SelectDone(|cases|, ZERO, false) && w' == e.worlds[n]
    else exists k: nat :: LeastCase(e, n, cases, None, k) && DoesAlone(e.worlds[n], g, cases, k, w', out)
  }

  lemma SelectByFirst(w: World, g: Gid, cases: seq<Case>, blocking: bool)
    requires Named(w) && QueuesOk(w) && LiveAreQueued(w) && NoDangling(w) && Allowed(w, DoSelect(g, cases, blocking))
    ensures var (w', out) := Step(w, DoSelect(g, cases, blocking));
      var k := FirstReady(w, cases, None);
      if k < |cases| then cases[k].ch.Some? && DoesAlone(w, g, cases, k, w', out)
      else if blocking then out == Parked else out == SelectDone(|cases|, ZERO, false) && w' == w
  {
    var k := FirstReady(w, cases, None);
    if k < |cases| {
      ReadyCaseIsAlone(w, g, cases, k);
    }
  }

  /** A select does exactly what its least case that need not wait does alone; if there is none it takes the
      default and changes nothing, or waits if it has no default. */
  lemma SelectAnswers(e: Execution, n: nat, g: Gid, cases: seq<Case>, blocking: bool)
    requires IsExecution(e) && n < |e.worlds| && Allowed(e.worlds[n], DoSelect(g, cases, blocking))
    ensures NoDangling(e.worlds[n])
    ensures var (w', out) := Step(e.worlds[n], DoSelect(g, cases, blocking)); SelectAnswer(e, n, g, cases, blocking, w', out)
  {
    RunsKeepInv(e, n);
    SelectByFirst(e.worlds[n], g, cases, blocking);
    FirstReadyIsLeast(e, n, cases, None);
    var k := FirstReady(e.worlds[n], cases, None);
    assert k < |cases| ==> LeastCase(e, n, cases, None, k);
  }

  // ------------------------------------------------------------------
  // Waiting operations

  ghost predicate SomeCaseMet(w: World, sw: nat) {
    exists i :: 0 <= i < |w.sudogs| && w.sudogs[i].sel == Some(sw) && w.sudogs[i].peer.Some?
  }

  /** What goroutine g waits for has come about. */
  ghost predicate Over(e: Execution, n: nat, g: Gid)
    requires IsExecution(e) && n < |e.worlds|
  {
    var w := e.worlds[n];
    && g in w.gs
    && match w.gs[g].wait
       case NoWait => false
       case Aborted => false
       case SendWait(c, i) => ClosedBy(e.acts, n, c) || (i < |w.sudogs| && w.sudogs[i].peer.Some?)
       case RecvWait(c, i) => ClosedBy(e.acts, n, c) || (i < |w.sudogs| && w.sudogs[i].peer.Some?)
       case BufSendWait(c, _) => Proceeds(e, n, c, true, None)
       case BufRecvWait(c) => Proceeds(e, n, c, false, None)
       case SelWait(sw, cases) => SomeCaseMet(w, sw) || !NoneProceeds(e, n, cases, Some(sw))
       case GroupWait(key) => Outstanding(e.acts, n, key) <= 0
  }

  lemma FiredIffMet(w: World, g: Gid)
    requires SelectsOk(w) && g in w.gs && KnownWait(w, g) && WaitOk(w, g) && w.gs[g].wait.SelWait?
    ensures w.sels[w.gs[g].wait.sw].fired <==> SomeCaseMet(w, w.gs[g].wait.sw)
  {
    var sw := w.gs[g].wait.sw;
    assert OwnSelect(w, g, sw, w.gs[g].wait.cases);
    if w.sels[sw].fired {
      var i := w.sels[sw].sg.value;
      assert w.sudogs[i].sel == Some(sw) && w.sudogs[i].done;
    }
  }

  lemma DoneIffMet(w: World, g: Gid, c: ChanId, i: nat)
    requires SelectsOk(w) && g in w.gs && WaitOk(w, g) && (w.gs[g].wait == SendWait(c, i) || w.gs[g].wait == RecvWait(c, i))
    ensures c in w.chans && i < |w.sudogs| && (w.sudogs[i].done <==> w.sudogs[i].peer.Some?)
  {
  }

  lemma SelectReadyIff(w: World, g: Gid)
    requires SelectsOk(w) && g in w.gs && KnownWait(w, g) && WaitOk(w, g) && w.gs[g].wait.SelWait?
    ensures var sw, cases := w.gs[g].wait.sw, w.gs[g].wait.cases;
      Ready(w, g) <==> SomeCaseMet(w, sw) || FirstReady(w, cases, Some(sw)) < |cases|
  {
    FiredIffMet(w, g);
  }

  /** In every reachable state a goroutine may resume exactly when what it waits for has come about: a
      counterpart met it, the channel was closed, has room or a value, or the Adds are no longer
      outstanding. */
  lemma MayResumeIff(e: Execution, n: nat, g: Gid)
    requires IsExecution(e) && n < |e.worlds|
    ensures Allowed(e.worlds[n], DoResume(g)) <==> Over(e, n, g)
  {
    RunsKeepInv(e, n);
    var w := e.worlds[n];
    if g in w.gs {
      assert KnownWait(w, g) && WaitOk(w, g);
      match w.gs[g].wait
      case SelWait(sw, cases) => SelectReadyIff(w, g); FirstReadyIsLeast(e, n, cases, Some(sw));
      case SendWait(c, i) => DoneIffMet(w, g, c, i); ChannelsAreAsMade(e, n, c);
      case RecvWait(c, i) => DoneIffMet(w, g, c, i); ChannelsAreAsMade(e, n, c);
      case BufSendWait(c, _) => ProceedsIff(e, n, c, true, None);
      case BufRecvWait(c) => ProceedsIff(e, n, c, false, None);
      case GroupWait(key) => CountsAreOfSteps(e, n, key);
      case _ =>
    }
  }

  /** A receive on c that need not wait has a value to return; else c is closed and drained. */
  ghost predicate HasValue(e: Execution, n: nat, c: ChanId)
    requires IsExecution(e) && n < |e.worlds| && c in e.worlds[n].logs
  {
    !ClosedBy(e.acts, n, c) || (MadeWith(e.acts, n, c) != Some(0) && Backlog(e.worlds[n], c) > 0)
  }

  /** The select ends with the case of waiter i, which a counterpart met. */
  predicate EndsMet(w: World, sw: nat, i: nat, out: Outcome) {
    && i < |w.sudogs| && w.sudogs[i].sel == Some(sw) && w.sudogs[i].peer.Some?
    && out == SelectDone(w.sudogs[i].caseIdx, if w.sudogs[i].send then ZERO else w.sudogs[i].val, !w.sudogs[i].send)
  }

  /** The select ends with case k, the least that need not wait without the select's own offers. */
  ghost predicate EndsUnmet(e: Execution, n: nat, sw: nat, cases: seq<Case>, k: nat, out: Outcome)
    requires IsExecution(e) && n < |e.worlds|
  {
    && LeastCase(e, n, cases, Some(sw), k) && FinishedWith(e.worlds[n], cases, k, out)
    && (!cases[k].send ==> (out.ok <==> HasValue(e, n, cases[k].ch.value)) && (!out.ok ==> out.val == ZERO))
  }

  /** How a select that waited ends. */
  ghost predicate SelectResumeAnswer(e: Execution, n: nat, sw: nat, cases: seq<Case>, out: Outcome)
    requires IsExecution(e) && n < |e.worlds|
  {
    if SomeCaseMet(e.worlds[n], sw) then exists i: nat :: EndsMet(e.worlds[n], sw, i, out)
    else exists k: nat :: EndsUnmet(e, n, sw, cases, k, out)
  }

  /** How an operation that waited ends. */
  ghost predicate ResumeAnswer(e: Execution, n: nat, g: Gid, out: Outcome)
    requires IsExecution(e) && n < |e.worlds| && g in e.worlds[n].gs
  {
    var w := e.worlds[n];
    match w.gs[g].wait
    case SendWait(c, i) =>
      i < |w.sudogs| && out == if w.sudogs[i].peer.Some? then Done else Panicked("send on closed channel")
    case RecvWait(c, i) =>
      i < |w.sudogs| && out == if w.sudogs[i].peer.Some? then RecvDone(w.sudogs[i].val, true) else RecvDone(ZERO, false)
    case BufSendWait(c, _) => out == if ClosedBy(e.acts, n, c) then Panicked("send on closed channel") else Done
    case BufRecvWait(c) =>
      && c in w.logs
      && out == if Backlog(w, c) > 0 then RecvDone(w.logs[c].sent[|w.logs[c].taken|], true) else RecvDone(ZERO, false)
    case SelWait(sw, cases) => SelectResumeAnswer(e, n, sw, cases, out)
    case GroupWait(_) => out == Done
    case _ => false
  }

  lemma PlainResumeAnswers(e: Execution, n: nat, g: Gid)
    requires IsExecution(e) && n < |e.worlds| && NoDangling(e.worlds[n]) && Allowed(e.worlds[n], DoResume(g))
    requires !e.worlds[n].gs[g].wait.SelWait?
    ensures ResumeAnswer(e, n, g, Step(e.worlds[n], DoResume(g)).1)
  {
    RunsKeepInv(e, n);
    var w := e.worlds[n];
    assert KnownWait(w, g) && WaitOk(w, g);
    match w.gs[g].wait
    case SendWait(c, i) => DoneIffMet(w, g, c, i);
    case RecvWait(c, i) => DoneIffMet(w, g, c, i);
    case BufSendWait(c, _) => ChannelsAreAsMade(e, n, c);
    case BufRecvWait(c) => BufferIsBacklog(e, n, c);
    case _ =>
  }

  lemma RecvReadyAnswers(w: World, g: Gid, c: ChanId)
    requires g in w.gs && KnownChan(w, c) && CanRecv(w, c, None)
    ensures var out := RecvReady(w, g, c).1;
      out.RecvDone? && (out.ok <==> |w.chans[c].buf| > 0 || (w.chans[c].capacity == 0 && !w.chans[c].closed)) && (!out.ok ==> out.val == ZERO)
  {
  }

  lemma UnmetSelectAnswers(e: Execution, n: nat, g: Gid, sw: nat, cases: seq<Case>)
    requires IsExecution(e) && n < |e.worlds| && NoDangling(e.worlds[n]) && Allowed(e.worlds[n], DoResume(g))
    requires var w := e.worlds[n]; w.gs[g].wait == SelWait(sw, cases) && KnownWait(w, g) && !w.sels[sw].fired
    ensures exists k: nat :: EndsUnmet(e, n, sw, cases, k, Step(e.worlds[n], DoResume(g)).1)
  {
    var w := e.worlds[n];
    var w1, k := Withdrawn(w, g, sw), FirstReady(w, cases, Some(sw));
    FirstReadyIsLeast(e, n, cases, Some(sw));
    WithdrawnFirstReady(w, g, sw, cases);
    assert KnownCases(w1, cases);
    ReadyCaseFinishes(w1, g, cases, k);
    var c := cases[k].ch.value;
    ChannelsAreAsMade(e, n, c);
    BufferIsBacklog(e, n, c);
    if !cases[k].send {
      RecvReadyAnswers(w1, g, c);
    }
    assert EndsUnmet(e, n, sw, cases, k, Step(w, DoResume(g)).1);
  }

  /** In every reachable state, how a goroutine that may resume does: a met operation completes with what it
      was given; a send ended by a close panics, and a receive ended by one yields the zero value. */
  lemma ResumeAnswers(e: Execution, n: nat, g: Gid)
    requires IsExecution(e) && n < |e.worlds| && Allowed(e.worlds[n], DoResume(g))
    ensures NoDangling(e.worlds[n])
    ensures ResumeAnswer(e, n, g, Step(e.worlds[n], DoResume(g)).1)
  {
    RunsKeepInv(e, n);
    var w := e.worlds[n];
    assert KnownWait(w, g) && WaitOk(w, g);
    if w.gs[g].wait.SelWait? {
      FiredIffMet(w, g);
      if w.sels[w.gs[g].wait.sw].fired {
        MetSelectAnswers(w, g, w.gs[g].wait.sw, w.gs[g].wait.cases);
      } else {
        UnmetSelectAnswers(e, n, g, w.gs[g].wait.sw, w.gs[g].wait.cases);
      }
    } else {
      PlainResumeAnswers(e, n, g);
    }
  }

  lemma MetSelectAnswers(w: World, g: Gid, sw: nat, cases: seq<Case>)
    requires SelectsOk(w) && g in w.gs && KnownWait(w, g) && WaitOk(w, g) && w.gs[g].wait == SelWait(sw, cases) && w.sels[sw].fired
    ensures exists i: nat :: EndsMet(w, sw, i, Resume(w, g).1)
  {
    assert OwnSelect(w, g, sw, cases);
    var i := w.sels[sw].sg.value;
    assert w.sudogs[i].sel == Some(sw) && w.sudogs[i].done && w.sudogs[i].peer.Some?;
    assert OffersCase(w, g, w.sudogs[i], cases);
    assert EndsMet(w, sw, i, Resume(w, g).1);
  }

  /** A close wakes every goroutine that waits to send or receive on the channel, or in a select with a case
      on it. */
  lemma CloseWakes(e: Execution, n: nat, g: Gid, c: ChanId)
    requires IsExecution(e) && n < |e.worlds| && g in e.worlds[n].gs && ClosedBy(e.acts, n, c)
    requires match e.worlds[n].gs[g].wait
      case SendWait(d, _) => d == c
      case RecvWait(d, _) => d == c
      case BufSendWait(d, _) => d == c
      case BufRecvWait(d) => d == c
      case SelWait(_, cases) => exists k :: 0 <= k < |cases| && cases[k].ch == Some(c)
      case _ => false
    ensures Allowed(e.worlds[n], DoResume(g))
  {
    RunsKeepInv(e, n);
    MayResumeIff(e, n, g);
    ClosedWasMade(e.acts, n, c);
    ChannelsAreAsMade(e, n, c);
    assert KnownChan(e.worlds[n], c);
    if e.worlds[n].gs[g].wait.SelWait? {
      var cases := e.worlds[n].gs[g].wait.cases;
      var k :| 0 <= k < |cases| && cases[k].ch == Some(c);
      assert CaseProceeds(e, n, cases[k], Some(e.worlds[n].gs[g].wait.sw));
    }
  }

  lemma ClosedWasMade(acts: seq<Action>, n: nat, c: ChanId)
    requires n <= |acts| && ClosedBy(acts, n, c)
    ensures MadeWith(acts, n, c).Some?
  {
    var m :| 0 <= m < n && acts[m].DoClose? && acts[m].c == c && MadeWith(acts, m, c).Some?;
    MadeStays(acts, m, n, c);
  }

  // ------------------------------------------------------------------
  // Waiters are met in order

  /** Waiter j is met in going from w to w'. */
  predicate MetNow(w: World, w': World, j: nat) {
    j < |w.sudogs| && j < |w'.sudogs| && w.sudogs[j].peer.None? && w'.sudogs[j].peer.Some?
  }

  /** No waiter is met before an older one in the same direction on the same channel, leaving out the
      offers of select self. */
  ghost predicate EldersFirst(w: World, w': World, self: Option<nat>) {
    forall i: nat, j: nat :: MetNow(w, w', j) && i < j && On(w, i, w.sudogs[j].ch, w.sudogs[j].send) ==> !Counts(w, i, self)
  }

  lemma NobodyMet(w: World, w': World, self: Option<nat>)
    requires |w.sudogs| <= |w'.sudogs| && forall i: nat :: i < |w.sudogs| ==> w'.sudogs[i].peer == w.sudogs[i].peer
    ensures EldersFirst(w, w', self)
  {
  }

  lemma OneMet(w: World, w': World, c: ChanId, send: bool)
    requires QueuesOk(w) && LiveAreQueued(w) && c in w.chans && |w'.sudogs| == |w.sudogs|
    requires var q := QueueOf(w, c, send);
      var k := FirstLive(w, q);
      k < |q| && forall i: nat :: i < |w.sudogs| && i != q[k] ==> w'.sudogs[i].peer == w.sudogs[i].peer
    ensures EldersFirst(w, w', None)
  {
    var q := QueueOf(w, c, send);
    var j := q[FirstLive(w, q)];
    assert QueueOk(w, q, c, send);
    forall i: nat | i < j && On(w, i, c, send)
      ensures !Counts(w, i, None)
    {
      FirstLiveIsFirst(w, c, send, i);
    }
  }

  lemma SendElders(w: World, g: Gid, c: ChanId, val: Value)
    requires QueuesOk(w) && LiveAreQueued(w) && g in w.gs && (c in w.chans ==> KnownChan(w, c))
    ensures EldersFirst(w, Send(w, g, c, val).0, None)
  {
    var w' := Send(w, g, c, val).0;
    if c in w.chans && w.chans[c].capacity == 0 && !w.chans[c].closed && FirstLive(w, w.chans[c].recvq) < |w.chans[c].recvq| {
      OneMet(w, w', c, false);
    } else {
      NobodyMet(w, w', None);
    }
  }

  lemma RecvReadyElders(w: World, g: Gid, c: ChanId)
    requires QueuesOk(w) && LiveAreQueued(w) && g in w.gs && KnownChan(w, c)
    ensures EldersFirst(w, RecvReady(w, g, c).0, None)
  {
    var w', ch := RecvReady(w, g, c).0, w.chans[c];
    if |ch.buf| == 0 && ch.capacity == 0 && !ch.closed && FirstLive(w, ch.sendq) < |ch.sendq| {
      OneMet(w, w', c, true);
    } else {
      NobodyMet(w, w', None);
    }
  }

  lemma RecvElders(w: World, g: Gid, c: ChanId)
    requires QueuesOk(w) && LiveAreQueued(w) && g in w.gs && (c in w.chans ==> KnownChan(w, c))
    ensures EldersFirst(w, Recv(w, g, c).0, None)
  {
    var w' := Recv(w, g, c).0;
    if c in w.chans && w.chans[c].capacity == 0 && !w.chans[c].closed && FirstLive(w, w.chans[c].sendq) < |w.chans[c].sendq| {
      OneMet(w, w', c, true);
    } else if c in w.chans && !(w.chans[c].capacity == 0 && !w.chans[c].closed) && CanRecv(w, c, None) {
      RecvReadyElders(w, g, c);
    } else {
      NobodyMet(w, w', None);
    }
  }

  lemma CaseElders(w: World, g: Gid, cases: seq<Case>, k: nat)
    requires QueuesOk(w) && LiveAreQueued(w) && g in w.gs && k < |cases| && KnownCases(w, cases) && CaseReady(w, cases[k], None)
    ensures EldersFirst(w, SelectCase(w, g, cases, k).0, None)
  {
    if cases[k].send {
      SendElders(w, g, cases[k].ch.value, cases[k].val);
    } else {
      RecvReadyElders(w, g, cases[k].ch.value);
    }
  }

  lemma SelectElders(w: World, g: Gid, cases: seq<Case>, blocking: bool)
    requires QueuesOk(w) && LiveAreQueued(w) && g in w.gs && KnownCases(w, cases)
    ensures EldersFirst(w, Select(w, g, cases, blocking).0, None)
  {
    var k := FirstReady(w, cases, None);
    if k < |cases| {
      CaseElders(w, g, cases, k);
    } else {
      if blocking {
        OfferAllAppends(w.(sels := w.sels + [SelectWait(g, false, None)]), g, |w.sels|, cases, 0);
      }
      NobodyMet(w, Select(w, g, cases, blocking).0, None);
    }
  }

  lemma WithdrawnQueues(w: World, g: Gid, sw: nat)
    requires QueuesOk(w) && LiveAreQueued(w) && g in w.gs && sw < |w.sels| && !w.sels[sw].fired
    ensures QueuesOk(Withdrawn(w, g, sw)) && LiveAreQueued(Withdrawn(w, g, sw))
  {
    var w1 := Withdrawn(w, g, sw);
    forall i: nat | Live(w1, i)
      ensures Live(w, i)
    {
      WithdrawnLive(w, g, sw, i);
    }
    forall c | c in w1.chans
      ensures QueueOk(w1, w1.chans[c].recvq, c, false) && QueueOk(w1, w1.chans[c].sendq, c, true)
    {
      assert QueueOk(w, w.chans[c].recvq, c, false) && QueueOk(w, w.chans[c].sendq, c, true);
    }
  }

  lemma EldersAfterWithdrawal(w: World, g: Gid, sw: nat, w': World)
    requires g in w.gs && sw < |w.sels| && !w.sels[sw].fired && EldersFirst(Withdrawn(w, g, sw), w', None)
    ensures EldersFirst(w, w', Some(sw))
  {
    var w1 := Withdrawn(w, g, sw);
    forall i: nat, j: nat | MetNow(w, w', j) && i < j && On(w, i, w.sudogs[j].ch, w.sudogs[j].send)
      ensures !Counts(w, i, Some(sw))
    {
      WithdrawnLive(w, g, sw, i);
      assert MetNow(w1, w', j) && On(w1, i, w1.sudogs[j].ch, w1.sudogs[j].send);
      assert !Counts(w1, i, None);
    }
  }

  lemma UnmetResumeElders(w: World, g: Gid, sw: nat, cases: seq<Case>)
    requires QueuesOk(w) && LiveAreQueued(w) && g in w.gs && KnownWait(w, g) && Ready(w, g)
    requires w.gs[g].wait == SelWait(sw, cases) && !w.sels[sw].fired
    ensures EldersFirst(w, Resume(w, g).0, Some(sw))
  {
    var w1, w' := Withdrawn(w, g, sw), Resume(w, g).0;
    WithdrawnQueues(w, g, sw);
    WithdrawnFirstReady(w, g, sw, cases);
    assert KnownCases(w1, cases);
    CaseElders(w1, g, cases, FirstReady(w1, cases, None));
    EldersAfterWithdrawal(w, g, sw, w');
  }

  /** The select whose own offers goroutine a.g passes over: the one it waits in. */
  function OwnSelectOf(w: World, a: Action): Option<nat> {
    if a.DoResume? && a.g in w.gs && w.gs[a.g].wait.SelWait? then Some(w.gs[a.g].wait.sw) else None
  }

  lemma PlainResumeMeetsNobody(w: World, g: Gid)
    requires g in w.gs && KnownWait(w, g) && !w.gs[g].wait.BufRecvWait?
    requires w.gs[g].wait.SelWait? ==> w.sels[w.gs[g].wait.sw].fired
    ensures Resume(w, g).0.sudogs == w.sudogs
  {
  }

  lemma ResumeElders(w: World, g: Gid)
    requires Named(w) && QueuesOk(w) && LiveAreQueued(w) && g in w.gs && KnownWait(w, g) && WaitOk(w, g) && Ready(w, g)
    ensures EldersFirst(w, Resume(w, g).0, OwnSelectOf(w, DoResume(g)))
  {
    if w.gs[g].wait.SelWait? && !w.sels[w.gs[g].wait.sw].fired {
      UnmetResumeElders(w, g, w.gs[g].wait.sw, w.gs[g].wait.cases);
    } else if w.gs[g].wait.BufRecvWait? {
      assert Resume(w, g).0.sudogs == w.sudogs;
    } else {
      PlainResumeMeetsNobody(w, g);
    }
  }

  lemma QuietElders(w: World, a: Action, w': World)
    requires NoDangling(w) && Allowed(w, a) && w' == Step(w, a).0
    requires !a.DoSend? && !a.DoRecv? && !a.DoSelect? && !a.DoResume?
    ensures EldersFirst(w, w', None)
  {
    if OnMutex(a) {
      MutexStep(w, a);
      MutexLeavesWaiters(MakeSync(w, a.key), a);
    } else if a.DoGroupAdd? || a.DoGroupWait? {
      GroupIsQuiet(MakeSync(w, a.key), a.g, a.key, if a.DoGroupAdd? then a.delta else 0);
    }
    NobodyMet(w, w', None);
  }

  lemma ChannelElders(w: World, a: Action, w': World)
    requires QueuesOk(w) && LiveAreQueued(w) && NoDangling(w) && Allowed(w, a) && w' == Step(w, a).0
    requires a.DoSend? || a.DoRecv? || a.DoSelect?
    ensures EldersFirst(w, w', None)
  {
    if a.DoSend? {
      SendElders(w, a.g, a.c, a.val);
    } else if a.DoRecv? {
      RecvElders(w, a.g, a.c);
    } else {
      SelectElders(w, a.g, a.cases, a.blocking);
    }
  }

  lemma StepElders(w: World, a: Action, w': World)
    requires Inv(w) && NoDangling(w) && Allowed(w, a) && w' == Step(w, a).0
    ensures EldersFirst(w, w', OwnSelectOf(w, a))
  {
    if a.DoSend? || a.DoRecv? || a.DoSelect? {
      ChannelElders(w, a, w');
    } else if a.DoResume? {
      assert KnownWait(w, a.g) && WaitOk(w, a.g);
      ResumeElders(w, a.g);
    } else {
      QuietElders(w, a, w');
    }
  }

  lemma MeetsCounts(w: World, i: nat, c: ChanId, send: bool, self: Option<nat>)
    requires SelectsOk(w) && WaitsOk(w) && Meets(w, i, c, send, self)
    ensures On(w, i, c, send) && Counts(w, i, self)
  {
    UnmetIsLive(w, i);
  }

  lemma NoElder(w: World, w': World, self: Option<nat>, i: nat, j: nat)
    requires EldersFirst(w, w', self) && MetNow(w, w', j) && On(w, i, w.sudogs[j].ch, w.sudogs[j].send) && Counts(w, i, self)
    ensures j <= i
  {
  }

  /** In every run waiters are met in the order in which they began to wait: when a step meets one, none
      older in the same direction on the same channel could have been met instead. */
  lemma MetInOrder(e: Execution, m: nat, i: nat, j: nat)
    requires IsExecution(e) && m < |e.acts| && MetNow(e.worlds[m], e.worlds[m + 1], j)
    requires var w := e.worlds[m]; Meets(w, i, w.sudogs[j].ch, w.sudogs[j].send, OwnSelectOf(w, e.acts[m]))
    ensures j <= i
  {
    RunsKeepInv(e, m);
    var w, a := e.worlds[m], e.acts[m];
    assert Allowed(w, a) && e.worlds[m + 1] == Step(w, a).0;
    StepElders(w, a, e.worlds[m + 1]);
    MeetsCounts(w, i, w.sudogs[j].ch, w.sudogs[j].send, OwnSelectOf(w, a));
    NoElder(w, e.worlds[m + 1], OwnSelectOf(w, a), i, j);
  }
}
