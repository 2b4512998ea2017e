/** What the interpreted program sees: selects complete with one case, and every value a receive
    returns was sent once and is returned once. */
module RuntimeDelivery {
  import opened Clock
  import opened ClockMachine
  import opened Detector
  import opened Runtime
  import opened RuntimeInvariant
  import opened RuntimeRuns
  import opened RuntimeTheorems
  import opened RuntimeMade

  // ------------------------------------------------------------------
  // Select

  /** Withdrawing select sw's offers leaves exactly the waiters that were not its own. */
  function Withdrawn(w: World, g: Gid, sw: nat): World
    requires g in w.gs && sw < |w.sels|
  {
    SetWait(w, g, NoWait).(sels := w.sels[sw := w.sels[sw].(fired := true)])
  }

  lemma WithdrawnLive(w: World, g: Gid, sw: nat, i: nat)
    requires g in w.gs && sw < |w.sels| && !w.sels[sw].fired
    ensures Live(Withdrawn(w, g, sw), i) <==> Counts(w, i, Some(sw))
  {
  }

  lemma WithdrawnReady(w: World, g: Gid, sw: nat, cs: Case)
    requires g in w.gs && sw < |w.sels| && !w.sels[sw].fired
    ensures CaseReady(Withdrawn(w, g, sw), cs, None) <==> CaseReady(w, cs, Some(sw))
  {
    var w1 := Withdrawn(w, g, sw);
    forall i: nat
      ensures Counts(w1, i, None) <==> Counts(w, i, Some(sw))
    {
      WithdrawnLive(w, g, sw, i);
    }
    if cs.ch.Some? && cs.ch.value in w.chans {
      var ch := w.chans[cs.ch.value];
      assert HasLive(w1, ch.recvq, None) <==> HasLive(w, ch.recvq, Some(sw));
      assert HasLive(w1, ch.sendq, None) <==> HasLive(w, ch.sendq, Some(sw));
    }
  }

  lemma WithdrawnFirstReady(w: World, g: Gid, sw: nat, cases: seq<Case>)
    requires g in w.gs && sw < |w.sels| && !w.sels[sw].fired
    ensures FirstReady(Withdrawn(w, g, sw), cases, None) == FirstReady(w, cases, Some(sw))
  {
    forall cs: Case
      ensures CaseReady(Withdrawn(w, g, sw), cs, None) <==> CaseReady(w, cs, Some(sw))
    {
      WithdrawnReady(w, g, sw, cs);
    }
  }

  /** A select finished with case k: a value moved, or it panics sending on a closed channel. */
  predicate FinishedWith(w: World, cases: seq<Case>, k: nat, out: Outcome)
  {
    && k < |cases| && cases[k].ch.Some? && cases[k].ch.value in w.chans
    && if cases[k].send && w.chans[cases[k].ch.value].closed then out == Panicked("send on closed channel")
       else out.SelectDone? && out.idx == k && (cases[k].send ==> !out.ok)
  }

  /** A ready case never waits. */
  lemma ReadyCaseFinishes(w: World, g: Gid, cases: seq<Case>, k: nat)
    requires g in w.gs && k < |cases| && KnownCases(w, cases) && CaseReady(w, cases[k], None)
    ensures FinishedWith(w, cases, k, SelectCase(w, g, cases, k).1)
  {
    var c := cases[k].ch.value;
    if cases[k].send && w.chans[c].capacity == 0 && !w.chans[c].closed {
      assert HasLive(w, w.chans[c].recvq, None);
    }
  }

  /** A resumed select always finishes: either with the case its counterpart completed, or with the
      first case that is ready without its own offers; the latter is the first in source order. */
  lemma ResumedSelectFinishes(w: World, g: Gid, sw: nat, cases: seq<Case>)
    requires Inv(w) && NoDangling(w) && g in w.gs && w.gs[g].wait == SelWait(sw, cases) && Ready(w, g)
    ensures var out := Resume(w, g).1;
      if w.sels[sw].fired then
        var i := w.sels[sw].sg.value;
        && out.SelectDone? && out.idx == w.sudogs[i].caseIdx < |cases|
        && cases[out.idx].ch == Some(w.sudogs[i].ch) && cases[out.idx].send == w.sudogs[i].send
        && w.sudogs[i].gid == g && (out.ok <==> !w.sudogs[i].send)
      else FinishedWith(w, cases, FirstReady(w, cases, Some(sw)), out)
  {
    assert KnownWait(w, g) && WaitOk(w, g);
    if w.sels[sw].fired {
      var i := w.sels[sw].sg.value;
      assert w.sudogs[i].sel == Some(sw);
    } else {
      var w1 := Withdrawn(w, g, sw);
      WithdrawnFirstReady(w, g, sw, cases);
      assert KnownCases(w1, cases);
      ReadyCaseFinishes(w1, g, cases, FirstReady(w1, cases, None));
    }
  }

  /** In every reachable state, of the cases a select offered at most one has met a counterpart, and
      it is the one the select will return. */
  lemma OneCasePerSelect(e: Execution, n: nat, i: nat, j: nat)
    requires IsExecution(e) && n < |e.worlds| && i < |e.worlds[n].sudogs| && j < |e.worlds[n].sudogs|
    requires var w := e.worlds[n];
      && w.sudogs[i].sel.Some? && w.sudogs[i].sel == w.sudogs[j].sel
      && w.sudogs[i].peer.Some? && w.sudogs[j].peer.Some?
    ensures i == j
    ensures var w := e.worlds[n]; w.sudogs[i].sel.value < |w.sels| && w.sels[w.sudogs[i].sel.value].sg == Some(i)
  {
    RunsKeepInv(e, n);
    assert SelectsOk(e.worlds[n]);
  }

  /** Nothing happens on channels other than c. */
  ghost predicate OnlyOn(w: World, w': World, c: ChanId) {
    && (forall d :: d in w.chans && d != c ==> d in w'.chans && w'.chans[d] == w.chans[d])
    && (forall d :: d in w.logs && d != c ==> d in w'.logs && w'.logs[d] == w.logs[d])
  }

  lemma CaseMovesOneChannel(w: World, g: Gid, cases: seq<Case>, k: nat)
    requires g in w.gs && k < |cases| && KnownCases(w, cases) && cases[k].ch.Some? && cases[k].ch.value in w.chans
    ensures OnlyOn(w, SelectCase(w, g, cases, k).0, cases[k].ch.value)
  {
  }

  /** Of a resumed select's cases only the one it finishes with takes effect: no other channel's
      buffer, queues or history change. */
  lemma ResumedSelectMovesOneChannel(w: World, g: Gid, sw: nat, cases: seq<Case>)
    requires SelectsOk(w) && g in w.gs && KnownWait(w, g) && WaitOk(w, g) && w.gs[g].wait == SelWait(sw, cases)
    requires Resume(w, g).1.SelectDone?
    ensures var (w', out) := Resume(w, g); out.idx < |cases| && cases[out.idx].ch.Some? && OnlyOn(w, w', cases[out.idx].ch.value)
  {
    if w.sels[sw].fired {
      var i := w.sels[sw].sg.value;
      assert w.sudogs[i].sel == Some(sw);
      assert OffersCase(w, g, w.sudogs[i], cases);
    } else {
      var w1 := Withdrawn(w, g, sw);
      assert KnownCases(w1, cases);
      var k := FirstReady(w1, cases, None);
      CaseMovesOneChannel(w1, g, cases, k);
    }
  }

  // ------------------------------------------------------------------
  // Receipts

  /** s' is s, with one entry for v added if there is a v. */
  predicate Appended(s: seq<(nat, Value)>, s': seq<(nat, Value)>, v: Option<Value>) {
    if v.Some? then |s'| == |s| + 1 && s'[..|s|] == s && s'[|s|].1 == v.value else s' == s
  }

  function For(got: Option<(ChanId, Value)>, c: ChanId): Option<Value> {
    if got.Some? && got.value.0 == c then Some(got.value.1) else None
  }

  /** The channels' taken entries grow by exactly the receive that got; a new channel has none. */
  ghost predicate Takes(w: World, w': World, got: Option<(ChanId, Value)>) {
    && (forall c :: c in w.chans && c in w.logs ==>
          c in w'.chans && c in w'.logs && Appended(w.logs[c].taken, w'.logs[c].taken, For(got, c)))
    && (forall c :: c in w'.chans && c !in w.chans ==> c in w'.logs && w'.logs[c].taken == [])
  }

  /** The value an outcome of a receive on c returns with ok. */
  function GotBy(c: ChanId, out: Outcome): Option<(ChanId, Value)> {
    if (out.RecvDone? || out.SelectDone?) && out.ok then Some((c, out.val)) else None
  }

  function GotBySelect(cases: seq<Case>, out: Outcome): Option<(ChanId, Value)> {
    if out.SelectDone? && out.idx < |cases| && cases[out.idx].ch.Some? then GotBy(cases[out.idx].ch.value, out)
    else None
  }

  /** What the program received in this step, and from where. */
  function Got(w: World, a: Action, out: Outcome): Option<(ChanId, Value)> {
    match a
    case DoRecv(g, c) => if c in w.chans then GotBy(c, out) else None
    case DoSelect(g, cases, _) => GotBySelect(cases, out)
    case DoResume(g) =>
      if g !in w.gs then None else (
        match w.gs[g].wait
        case RecvWait(c, _) => GotBy(c, out)
        case BufRecvWait(c) => GotBy(c, out)
        case SelWait(_, cases) => GotBySelect(cases, out)
        case _ => None)
    case _ => None
  }

  lemma SameTaken(w: World, w': World)
    requires w'.logs == w.logs && w'.chans.Keys == w.chans.Keys
    ensures Takes(w, w', None)
  {
  }

  lemma SendTakesNothing(w: World, g: Gid, c: ChanId, val: Value)
    requires g in w.gs && (c in w.chans ==> KnownChan(w, c))
    ensures Takes(w, Send(w, g, c, val).0, None)
  {
  }

  lemma RecvReadyTakes(w: World, g: Gid, c: ChanId)
    requires g in w.gs && KnownChan(w, c)
    ensures var (w', out) := RecvReady(w, g, c); Takes(w, w', GotBy(c, out))
  {
  }

  lemma RecvTakes(w: World, g: Gid, c: ChanId)
    requires g in w.gs && KnownChan(w, c)
    ensures var (w', out) := Recv(w, g, c); Takes(w, w', GotBy(c, out))
  {
    var ch := w.chans[c];
    if !(ch.capacity == 0 && !ch.closed) && CanRecv(w, c, None) {
      RecvReadyTakes(w, g, c);
    }
  }

  lemma SelectCaseTakes(w: World, g: Gid, cases: seq<Case>, k: nat)
    requires g in w.gs && k < |cases| && KnownCases(w, cases) && CaseReady(w, cases[k], None)
    ensures var (w', out) := SelectCase(w, g, cases, k); Takes(w, w', GotBySelect(cases, out))
  {
    var c := cases[k].ch.value;
    ReadyCaseFinishes(w, g, cases, k);
    if cases[k].send {
      SendTakesNothing(w, g, c, cases[k].val);
    } else {
      RecvReadyTakes(w, g, c);
    }
  }

  lemma {:induction false} OfferAllKeepsLogs(w: World, g: Gid, sw: nat, cases: seq<Case>, j: nat)
    requires g in w.gs && j <= |cases|
    ensures var w' := OfferAll(w, g, sw, cases, j); w'.logs == w.logs && w'.chans.Keys == w.chans.Keys
    decreases |cases| - j
  {
    if j < |cases| {
      if Offered(w, cases[j]) {
        OfferAllKeepsLogs(Offer(w, g, cases[j].ch.value, cases[j].send, cases[j].val, Some(sw), j), g, sw, cases, j + 1);
      } else {
        OfferAllKeepsLogs(w, g, sw, cases, j + 1);
      }
    }
  }

  lemma SelectTakes(w: World, g: Gid, cases: seq<Case>, blocking: bool)
    requires g in w.gs && KnownCases(w, cases)
    ensures var (w', out) := Select(w, g, cases, blocking); Takes(w, w', GotBySelect(cases, out))
  {
    var k := FirstReady(w, cases, None);
    if k < |cases| {
      SelectCaseTakes(w, g, cases, k);
    } else if blocking {
      OfferAllKeepsLogs(w.(sels := w.sels + [SelectWait(g, false, None)]), g, |w.sels|, cases, 0);
    }
  }

  lemma DeliverTakes(w: World, w1: World, c: ChanId, i: nat)
    requires c in w.chans && c in w.logs && i < |w.sudogs| && i in w.logs[c].pending
    requires w1.logs == w.logs && w1.chans == w.chans && w1.sudogs == w.sudogs
    ensures Takes(w, Deliver(w1, c, i), Some((c, w.sudogs[i].val)))
  {
  }

  lemma FiredResumeTakes(w: World, g: Gid, sw: nat, cases: seq<Case>)
    requires g in w.gs && KnownWait(w, g) && w.gs[g].wait == SelWait(sw, cases) && w.sels[sw].fired
    requires var i := w.sels[sw].sg.value; var s := w.sudogs[i];
      && OffersCase(w, g, s, cases) && (!s.send ==> i in w.logs[s.ch].pending)
    ensures var (w', out) := Resume(w, g); Takes(w, w', GotBySelect(cases, out))
  {
    var i := w.sels[sw].sg.value;
    var w1 := TickNow(Collect(SetWait(w, g, NoWait), g, i), g);
    if w.sudogs[i].send {
      SameTaken(w, w1);
    } else {
      DeliverTakes(w, w1, w.sudogs[i].ch, i);
    }
  }

  lemma UnfiredResumeTakes(w: World, g: Gid, sw: nat, cases: seq<Case>)
    requires g in w.gs && KnownWait(w, g) && w.gs[g].wait == SelWait(sw, cases) && !w.sels[sw].fired
    requires FirstReady(w, cases, Some(sw)) < |cases|
    ensures var (w', out) := Resume(w, g); Takes(w, w', GotBySelect(cases, out))
  {
    var w1 := Withdrawn(w, g, sw);
    WithdrawnFirstReady(w, g, sw, cases);
    assert KnownCases(w1, cases);
    SelectCaseTakes(w1, g, cases, FirstReady(w1, cases, None));
  }

  lemma SelectResumeTakes(w: World, g: Gid)
    requires SelectsOk(w) && g in w.gs && KnownWait(w, g) && WaitOk(w, g) && w.gs[g].wait.SelWait? && Ready(w, g)
    ensures var (w', out) := Resume(w, g); Takes(w, w', Got(w, DoResume(g), out))
  {
    var sw, cases := w.gs[g].wait.sw, w.gs[g].wait.cases;
    if w.sels[sw].fired {
      var i := w.sels[sw].sg.value;
      assert w.sudogs[i].sel == Some(sw);
      FiredResumeTakes(w, g, sw, cases);
    } else {
      UnfiredResumeTakes(w, g, sw, cases);
    }
  }

  lemma RecvResumeTakes(w: World, g: Gid)
    requires g in w.gs && KnownWait(w, g) && WaitOk(w, g) && w.gs[g].wait.RecvWait?
    ensures var (w', out) := Resume(w, g); Takes(w, w', Got(w, DoResume(g), out))
  {
    var w0, c, i := SetWait(w, g, NoWait), w.gs[g].wait.ch, w.gs[g].wait.sd;
    if w.sudogs[i].done {
      DeliverTakes(w, TickNow(Collect(w0, g, i), g), c, i);
    } else {
      SameTaken(w, RecvClosed(w0, g, c).0);
    }
  }

  lemma ResumeTakes(w: World, g: Gid)
    requires SelectsOk(w) && g in w.gs && KnownWait(w, g) && WaitOk(w, g) && Ready(w, g)
    ensures var (w', out) := Resume(w, g); Takes(w, w', Got(w, DoResume(g), out))
  {
    if w.gs[g].wait.SelWait? {
      SelectResumeTakes(w, g);
    } else if w.gs[g].wait.RecvWait? {
      RecvResumeTakes(w, g);
    } else if w.gs[g].wait.BufRecvWait? {
      var w0, c := SetWait(w, g, NoWait), w.gs[g].wait.ch;
      assert KnownChan(w0, c);
      RecvReadyTakes(w0, g, c);
    } else if w.gs[g].wait.BufSendWait? {
    } else {
      SameTaken(w, Resume(w, g).0);
    }
  }

  lemma AbortTakesNothing(w: World, g: Gid)
    requires g in w.gs && KnownWait(w, g)
    ensures Takes(w, Abort(w, g), None)
  {
  }

  lemma MutexKeepsLogs(w: World, a: Action)
    requires OnMutex(a) && a.g in w.gs && a.key in w.syncs
    ensures AfterMutex(w, a).logs == w.logs && AfterMutex(w, a).chans == w.chans
  {
  }

  lemma GroupKeepsLogs(w: World, g: Gid, key: int, delta: int)
    requires g in w.gs && key in w.syncs
    ensures Takes(w, GroupAdd(w, g, key, delta), None) && Takes(w, GroupWaitFor(w, g, key).0, None)
  {
    SameTaken(w, GroupAdd(w, g, key, delta));
    SameTaken(w, GroupWaitFor(w, g, key).0);
  }

  lemma ChannelStepTakes(w: World, a: Action, w': World, out: Outcome)
    requires NoDangling(w) && Allowed(w, a) && (w', out) == Step(w, a)
    requires a.DoSend? || a.DoRecv? || a.DoSelect? || a.DoClose? || a.DoMakeChan?
    ensures Takes(w, w', Got(w, a, out))
  {
    if a.DoSend? {
      SendTakesNothing(w, a.g, a.c, a.val);
    } else if a.DoRecv? {
      if a.c in w.chans {
        RecvTakes(w, a.g, a.c);
      }
    } else if a.DoSelect? {
      SelectTakes(w, a.g, a.cases, a.blocking);
    }
  }

  lemma MutexStepTakesNothing(w: World, a: Action)
    requires OnMutex(a) && a.g in w.gs
    ensures Takes(w, AfterMutex(MakeSync(w, a.key), a), None)
  {
    MutexKeepsLogs(MakeSync(w, a.key), a);
    SameTaken(w, AfterMutex(MakeSync(w, a.key), a));
  }

  lemma GroupStepTakesNothing(w: World, a: Action, w': World)
    requires NoDangling(w) && Allowed(w, a) && w' == Step(w, a).0
    requires a.DoGroupAdd? || a.DoGroupWait?
    ensures Takes(w, w', None)
  {
    var w1 := MakeSync(w, a.key);
    assert Takes(w1, w', None) by {
      GroupKeepsLogs(w1, a.g, a.key, if a.DoGroupAdd? then a.delta else 0);
    }
  }

  /** In every step the taken entries grow by exactly what the program received in it. */
  lemma StepTakes(w: World, a: Action, w': World, out: Outcome)
    requires Inv(w) && NoDangling(w) && Allowed(w, a) && (w', out) == Step(w, a)
    ensures Takes(w, w', Got(w, a, out))
  {
    if a.DoSend? || a.DoRecv? || a.DoSelect? || a.DoClose? || a.DoMakeChan? {
      ChannelStepTakes(w, a, w', out);
    } else if a.DoResume? {
      assert KnownWait(w, a.g) && WaitOk(w, a.g);
      ResumeTakes(w, a.g);
    } else if a.DoAbort? {
      AbortTakesNothing(w, a.g);
    } else if a.DoStart? || a.DoGo? || a.DoAccess? {
      SameTaken(w, w');
    } else if a.DoGroupAdd? || a.DoGroupWait? {
      GroupStepTakesNothing(w, a, w');
    } else {
      MutexStep(w, a);
      MutexStepTakesNothing(w, a);
    }
  }

  /** The values the program has received with ok from channel c in the first n steps, in order. */
  ghost function Receipts(e: Execution, n: nat, c: ChanId): seq<Value>
    requires IsExecution(e) && n < |e.worlds|
  {
    if n == 0 then []
    else
      var w, a := e.worlds[n - 1], e.acts[n - 1];
      var v := For(Got(w, a, Step(w, a).1), c);
      Receipts(e, n - 1, c) + (if v.Some? && c in w.chans then [v.value] else [])
  }

  lemma ReceivedGrows(s: seq<(nat, Value)>, s': seq<(nat, Value)>, v: Option<Value>)
    requires Appended(s, s', v)
    ensures Received(s') == Received(s) + (if v.Some? then [v.value] else [])
  {
    forall k | 0 <= k < |s|
      ensures Received(s')[k] == Received(s)[k]
    {
      assert s'[k] == s'[..|s|][k];
    }
  }

  lemma StepOfRunTakes(e: Execution, m: nat)
    requires IsExecution(e) && m < |e.acts|
    ensures Takes(e.worlds[m], e.worlds[m + 1], Got(e.worlds[m], e.acts[m], Step(e.worlds[m], e.acts[m]).1))
  {
    RunsKeepInv(e, m);
    StepTakes(e.worlds[m], e.acts[m], e.worlds[m + 1], Step(e.worlds[m], e.acts[m]).1);
  }

  /** In every run, what the program received from channel c is, in order, the log's taken entries. */
  lemma {:induction false} ReceiptsAreTaken(e: Execution, n: nat, c: ChanId)
    requires IsExecution(e) && n < |e.worlds|
    ensures if c in e.worlds[n].chans
            then c in e.worlds[n].logs && Receipts(e, n, c) == Received(e.worlds[n].logs[c].taken)
            else Receipts(e, n, c) == []
  {
    if n > 0 {
      var m := n - 1;
      ReceiptsAreTaken(e, m, c);
      StepOfRunTakes(e, m);
      var w, a, w' := e.worlds[m], e.acts[m], e.worlds[n];
      if c in w.chans {
        ReceivedGrows(w.logs[c].taken, w'.logs[c].taken, For(Got(w, a, Step(w, a).1), c));
      }
    }
  }

  /** slots gives each received value the position of a send of that value, no two the same. */
  predicate DistinctSends(received: seq<Value>, sent: seq<Value>, slots: seq<nat>) {
    && |slots| == |received|
    && (forall k :: 0 <= k < |slots| ==> slots[k] < |sent| && received[k] == sent[slots[k]])
    && (forall j, k :: 0 <= j < k < |slots| ==> slots[j] != slots[k])
  }

  /** In every run, the values the program received from a channel are values of distinct sends:
      nothing is received that was not sent, and nothing is received twice. */
  lemma EachReceiptIsItsOwnSend(e: Execution, n: nat, c: ChanId)
    requires IsExecution(e) && n < |e.worlds| && c in e.worlds[n].chans
    ensures c in e.worlds[n].logs
    ensures exists slots :: DistinctSends(Receipts(e, n, c), e.worlds[n].logs[c].sent, slots)
  {
    ReceiptsAreTaken(e, n, c);
    var log := e.worlds[n].logs[c];
    var slots := seq(|log.taken|, k requires 0 <= k < |log.taken| => log.taken[k].0);
    forall j, k | 0 <= j < |slots| && 0 <= k < |slots|
      ensures slots[k] < |log.sent| && log.taken[k].1 == log.sent[slots[k]] && (j != k ==> slots[j] != slots[k])
    {
      ReceivesMatchDistinctSends(e, n, c, j, k);
    }
    assert DistinctSends(Receipts(e, n, c), log.sent, slots);
  }

  /** A buffered channel is first in, first out, and loses nothing: what was sent is what the
      program received followed by what the buffer holds. */
  lemma BufferedReceiptsAreFifo(e: Execution, n: nat, c: ChanId)
    requires IsExecution(e) && n < |e.worlds| && MadeWith(e.acts, n, c).Some? && MadeWith(e.acts, n, c).value > 0
    ensures c in e.worlds[n].chans && c in e.worlds[n].logs
    ensures |e.worlds[n].chans[c].buf| <= MadeWith(e.acts, n, c).value
    ensures e.worlds[n].logs[c].sent == Receipts(e, n, c) + Values(e.worlds[n].chans[c].buf)
  {
    ReceiptsAreTaken(e, n, c);
    SentIsReceivedThenBuffered(e, n, c);
  }
}
