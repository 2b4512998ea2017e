/** No event is spurious: every release and acquire that a run records belongs to a step that did the
    operation it stands for. Together with the edges owed, the recorded edges are exactly those of the
    operations. */
module RuntimeEvents {
  import opened Clock
  import opened ClockMachine
  import opened HappensBefore
  import opened Detector
  import opened Runtime
  import opened RuntimeInvariant
  import opened RuntimeRuns
  import opened RuntimeHistory
  import opened RuntimeRaces
  import opened RuntimeDelivery
  import opened RuntimeEdges
  import opened RuntimeSync

  // ------------------------------------------------------------------
  // What one event stands for

  /** Waiting operation i is completed. */
  predicate Answered(w: World, w': World, i: nat) {
    i < |w.sudogs| && i < |w'.sudogs| && w.sudogs[i].peer.None? && w'.sudogs[i].peer.Some?
  }

  /** The k-th value is sent on buffered channel c. */
  predicate SentKth(w: World, w': World, c: ChanId, k: nat) {
    && c in w.chans && c in w.logs && c in w'.logs && w.chans[c].capacity > 0
    && |w.logs[c].sent| == k < |w'.logs[c].sent|
  }

  /** The k-th value of buffered channel c is received. */
  predicate TookKth(w: World, w': World, c: ChanId, k: nat) {
    && c in w.chans && c in w.logs && c in w'.logs && w.chans[c].capacity > 0
    && |w.logs[c].taken| == k < |w'.logs[c].taken|
  }

  predicate ClosedNow(w: World, w': World, c: ChanId) {
    c in w.chans && c in w'.chans && !w.chans[c].closed && w'.chans[c].closed
  }

  /** Going from w to w' did what event op stands for on a channel. */
  predicate Moved(w: World, w': World, op: Op) {
    match op
    case Release(g, OfferOf(i)) => |w.sudogs| <= i < |w'.sudogs| && w'.sudogs[i].gid == g
    case Release(_, ReplyOf(i)) => Answered(w, w', i)
    case Release(_, SendOf(c, k)) => SentKth(w, w', c, k)
    case Release(_, RecvOf(c, k)) => TookKth(w, w', c, k)
    case Release(_, CloseOf(c)) => ClosedNow(w, w', c)
    case Acquire(_, OfferOf(i)) => Answered(w, w', i)
    case Acquire(_, SendOf(c, k)) => TookKth(w, w', c, k)
    case Acquire(_, RecvOf(c, k)) => c in w.chans && SentKth(w, w', c, k + w.chans[c].capacity)
    case _ => false
  }

  /** Every new event is g's, and stands for a move on a channel or is one of extra. */
  ghost predicate Explained(w: World, w': World, g: Gid, extra: set<Op>) {
    && w.trace <= w'.trace
    && forall k :: |w.trace| <= k < |w'.trace| ==>
         w'.trace[k].g == g && (Moved(w, w', w'.trace[k]) || w'.trace[k] in extra)
  }

  predicate SameMoves(w: World, w1: World) {
    w1.trace == w.trace && w1.logs == w.logs && w1.chans == w.chans && w1.sudogs == w.sudogs
  }

  lemma ExplainedAfter(w: World, w1: World, w2: World, g: Gid, extra: set<Op>)
    requires SameMoves(w, w1) && Explained(w1, w2, g, extra)
    ensures Explained(w, w2, g, extra)
  {
    assert forall op :: Moved(w1, w2, op) ==> Moved(w, w2, op);
  }

  lemma ExplainedThen(w: World, w1: World, w2: World, g: Gid, extra: set<Op>)
    requires Explained(w, w1, g, extra) && SameMoves(w1, w2)
    ensures Explained(w, w2, g, extra)
  {
    assert forall op :: Moved(w, w1, op) ==> Moved(w, w2, op);
  }

  lemma MoreExtra(w: World, w': World, g: Gid, extra: set<Op>)
    requires Explained(w, w', g, {})
    ensures Explained(w, w', g, extra)
  {
  }

  // ------------------------------------------------------------------
  // Channel operations

  lemma OfferExplained(w: World, g: Gid, c: ChanId, send: bool, val: Value, sel: Option<nat>, caseIdx: nat)
    requires g in w.gs && c in w.chans
    ensures Explained(w, Offer(w, g, c, send, val, sel, caseIdx), g, {})
  {
  }

  lemma MeetExplained(w: World, w0: World, g: Gid, i: nat)
    requires g in w.gs && i < |w.sudogs| == |w0.sudogs| && w.trace == w0.trace && w0.sudogs[i].peer.None?
    ensures Explained(w0, Meet(w, g, i), g, {})
  {
    var w' := Meet(w, g, i);
    assert w'.trace == w.trace + [Acquire(g, OfferOf(i)), Release(g, ReplyOf(i))];
    assert Answered(w0, w', i);
  }

  lemma LiveIsUnanswered(w: World, i: nat)
    requires SelectsOk(w) && Live(w, i)
    ensures w.sudogs[i].peer.None?
  {
  }

  lemma GiveToExplained(w: World, g: Gid, c: ChanId, k: nat, val: Value)
    requires SelectsOk(w) && g in w.gs && KnownChan(w, c) && k < |w.chans[c].recvq| && Live(w, w.chans[c].recvq[k])
    ensures Explained(w, GiveTo(w, g, c, k, val), g, {})
  {
    var ch, log := w.chans[c], w.logs[c];
    var i := ch.recvq[k];
    var w1 := w.(chans := w.chans[c := ch.(recvq := ch.recvq[k + 1..])],
                 sudogs := w.sudogs[i := w.sudogs[i].(val := val)],
                 logs := w.logs[c := log.(sent := log.sent + [val], pending := log.pending[i := |log.sent|])]);
    LiveIsUnanswered(w, i);
    MeetExplained(w1, w, g, i);
  }

  lemma TakeFromExplained(w: World, g: Gid, c: ChanId, k: nat)
    requires SelectsOk(w) && g in w.gs && KnownChan(w, c) && k < |w.chans[c].sendq| && Live(w, w.chans[c].sendq[k])
    ensures Explained(w, TakeFrom(w, g, c, k), g, {})
  {
    var ch, log := w.chans[c], w.logs[c];
    var i := ch.sendq[k];
    var val := w.sudogs[i].val;
    var w1 := w.(chans := w.chans[c := ch.(sendq := ch.sendq[k + 1..])],
                 logs := w.logs[c := log.(sent := log.sent + [val], taken := log.taken + [(|log.sent|, val)])]);
    LiveIsUnanswered(w, i);
    MeetExplained(w1, w, g, i);
  }

  lemma SentCounted(w: World, c: ChanId)
    requires Named(w) && c in w.chans && w.chans[c].capacity > 0
    ensures c in w.logs && w.chans[c].nsent == |w.logs[c].sent|
  {
    assert ChanNamed(Pub(w), c, w.chans[c], w.logs[c]);
  }

  lemma BufPutExplained(w: World, g: Gid, c: ChanId, val: Value)
    requires g in w.gs && KnownChan(w, c) && w.chans[c].capacity > 0 && w.chans[c].nsent == |w.logs[c].sent|
    ensures Explained(w, BufPut(w, g, c, val), g, {})
  {
    var w', ch := BufPut(w, g, c, val), w.chans[c];
    assert SentKth(w, w', c, ch.nsent);
    assert w'.trace == w.trace + (if SlotFreed(ch) then [Acquire(g, RecvOf(c, ch.nsent - ch.capacity))] else [])
                       + [Release(g, SendOf(c, ch.nsent))];
  }

  lemma BufTakeExplained(w: World, g: Gid, c: ChanId)
    requires g in w.gs && KnownChan(w, c) && |w.chans[c].buf| > 0 && w.chans[c].capacity > 0
    ensures Explained(w, BufTake(w, g, c), g, {})
  {
    var w', k := BufTake(w, g, c), |w.logs[c].taken|;
    assert TookKth(w, w', c, k);
    assert w'.trace == w.trace + [Acquire(g, SendOf(c, k)), Release(g, RecvOf(c, k))];
  }

  lemma BufferedHasCapacity(w: World, c: ChanId)
    requires Named(w) && c in w.chans && |w.chans[c].buf| > 0
    ensures w.chans[c].capacity > 0
  {
    assert c in w.logs && ChanNamed(Pub(w), c, w.chans[c], w.logs[c]);
  }

  lemma SendReadyExplained(w: World, g: Gid, c: ChanId, val: Value)
    requires Named(w) && g in w.gs && KnownChan(w, c) && (w.chans[c].closed || w.chans[c].capacity > 0)
    ensures Explained(w, SendReady(w, g, c, val).0, g, {})
  {
    if !w.chans[c].closed {
      SentCounted(w, c);
      BufPutExplained(w, g, c, val);
    }
  }

  lemma SendExplained(w: World, g: Gid, c: ChanId, val: Value)
    requires Named(w) && SelectsOk(w) && g in w.gs && (c in w.chans ==> KnownChan(w, c))
    ensures Explained(w, Send(w, g, c, val).0, g, {})
  {
    if c in w.chans {
      var ch := w.chans[c];
      if ch.capacity > 0 || ch.closed {
        if CanSend(w, c, None) {
          SendReadyExplained(w, g, c, val);
        }
      } else if FirstLive(w, ch.recvq) < |ch.recvq| {
        GiveToExplained(w, g, c, FirstLive(w, ch.recvq), val);
      } else {
        var w1 := Offer(w, g, c, true, val, None, 0);
        OfferExplained(w, g, c, true, val, None, 0);
        ExplainedThen(w, w1, SetWait(w1, g, SendWait(c, |w.sudogs|)), g, {});
      }
    }
  }

  /** A receive that ends because the channel is closed merges the close. */
  function CloseMerge(g: Gid, from: Option<ChanId>): set<Op> {
    if from.Some? then {Acquire(g, CloseOf(from.value))} else {}
  }

  lemma RecvReadyExplained(w: World, g: Gid, c: ChanId)
    requires Named(w) && SelectsOk(w) && g in w.gs && KnownChan(w, c)
    ensures var (w', out) := RecvReady(w, g, c); Explained(w, w', g, CloseMerge(g, EmptyOn(c, out)))
  {
    var ch := w.chans[c];
    if |ch.buf| > 0 {
      BufferedHasCapacity(w, c);
      BufTakeExplained(w, g, c);
    } else if ch.capacity == 0 && !ch.closed && FirstLive(w, ch.sendq) < |ch.sendq| {
      TakeFromExplained(w, g, c, FirstLive(w, ch.sendq));
    }
  }

  lemma RecvExplained(w: World, g: Gid, c: ChanId)
    requires Named(w) && SelectsOk(w) && g in w.gs && KnownChan(w, c)
    ensures var (w', out) := Recv(w, g, c); Explained(w, w', g, CloseMerge(g, EmptyOn(c, out)))
  {
    var ch := w.chans[c];
    if ch.capacity == 0 && !ch.closed {
      if FirstLive(w, ch.sendq) < |ch.sendq| {
        TakeFromExplained(w, g, c, FirstLive(w, ch.sendq));
      } else {
        var w1 := Offer(w, g, c, false, ZERO, None, 0);
        OfferExplained(w, g, c, false, ZERO, None, 0);
        ExplainedThen(w, w1, SetWait(w1, g, RecvWait(c, |w.sudogs|)), g, {});
      }
    } else if CanRecv(w, c, None) {
      RecvReadyExplained(w, g, c);
    }
  }

  lemma CloseExplained(w: World, g: Gid, c: ChanId)
    requires g in w.gs
    ensures Explained(w, Close(w, g, c).0, g, {})
  {
  }

  // ------------------------------------------------------------------
  // Select and waits

  lemma {:induction false} OfferAllExplained(w: World, g: Gid, sw: nat, cases: seq<Case>, j: nat)
    requires g in w.gs && j <= |cases|
    ensures var w' := OfferAll(w, g, sw, cases, j);
      && w.trace <= w'.trace && |w.sudogs| <= |w'.sudogs|
      && (forall i: nat :: i < |w.sudogs| ==> w'.sudogs[i] == w.sudogs[i])
      && (forall k :: |w.trace| <= k < |w'.trace| ==>
            && w'.trace[k].Release? && w'.trace[k].g == g && w'.trace[k].t.OfferOf?
            && |w.sudogs| <= w'.trace[k].t.sd < |w'.sudogs| && w'.sudogs[w'.trace[k].t.sd].gid == g)
    decreases |cases| - j
  {
    if j < |cases| {
      if Offered(w, cases[j]) {
        OfferAllExplained(Offer(w, g, cases[j].ch.value, cases[j].send, cases[j].val, Some(sw), j), g, sw, cases, j + 1);
      } else {
        OfferAllExplained(w, g, sw, cases, j + 1);
      }
    }
  }

  lemma SelectCaseExplained(w: World, g: Gid, cases: seq<Case>, k: nat)
    requires Named(w) && SelectsOk(w) && g in w.gs && k < |cases| && KnownCases(w, cases) && CaseReady(w, cases[k], None)
    ensures var (w', out) := SelectCase(w, g, cases, k); Explained(w, w', g, CloseMerge(g, EmptyCase(cases, out)))
  {
    if cases[k].send {
      SendExplained(w, g, cases[k].ch.value, cases[k].val);
      MoreExtra(w, SelectCase(w, g, cases, k).0, g, CloseMerge(g, EmptyCase(cases, SelectCase(w, g, cases, k).1)));
    } else {
      RecvReadyExplained(w, g, cases[k].ch.value);
    }
  }

  lemma SelectExplained(w: World, g: Gid, cases: seq<Case>, blocking: bool)
    requires Named(w) && SelectsOk(w) && g in w.gs && KnownCases(w, cases)
    ensures var (w', out) := Select(w, g, cases, blocking); Explained(w, w', g, CloseMerge(g, EmptyCase(cases, out)))
  {
    var k := FirstReady(w, cases, None);
    if k < |cases| {
      SelectCaseExplained(w, g, cases, k);
    } else if blocking {
      OfferAllExplained(w.(sels := w.sels + [SelectWait(g, false, None)]), g, |w.sels|, cases, 0);
    }
  }

  /** What completing waiting operation i records besides moves. */
  function Collected(g: Gid, i: nat): set<Op> {
    {Acquire(g, ReplyOf(i)), TickOwn(g)}
  }

  lemma FiredResumeExplained(w: World, g: Gid, sw: nat, cases: seq<Case>)
    requires g in w.gs && KnownWait(w, g) && w.gs[g].wait == SelWait(sw, cases) && w.sels[sw].fired
    ensures Explained(w, Resume(w, g).0, g, Collected(g, w.sels[sw].sg.value))
  {
  }

  lemma WithdrawKeepsSelects(w: World, g: Gid, sw: nat)
    requires SelectsOk(w) && g in w.gs && sw < |w.sels|
    ensures SelectsOk(Withdrawn(w, g, sw))
  {
  }

  lemma UnfiredResumeExplained(w: World, g: Gid, sw: nat, cases: seq<Case>)
    requires Named(w) && SelectsOk(w) && g in w.gs && KnownWait(w, g) && w.gs[g].wait == SelWait(sw, cases)
    requires !w.sels[sw].fired && Ready(w, g)
    ensures var (w', out) := Resume(w, g); Explained(w, w', g, CloseMerge(g, EmptyCase(cases, out)))
  {
    var w1 := Withdrawn(w, g, sw);
    NamedAnyway(w, w1);
    WithdrawKeepsSelects(w, g, sw);
    WithdrawnFirstReady(w, g, sw, cases);
    assert KnownCases(w1, cases);
    var k := FirstReady(w1, cases, None);
    SelectCaseExplained(w1, g, cases, k);
    ExplainedAfter(w, w1, SelectCase(w1, g, cases, k).0, g, CloseMerge(g, EmptyCase(cases, Resume(w, g).1)));
  }

  lemma BufferedResumeExplained(w: World, g: Gid)
    requires Named(w) && SelectsOk(w) && g in w.gs && KnownWait(w, g) && WaitOk(w, g)
    requires w.gs[g].wait.BufSendWait? || w.gs[g].wait.BufRecvWait?
    ensures var (w', out) := Resume(w, g);
      Explained(w, w', g, CloseMerge(g, if w.gs[g].wait.BufRecvWait? then EmptyOn(w.gs[g].wait.ch, out) else None))
  {
    var w0, c := SetWait(w, g, NoWait), w.gs[g].wait.ch;
    NamedAnyway(w, w0);
    assert KnownChan(w0, c) && SelectsOk(w0);
    var (w', out) := Resume(w, g);
    if w.gs[g].wait.BufSendWait? {
      SendReadyExplained(w0, g, c, w.gs[g].wait.val);
      ExplainedAfter(w, w0, w', g, {});
    } else {
      RecvReadyExplained(w0, g, c);
      ExplainedAfter(w, w0, w', g, CloseMerge(g, EmptyOn(c, out)));
    }
  }

  lemma UnbufferedResumeExplained(w: World, g: Gid)
    requires g in w.gs && KnownWait(w, g) && (w.gs[g].wait.SendWait? || w.gs[g].wait.RecvWait?)
    ensures var (w', out) := Resume(w, g);
      Explained(w, w', g, if w.sudogs[w.gs[g].wait.sd].done then Collected(g, w.gs[g].wait.sd)
                          else if w.gs[g].wait.RecvWait? then CloseMerge(g, EmptyOn(w.gs[g].wait.ch, out)) else {})
  {
  }

  // ------------------------------------------------------------------
  // Every step

  /** Step a, from w to w' with outcome out, did what event op stands for. */
  predicate StandsFor(w: World, a: Action, w': World, out: Outcome, op: Op) {
    || Moved(w, w', op)
    || match op
       case Start(g) => a == DoStart(g)
       case Spawn(g, child) => a == DoGo(g, child)
       case Access(g, acc) => a == DoAccess(g, acc)
       case TickOwn(g) => a == DoResume(g)
       case JoinInto(g, SyncOf(key, n)) => DoesDone(w', a, key) && w'.syncs[key].gen == n
       case JoinInto(g, RUnlocksOf(key)) => a == DoRUnlock(g, key) && key in w.syncs && w.syncs[key].readers > 0
       case Release(g, SyncOf(key, n)) => Unlocks(w, a, key) && key in w'.syncs && w'.syncs[key].gen == n
       case Acquire(g, ReplyOf(i)) => Returns(w, a, i)
       case Acquire(g, CloseOf(c)) => EmptyReceive(w, a, out) == Some(c)
       case Acquire(g, SyncOf(key, n)) => AcquiresSync(w, a, g, key) && w.syncs[key].gen == n
       case Acquire(g, RUnlocksOf(key)) => a == DoLock(g, key)
       case _ => false
  }

  /** Action a is a Done or negative Add on allocation key. */
  predicate DoesDone(w': World, a: Action, key: int) {
    a.DoGroupAdd? && a.key == key && a.delta < 0 && key in w'.syncs
  }

  /** Action a is h's Lock, RLock or returning Wait on allocation key. */
  predicate AcquiresSync(w: World, a: Action, h: Gid, key: int) {
    key in w.syncs && (a == DoLock(h, key) || a == DoRLock(h, key) || WaitReturns(w, a, h, key))
  }

  ghost predicate AllStand(w: World, a: Action, w': World, out: Outcome) {
    && w.trace <= w'.trace
    && forall k :: |w.trace| <= k < |w'.trace| ==> w'.trace[k].g == a.g && StandsFor(w, a, w', out, w'.trace[k])
  }

  lemma MovesStand(w: World, a: Action, w': World, out: Outcome)
    requires Explained(w, w', a.g, {})
    ensures AllStand(w, a, w', out)
  {
  }

  lemma CloseMergeStands(w: World, a: Action, w': World, out: Outcome, from: Option<ChanId>)
    requires Explained(w, w', a.g, CloseMerge(a.g, from)) && (from.Some? ==> EmptyReceive(w, a, out) == from)
    ensures AllStand(w, a, w', out)
  {
  }

  lemma CollectedStands(w: World, a: Action, w': World, out: Outcome, i: nat)
    requires Explained(w, w', a.g, Collected(a.g, i)) && a.DoResume? && Returns(w, a, i)
    ensures AllStand(w, a, w', out)
  {
  }

  lemma SelectResumeStands(w: World, a: Action, w': World, out: Outcome)
    requires Named(w) && SelectsOk(w) && a.DoResume? && a.g in w.gs && KnownWait(w, a.g) && Ready(w, a.g)
    requires w.gs[a.g].wait.SelWait? && (w', out) == Resume(w, a.g)
    ensures AllStand(w, a, w', out)
  {
    var sw, cases := w.gs[a.g].wait.sw, w.gs[a.g].wait.cases;
    if w.sels[sw].fired {
      var i := w.sels[sw].sg.value;
      FiredResumeExplained(w, a.g, sw, cases);
      CollectedStands(w, a, w', out, i);
    } else {
      UnfiredResumeExplained(w, a.g, sw, cases);
      CloseMergeStands(w, a, w', out, EmptyCase(cases, out));
    }
  }

  lemma BufferedResumeStands(w: World, a: Action, w': World, out: Outcome)
    requires Named(w) && SelectsOk(w) && a.DoResume? && a.g in w.gs && KnownWait(w, a.g) && WaitOk(w, a.g)
    requires w.gs[a.g].wait.BufSendWait? || w.gs[a.g].wait.BufRecvWait?
    requires (w', out) == Resume(w, a.g)
    ensures AllStand(w, a, w', out)
  {
    var wait := w.gs[a.g].wait;
    BufferedResumeExplained(w, a.g);
    CloseMergeStands(w, a, w', out, if wait.BufRecvWait? then EmptyOn(wait.ch, out) else None);
  }

  lemma UnbufferedResumeStands(w: World, a: Action, w': World, out: Outcome)
    requires a.DoResume? && a.g in w.gs && KnownWait(w, a.g)
    requires w.gs[a.g].wait.SendWait? || w.gs[a.g].wait.RecvWait?
    requires (w', out) == Resume(w, a.g)
    ensures AllStand(w, a, w', out)
  {
    var wait := w.gs[a.g].wait;
    UnbufferedResumeExplained(w, a.g);
    if w.sudogs[wait.sd].done {
      CollectedStands(w, a, w', out, wait.sd);
    } else {
      CloseMergeStands(w, a, w', out, if wait.RecvWait? then EmptyOn(wait.ch, out) else None);
    }
  }

  lemma ResumeStands(w: World, a: Action, w': World, out: Outcome)
    requires Named(w) && SelectsOk(w) && a.DoResume? && a.g in w.gs && KnownWait(w, a.g) && WaitOk(w, a.g) && Ready(w, a.g)
    requires (w', out) == Resume(w, a.g)
    ensures AllStand(w, a, w', out)
  {
    if w.gs[a.g].wait.SelWait? {
      SelectResumeStands(w, a, w', out);
    } else if w.gs[a.g].wait.BufSendWait? || w.gs[a.g].wait.BufRecvWait? {
      BufferedResumeStands(w, a, w', out);
    } else if w.gs[a.g].wait.SendWait? || w.gs[a.g].wait.RecvWait? {
      UnbufferedResumeStands(w, a, w', out);
    }
  }

  lemma ChannelStepStands(w: World, a: Action, w': World, out: Outcome)
    requires Named(w) && SelectsOk(w) && NoDangling(w) && Allowed(w, a) && (w', out) == Step(w, a)
    requires a.DoSend? || a.DoRecv? || a.DoSelect? || a.DoClose?
    ensures AllStand(w, a, w', out)
  {
    if a.DoSend? {
      SendExplained(w, a.g, a.c, a.val);
      MovesStand(w, a, w', out);
    } else if a.DoRecv? {
      if a.c in w.chans {
        RecvExplained(w, a.g, a.c);
        CloseMergeStands(w, a, w', out, EmptyOn(a.c, out));
      }
    } else if a.DoSelect? {
      SelectExplained(w, a.g, a.cases, a.blocking);
      CloseMergeStands(w, a, w', out, EmptyCase(a.cases, out));
    } else {
      CloseExplained(w, a.g, a.c);
      MovesStand(w, a, w', out);
    }
  }

  lemma MutexStands(w: World, a: Action, out: Outcome)
    requires OnMutex(a) && a.g in w.gs && a.key in w.syncs
    ensures AllStand(w, a, AfterMutex(w, a), out)
  {
  }

  lemma MutexStepStands(w: World, a: Action, out: Outcome)
    requires OnMutex(a) && a.g in w.gs
    ensures AllStand(w, a, AfterMutex(MakeSync(w, a.key), a), out)
  {
    if a.key in w.syncs {
      MutexStands(w, a, out);
    }
  }

  lemma GroupAddStands(w: World, a: Action, w': World, out: Outcome)
    requires a.DoGroupAdd? && a.g in w.gs && w' == GroupAdd(MakeSync(w, a.key), a.g, a.key, a.delta)
    ensures AllStand(w, a, w', out)
  {
  }

  lemma GroupWaitStands(w: World, a: Action, w': World, out: Outcome)
    requires a.DoGroupWait? && a.g in w.gs && w' == GroupWaitFor(MakeSync(w, a.key), a.g, a.key).0
    ensures AllStand(w, a, w', out)
  {
  }

  lemma PlainStepStands(w: World, a: Action, w': World, out: Outcome)
    requires NoDangling(w) && Allowed(w, a) && (w', out) == Step(w, a)
    requires a.DoStart? || a.DoGo? || a.DoMakeChan? || a.DoAccess? || a.DoAbort?
    ensures AllStand(w, a, w', out)
  {
  }

  lemma StepStands(w: World, a: Action, w': World, out: Outcome)
    requires Inv(w) && NoDangling(w) && Allowed(w, a) && (w', out) == Step(w, a)
    ensures AllStand(w, a, w', out)
  {
    if a.DoSend? || a.DoRecv? || a.DoSelect? || a.DoClose? {
      ChannelStepStands(w, a, w', out);
    } else if a.DoResume? {
      assert KnownWait(w, a.g) && WaitOk(w, a.g);
      ResumeStands(w, a, w', out);
    } else if OnMutex(a) {
      MutexStep(w, a);
      MutexStepStands(w, a, out);
    } else if a.DoGroupAdd? {
      GroupAddStands(w, a, w', out);
    } else if a.DoGroupWait? {
      GroupWaitStands(w, a, w', out);
    } else {
      PlainStepStands(w, a, w', out);
    }
  }

  // ------------------------------------------------------------------
  // Runs

  /** Event k of the run is recorded by step n. */
  predicate RecordedBy(e: Execution, n: nat, k: nat)
    requires |e.worlds| == |e.acts| + 1 && n < |e.acts|
  {
    |e.worlds[n].trace| <= k < |e.worlds[n + 1].trace|
  }

  lemma RunStands(e: Execution, m: nat)
    requires IsExecution(e) && m < |e.acts|
    ensures AllStand(e.worlds[m], e.acts[m], e.worlds[m + 1], Step(e.worlds[m], e.acts[m]).1)
  {
    RunsKeepInv(e, m);
    StepStands(e.worlds[m], e.acts[m], e.worlds[m + 1], Step(e.worlds[m], e.acts[m]).1);
  }

  /** Every event of every run is recorded by a step of its goroutine, and that step did the operation
      the event stands for. */
  lemma EveryEventHasItsOperation(e: Execution, k: nat) returns (m: nat)
    requires IsExecution(e) && k < |TraceOf(e)|
    ensures m < |e.acts| && RecordedBy(e, m, k) && TraceOf(e)[k].g == e.acts[m].g
    ensures StandsFor(e.worlds[m], e.acts[m], e.worlds[m + 1], Step(e.worlds[m], e.acts[m]).1, TraceOf(e)[k])
  {
    m := EventStep(e, |e.acts|, k);
    RunStands(e, m);
    TracePossible(e, m + 1);
    assert TraceOf(e)[k] == e.worlds[m + 1].trace[k];
  }

  lemma {:induction false} EventStep(e: Execution, n: nat, k: nat) returns (m: nat)
    requires IsExecution(e) && n < |e.worlds| && k < |e.worlds[n].trace|
    ensures m < n && RecordedBy(e, m, k)
  {
    if n == 0 {
      assert false;
    } else if k < |e.worlds[n - 1].trace| {
      m := EventStep(e, n - 1, k);
    } else {
      m := n - 1;
    }
  }

  /** Steps m and n did the two operations that an edge through t joins. */
  ghost predicate Joins(e: Execution, m: nat, n: nat, t: Token)
    requires IsExecution(e) && m < |e.acts| && n < |e.acts|
  {
    match t
    case OfferOf(i) => Offers(e, m, i) && Completes(e, n, i)
    case ReplyOf(i) => Completes(e, m, i) && Returns(e.worlds[n], e.acts[n], i)
    case SendOf(c, k) => SendsKth(e, m, c, k) && ReceivesKth(e, n, c, k)
    case RecvOf(c, k) =>
      ReceivesKth(e, m, c, k) && c in e.worlds[n].chans && SendsKth(e, n, c, k + e.worlds[n].chans[c].capacity)
    case CloseOf(c) =>
      && ClosedNow(e.worlds[m], e.worlds[m + 1], c)
      && EmptyReceive(e.worlds[n], e.acts[n], Step(e.worlds[n], e.acts[n]).1) == Some(c)
    case SyncOf(key, x) =>
      && (Unlocks(e.worlds[m], e.acts[m], key) || DoesDone(e.worlds[m + 1], e.acts[m], key))
      && key in e.worlds[m + 1].syncs && e.worlds[m + 1].syncs[key].gen == x
      && AcquiresSync(e.worlds[n], e.acts[n], e.acts[n].g, key) && e.worlds[n].syncs[key].gen == x
    case RUnlocksOf(key) =>
      e.acts[m] == DoRUnlock(e.acts[m].g, key) && e.acts[n] == DoLock(e.acts[n].g, key)
  }

  /** Every edge of every run that a token carries joins two steps that did the operations the token
      stands for: the k-th send and the k-th receive of one channel, a close and a receive it ended, an
      offer and its completion, and so on. */
  lemma NoSpuriousEdge(e: Execution, i: nat, j: nat) returns (m: nat, n: nat)
    requires IsExecution(e) && i < j < |TraceOf(e)| && TraceOf(e)[j].Acquire? && Publishes(TraceOf(e)[i], TraceOf(e)[j].t)
    ensures m < |e.acts| && n < |e.acts| && RecordedBy(e, m, i) && RecordedBy(e, n, j)
    ensures Joins(e, m, n, TraceOf(e)[j].t)
  {
    m := EveryEventHasItsOperation(e, i);
    n := EveryEventHasItsOperation(e, j);
  }
}
