/** The goroutine runtime as a step system (pkg/interpreter/chan.go, the clock effects of sync and go
    statements in interpreter.go and exec.go). Each operation is atomic between waits; a wait ends
    the step with the goroutine parked, and a later step resumes or aborts it. Races are tracked.

    A World holds the interpreter's state and two history variables that the code does not have:
    trace records every clock effect under its memory-model name, and logs records what was sent on
    and taken from each channel. */
module Runtime {
  import opened Clock
  import opened ClockMachine
  import opened Detector

  type Value = int

  /** What a receive from a closed, empty channel yields. */
  const ZERO: Value := 0

  /** A buffered value with its sender's clock. */
  datatype Item = Item(val: Value, clock: VC)

  /** A goroutine waiting in a channel operation, on the send or receive queue of ch. */
  datatype Sudog = Sudog(
    gid: Gid, ch: ChanId, send: bool, val: Value, clock: VC, peer: Option<VC>, done: bool,
    sel: Option<nat>, caseIdx: nat)

  /** A waiting select of goroutine gid: sg is the case a counterpart completed. */
  datatype SelectWait = SelectWait(gid: Gid, fired: bool, sg: Option<nat>)

  datatype Chan = Chan(
    capacity: nat, closed: bool, buf: seq<Item>, recvq: seq<nat>, sendq: seq<nat>,
    recvClocks: seq<VC>, nsent: nat, closeClock: Option<VC>)

  /** One select case; ch is None for a nil or unknown channel. */
  datatype Case = Case(ch: Option<ChanId>, send: bool, val: Value)

  /** What a parked goroutine waits for. */
  datatype Wait =
    | NoWait
    | SendWait(ch: ChanId, sd: nat)
    | RecvWait(ch: ChanId, sd: nat)
    | BufSendWait(ch: ChanId, val: Value)
    | BufRecvWait(ch: ChanId)
    | SelWait(sw: nat, cases: seq<Case>)
    | GroupWait(key: int)
    | Aborted

  datatype Goroutine = Goroutine(clock: VC, wait: Wait)

  /** A Mutex, RWMutex or WaitGroup, by allocation; gen (history) counts its Unlocks. */
  datatype Sync = Sync(
    locked: bool, readers: nat, counter: int, lastUnlock: Option<VC>, rUnlock: Option<VC>, gen: nat)

  /** History of a channel: values sent, the receives that returned one (with the number of the
      send they got), and waiting receivers that were given one but have not returned yet. */
  datatype Log = Log(sent: seq<Value>, taken: seq<(nat, Value)>, pending: map<nat, nat>)

  datatype World = World(
    next: Gid, gs: map<Gid, Goroutine>, chans: map<ChanId, Chan>, sudogs: seq<Sudog>,
    sels: seq<SelectWait>, syncs: map<int, Sync>, trace: seq<Op>, logs: map<ChanId, Log>)

  const Fresh := World(1, map[], map[], [], [], map[], [], map[])

  /** How an operation ended, as the interpreted program sees it. */
  datatype Outcome =
    | Parked
    | Done
    | RecvDone(val: Value, ok: bool)
    | SelectDone(idx: nat, val: Value, ok: bool)
    | Panicked(why: string)

  // ------------------------------------------------------------------
  // Clocks

  /** releaseClock: tick after the snapshot that is published as t. */
  function Publish(w: World, g: Gid, t: Token): World
    requires g in w.gs
  {
    w.(gs := w.gs[g := w.gs[g].(clock := Tick(w.gs[g].clock, g))], trace := w.trace + [Release(g, t)])
  }

  /** acquire: merge clock, which t names in the history. */
  function Merge(w: World, g: Gid, clock: VC, t: Token): World
    requires g in w.gs
  {
    w.(gs := w.gs[g := w.gs[g].(clock := Join(w.gs[g].clock, clock))], trace := w.trace + [Acquire(g, t)])
  }

  /** acquire of a clock that may be nil. */
  function MergeIf(w: World, g: Gid, clock: Option<VC>, t: Token): World
    requires g in w.gs
  {
    if clock.Some? then Merge(w, g, clock.value, t) else w
  }

  function TickNow(w: World, g: Gid): World
    requires g in w.gs
  {
    w.(gs := w.gs[g := w.gs[g].(clock := Tick(w.gs[g].clock, g))], trace := w.trace + [TickOwn(g)])
  }

  function SetWait(w: World, g: Gid, wait: Wait): World
    requires g in w.gs
  {
    w.(gs := w.gs[g := w.gs[g].(wait := wait)])
  }

  // ------------------------------------------------------------------
  // Queues

  predicate Fired(w: World, sel: Option<nat>) {
    sel.Some? && sel.value < |w.sels| && w.sels[sel.value].fired
  }

  predicate Live(w: World, i: nat) {
    i < |w.sudogs| && !w.sudogs[i].done && !Fired(w, w.sudogs[i].sel)
  }

  predicate Counts(w: World, i: nat, notSel: Option<nat>) {
    Live(w, i) && (w.sudogs[i].sel.None? || w.sudogs[i].sel != notSel)
  }

  predicate HasLive(w: World, q: seq<nat>, notSel: Option<nat>) {
    exists k :: 0 <= k < |q| && Counts(w, q[k], notSel)
  }

  /** The position of the first live sudog in q, or |q|. */
  function FirstLive(w: World, q: seq<nat>): (k: nat)
    ensures k <= |q|
    ensures k < |q| ==> Live(w, q[k])
    ensures forall j :: 0 <= j < k ==> !Live(w, q[j])
  {
    if q == [] || Live(w, q[0]) then 0
    else
      var k := FirstLive(w, q[1..]);
      assert forall j :: 0 < j < k + 1 ==> q[j] == q[1..][j - 1];
      k + 1
  }

  predicate CanRecv(w: World, c: ChanId, self: Option<nat>)
    requires c in w.chans
  {
    var ch := w.chans[c];
    |ch.buf| > 0 || ch.closed || (ch.capacity == 0 && HasLive(w, ch.sendq, self))
  }

  predicate CanSend(w: World, c: ChanId, self: Option<nat>)
    requires c in w.chans
  {
    var ch := w.chans[c];
    if ch.closed then true
    else if ch.capacity > 0 then |ch.buf| < ch.capacity
    else HasLive(w, ch.recvq, self)
  }

  /** Queues an operation of goroutine g on unbuffered channel c, publishing its clock. */
  function Offer(w: World, g: Gid, c: ChanId, send: bool, val: Value, sel: Option<nat>, caseIdx: nat): World
    requires g in w.gs && c in w.chans
  {
    var i, ch := |w.sudogs|, w.chans[c];
    var ch' := if send then ch.(sendq := ch.sendq + [i]) else ch.(recvq := ch.recvq + [i]);
    Publish(w, g, OfferOf(i)).(
      sudogs := w.sudogs + [Sudog(g, c, send, val, w.gs[g].clock, None, false, sel, caseIdx)],
      chans := w.chans[c := ch'])
  }

  /** claim: sudog i was completed by a counterpart whose clock is peer. */
  function Claim(w: World, i: nat, peer: VC): World
    requires i < |w.sudogs|
  {
    var s := w.sudogs[i];
    w.(sudogs := w.sudogs[i := s.(done := true, peer := Some(peer))],
       sels := if s.sel.Some? && s.sel.value < |w.sels|
               then w.sels[s.sel.value := w.sels[s.sel.value].(fired := true, sg := Some(i))] else w.sels)
  }

  /** Goroutine g completes waiting sudog i: each side's clock reaches the other. */
  function Meet(w: World, g: Gid, i: nat): World
    requires g in w.gs && i < |w.sudogs|
  {
    var w1 := Merge(w, g, w.sudogs[i].clock, OfferOf(i));
    Claim(Publish(w1, g, ReplyOf(i)), i, w1.gs[g].clock)
  }

  /** Hands val to the waiting receiver at position k of c's queue, dropping what precedes it. */
  function GiveTo(w: World, g: Gid, c: ChanId, k: nat, val: Value): World
    requires g in w.gs && c in w.chans && c in w.logs
    requires k < |w.chans[c].recvq| && w.chans[c].recvq[k] < |w.sudogs|
  {
    var ch, log := w.chans[c], w.logs[c];
    var i := ch.recvq[k];
    var w1 := w.(chans := w.chans[c := ch.(recvq := ch.recvq[k + 1..])],
                 sudogs := w.sudogs[i := w.sudogs[i].(val := val)],
                 logs := w.logs[c := log.(sent := log.sent + [val], pending := log.pending[i := |log.sent|])]);
    Meet(w1, g, i)
  }

  /** Takes the value of the waiting sender at position k of c's queue. */
  function TakeFrom(w: World, g: Gid, c: ChanId, k: nat): World
    requires g in w.gs && c in w.chans && c in w.logs
    requires k < |w.chans[c].sendq| && w.chans[c].sendq[k] < |w.sudogs|
  {
    var ch, log := w.chans[c], w.logs[c];
    var i := ch.sendq[k];
    var val := w.sudogs[i].val;
    var w1 := w.(chans := w.chans[c := ch.(sendq := ch.sendq[k + 1..])],
                 logs := w.logs[c := log.(sent := log.sent + [val], taken := log.taken + [(|log.sent|, val)])]);
    Meet(w1, g, i)
  }

  predicate SlotFreed(ch: Chan) {
    ch.nsent >= ch.capacity && |ch.recvClocks| > 0
  }

  /** The (nsent-C)-th receive freed the slot of the next send: its clock is merged. */
  function MergeFreed(w: World, g: Gid, c: ChanId): World
    requires g in w.gs && c in w.chans
  {
    var ch := w.chans[c];
    if SlotFreed(ch) then Merge(w, g, ch.recvClocks[0], RecvOf(c, ch.nsent - ch.capacity)) else w
  }

  /** bufferedSend. */
  function BufPut(w: World, g: Gid, c: ChanId, val: Value): World
    requires g in w.gs && c in w.chans && c in w.logs
  {
    var ch, log, w1 := w.chans[c], w.logs[c], MergeFreed(w, g, c);
    var ch' := ch.(recvClocks := if SlotFreed(ch) then ch.recvClocks[1..] else ch.recvClocks,
                   nsent := ch.nsent + 1,
                   buf := ch.buf + [Item(val, w1.gs[g].clock)]);
    Publish(w1, g, SendOf(c, ch.nsent)).(
      chans := w.chans[c := ch'],
      logs := w.logs[c := log.(sent := log.sent + [val])])
  }

  /** A receive of the oldest buffered value; its clock is kept for the (k+C)-th send. */
  function BufTake(w: World, g: Gid, c: ChanId): World
    requires g in w.gs && c in w.chans && c in w.logs && |w.chans[c].buf| > 0
  {
    var ch, log := w.chans[c], w.logs[c];
    var k := |log.taken|;
    var w1 := Merge(w, g, ch.buf[0].clock, SendOf(c, k));
    var ch' := ch.(buf := ch.buf[1..],
                   recvClocks := if ch.capacity > 0 then ch.recvClocks + [w1.gs[g].clock] else ch.recvClocks);
    Publish(w1, g, RecvOf(c, k)).(
      chans := w.chans[c := ch'],
      logs := w.logs[c := log.(taken := log.taken + [(k, ch.buf[0].val)])])
  }

  /** Goroutine g picks up the clock its counterpart left on sudog i. */
  function Collect(w: World, g: Gid, i: nat): World
    requires g in w.gs && i < |w.sudogs|
  {
    MergeIf(w, g, w.sudogs[i].peer, ReplyOf(i))
  }

  /** A waiting receiver returns the value it was given. */
  function Deliver(w: World, c: ChanId, i: nat): World
    requires c in w.logs && i < |w.sudogs|
  {
    var log := w.logs[c];
    if i !in log.pending then w else
    w.(logs := w.logs[c := log.(taken := log.taken + [(log.pending[i], w.sudogs[i].val)],
                                pending := log.pending - {i})])
  }

  // ------------------------------------------------------------------
  // Channel operations

  predicate KnownChan(w: World, c: ChanId) {
    && c in w.chans && c in w.logs
    && (forall k :: 0 <= k < |w.chans[c].recvq| ==> w.chans[c].recvq[k] < |w.sudogs|)
    && (forall k :: 0 <= k < |w.chans[c].sendq| ==> w.chans[c].sendq[k] < |w.sudogs|)
  }

  /** The part of chanSend after a wait on a buffered or closed channel. */
  function SendReady(w: World, g: Gid, c: ChanId, val: Value): (World, Outcome)
    requires g in w.gs && KnownChan(w, c)
  {
    if w.chans[c].closed then (w, Panicked("send on closed channel"))
    else (BufPut(w, g, c, val), Done)
  }

  /** chanSend. */
  function Send(w: World, g: Gid, c: ChanId, val: Value): (World, Outcome)
    requires g in w.gs && (c in w.chans ==> KnownChan(w, c))
  {
    if c !in w.chans then (w, Done) else
    var ch := w.chans[c];
    if ch.capacity > 0 || ch.closed then
      if CanSend(w, c, None) then SendReady(w, g, c, val)
      else (SetWait(w, g, BufSendWait(c, val)), Parked)
    else
      var k := FirstLive(w, ch.recvq);
      if k < |ch.recvq| then (GiveTo(w, g, c, k, val), Done)
      else (SetWait(Offer(w, g, c, true, val, None, 0), g, SendWait(c, |w.sudogs|)), Parked)
  }

  /** recvClosed. */
  function RecvClosed(w: World, g: Gid, c: ChanId): (World, Outcome)
    requires g in w.gs && KnownChan(w, c)
  {
    (MergeIf(w, g, w.chans[c].closeClock, CloseOf(c)), RecvDone(ZERO, false))
  }

  /** recvReady. */
  function RecvReady(w: World, g: Gid, c: ChanId): (World, Outcome)
    requires g in w.gs && KnownChan(w, c)
  {
    var ch := w.chans[c];
    if |ch.buf| > 0 then (BufTake(w, g, c), RecvDone(ch.buf[0].val, true))
    else if ch.capacity == 0 && !ch.closed then
      var k := FirstLive(w, ch.sendq);
      if k < |ch.sendq| then (TakeFrom(w, g, c, k), RecvDone(w.sudogs[ch.sendq[k]].val, true))
      else RecvClosed(w, g, c)
    else RecvClosed(w, g, c)
  }

  /** chanRecv. */
  function Recv(w: World, g: Gid, c: ChanId): (World, Outcome)
    requires g in w.gs && (c in w.chans ==> KnownChan(w, c))
  {
    if c !in w.chans then (w, RecvDone(ZERO, true)) else
    var ch := w.chans[c];
    if ch.capacity == 0 && !ch.closed then
      var k := FirstLive(w, ch.sendq);
      if k < |ch.sendq| then (TakeFrom(w, g, c, k), RecvDone(w.sudogs[ch.sendq[k]].val, true))
      else (SetWait(Offer(w, g, c, false, ZERO, None, 0), g, RecvWait(c, |w.sudogs|)), Parked)
    else if CanRecv(w, c, None) then RecvReady(w, g, c)
    else (SetWait(w, g, BufRecvWait(c)), Parked)
  }

  /** handleChannelClose. */
  function Close(w: World, g: Gid, c: ChanId): (World, Outcome)
    requires g in w.gs
  {
    if c !in w.chans then (w, Done)
    else if w.chans[c].closed then (w, Panicked("close of closed channel"))
    else (Publish(w, g, CloseOf(c)).(
            chans := w.chans[c := w.chans[c].(closed := true, closeClock := Some(w.gs[g].clock))]), Done)
  }

  // ------------------------------------------------------------------
  // Select

  predicate CaseReady(w: World, cs: Case, self: Option<nat>) {
    && cs.ch.Some? && cs.ch.value in w.chans
    && if cs.send then CanSend(w, cs.ch.value, self) else CanRecv(w, cs.ch.value, self)
  }

  /** The first ready case in source order, or |cases|. */
  function FirstReady(w: World, cases: seq<Case>, self: Option<nat>): (k: nat)
    ensures k <= |cases|
    ensures k < |cases| ==> CaseReady(w, cases[k], self)
    ensures forall j :: 0 <= j < k ==> !CaseReady(w, cases[j], self)
  {
    if cases == [] || CaseReady(w, cases[0], self) then 0
    else
      var k := FirstReady(w, cases[1..], self);
      assert forall j :: 0 < j < k + 1 ==> cases[j] == cases[1..][j - 1];
      k + 1
  }

  /** A case that is offered to counterparts: one on an unbuffered channel. */
  predicate Offered(w: World, cs: Case) {
    cs.ch.Some? && cs.ch.value in w.chans && w.chans[cs.ch.value].capacity == 0
  }

  /** Offers cases j and later under select sw. */
  function OfferAll(w: World, g: Gid, sw: nat, cases: seq<Case>, j: nat): (w': World)
    requires g in w.gs && j <= |cases|
    ensures g in w'.gs
    decreases |cases| - j
  {
    if j == |cases| then w
    else if Offered(w, cases[j]) then
      OfferAll(Offer(w, g, cases[j].ch.value, cases[j].send, cases[j].val, Some(sw), j), g, sw, cases, j + 1)
    else OfferAll(w, g, sw, cases, j + 1)
  }

  predicate KnownCases(w: World, cases: seq<Case>) {
    forall k :: 0 <= k < |cases| && cases[k].ch.Some? && cases[k].ch.value in w.chans ==>
      KnownChan(w, cases[k].ch.value)
  }

  /** Runs the chosen case. */
  function SelectCase(w: World, g: Gid, cases: seq<Case>, k: nat): (World, Outcome)
    requires g in w.gs && k < |cases| && KnownCases(w, cases)
    requires cases[k].ch.Some? && cases[k].ch.value in w.chans
  {
    if cases[k].send then
      var (w', out) := Send(w, g, cases[k].ch.value, cases[k].val);
      (w', if out == Done then SelectDone(k, ZERO, false) else out)
    else
      var (w', out) := RecvReady(w, g, cases[k].ch.value);
      (w', if out.RecvDone? then SelectDone(k, out.val, out.ok) else out)
  }

  /** execSelect, up to its wait. */
  function Select(w: World, g: Gid, cases: seq<Case>, blocking: bool): (World, Outcome)
    requires g in w.gs && KnownCases(w, cases)
  {
    var k := FirstReady(w, cases, None);
    if k < |cases| then SelectCase(w, g, cases, k)
    else if !blocking then (w, SelectDone(|cases|, ZERO, false))
    else
      var sw := |w.sels|;
      var w1 := OfferAll(w.(sels := w.sels + [SelectWait(g, false, None)]), g, sw, cases, 0);
      (SetWait(w1, g, SelWait(sw, cases)), Parked)
  }

  // ------------------------------------------------------------------
  // Waiting: readiness, resumption, abort

  /** The readiness predicate of goroutine g's wait. */
  predicate Ready(w: World, g: Gid)
    requires g in w.gs
  {
    match w.gs[g].wait
    case NoWait => false
    case Aborted => false
    case SendWait(c, i) => (i < |w.sudogs| && w.sudogs[i].done) || (c in w.chans && w.chans[c].closed)
    case RecvWait(c, i) => (i < |w.sudogs| && w.sudogs[i].done) || (c in w.chans && w.chans[c].closed)
    case BufSendWait(c, _) => c in w.chans && CanSend(w, c, None)
    case BufRecvWait(c) => c in w.chans && CanRecv(w, c, None)
    case SelWait(sw, cases) => Fired(w, Some(sw)) || FirstReady(w, cases, Some(sw)) < |cases|
    case GroupWait(key) => key in w.syncs && w.syncs[key].counter <= 0
  }

  /** What goroutine g's wait refers to exists. */
  predicate KnownWait(w: World, g: Gid)
    requires g in w.gs
  {
    match w.gs[g].wait
    case NoWait => true
    case Aborted => true
    case SendWait(c, i) => KnownChan(w, c) && i < |w.sudogs|
    case RecvWait(c, i) => KnownChan(w, c) && i < |w.sudogs|
    case BufSendWait(c, _) => KnownChan(w, c)
    case BufRecvWait(c) => KnownChan(w, c)
    case SelWait(sw, cases) =>
      && sw < |w.sels| && KnownCases(w, cases)
      && (w.sels[sw].fired ==>
            && w.sels[sw].sg.Some? && w.sels[sw].sg.value < |w.sudogs|
            && var s := w.sudogs[w.sels[sw].sg.value];
            && s.caseIdx < |cases| && s.ch in w.logs)
    case GroupWait(key) => key in w.syncs
  }

  /** The rest of execSelect after its wait: a counterpart fired a case, or the offers are
      withdrawn and the first ready case runs. */
  function SelectResume(w: World, g: Gid, sw: nat, cases: seq<Case>): (World, Outcome)
    requires g in w.gs && KnownWait(w, g) && w.gs[g].wait == SelWait(sw, cases)
  {
    var w0 := SetWait(w, g, NoWait);
    if w.sels[sw].fired then
      var i := w.sels[sw].sg.value;
      var s := w.sudogs[i];
      var w1 := TickNow(Collect(w0, g, i), g);
      if cases[s.caseIdx].send then (w1, SelectDone(s.caseIdx, ZERO, false))
      else (Deliver(w1, s.ch, i), SelectDone(s.caseIdx, s.val, true))
    else
      var w1 := w0.(sels := w.sels[sw := w.sels[sw].(fired := true)]);
      var k := FirstReady(w1, cases, None);
      if k < |cases| then SelectCase(w1, g, cases, k) else (w1, Panicked("no case"))
  }

  /** Completes goroutine g's operation once its wait is over. */
  function Resume(w: World, g: Gid): (World, Outcome)
    requires g in w.gs && KnownWait(w, g)
  {
    var w0 := SetWait(w, g, NoWait);
    match w.gs[g].wait
    case NoWait => (w, Parked)
    case Aborted => (w, Parked)
    case SendWait(c, i) =>
      if w.sudogs[i].done then (Collect(w0, g, i), Done) else (w0, Panicked("send on closed channel"))
    case RecvWait(c, i) =>
      if w.sudogs[i].done then
        (Deliver(TickNow(Collect(w0, g, i), g), c, i), RecvDone(w.sudogs[i].val, true))
      else RecvClosed(w0, g, c)
    case BufSendWait(c, val) => SendReady(w0, g, c, val)
    case BufRecvWait(c) => RecvReady(w0, g, c)
    case SelWait(sw, cases) => SelectResume(w, g, sw, cases)
    case GroupWait(key) => (MergeIf(w0, g, w.syncs[key].lastUnlock, SyncOf(key, w.syncs[key].gen)), Done)
  }

  /** Aborts a parked goroutine, withdrawing its offers. */
  function Abort(w: World, g: Gid): World
    requires g in w.gs && KnownWait(w, g)
  {
    var w0 := SetWait(w, g, Aborted);
    match w.gs[g].wait
    case SendWait(c, i) => w0.(sudogs := w.sudogs[i := w.sudogs[i].(done := true)])
    case RecvWait(c, i) =>
      w0.(sudogs := w.sudogs[i := w.sudogs[i].(done := true)],
          logs := w.logs[c := w.logs[c].(pending := w.logs[c].pending - {i})])
    case SelWait(sw, _) =>
      var w1 := w0.(sels := w.sels[sw := w.sels[sw].(fired := true)]);
      if w.sels[sw].fired then
        var i := w.sels[sw].sg.value;
        var c := w.sudogs[i].ch;
        w1.(logs := w.logs[c := w.logs[c].(pending := w.logs[c].pending - {i})])
      else w1
    case _ => w0
  }

  // ------------------------------------------------------------------
  // go statements and sync primitives

  function StartEntry(w: World, g: Gid): World {
    w.(next := g + 1, gs := w.gs[g := Goroutine(map[g := 1], NoWait)], trace := w.trace + [Start(g)])
  }

  /** startGoroutine: the child inherits the parent's clock, then the parent ticks. */
  function Go(w: World, g: Gid, child: Gid): World
    requires g in w.gs
  {
    var parent := w.gs[g];
    w.(next := child + 1,
       gs := w.gs[g := parent.(clock := Tick(parent.clock, g))]
                 [child := Goroutine(Join(map[child := 1], parent.clock), NoWait)],
       trace := w.trace + [Spawn(g, child)])
  }

  function MakeChan(w: World, c: ChanId, capacity: nat): World {
    w.(chans := w.chans[c := Chan(capacity, false, [], [], [], [], 0, None)],
       logs := w.logs[c := Log([], [], map[])])
  }

  function MakeSync(w: World, key: int): World {
    if key in w.syncs then w else w.(syncs := w.syncs[key := Sync(false, 0, 0, None, None, 0)])
  }

  function PutSync(w: World, key: int, s: Sync): World {
    w.(syncs := w.syncs[key := s])
  }

  /** Lock and TryLock: merge the last Unlock and every RUnlock. They never wait. */
  function Lock(w: World, g: Gid, key: int): World
    requires g in w.gs && key in w.syncs
  {
    var s := w.syncs[key];
    var w1 := MergeIf(w, g, s.lastUnlock, SyncOf(key, s.gen));
    PutSync(MergeIf(w1, g, s.rUnlock, RUnlocksOf(key)), key, s.(locked := true))
  }

  function Unlock(w: World, g: Gid, key: int): (World, Outcome)
    requires g in w.gs && key in w.syncs
  {
    var s := w.syncs[key];
    if !s.locked then (w, Panicked("unlock of unlocked mutex"))
    else (PutSync(Publish(w, g, SyncOf(key, s.gen + 1)), key,
                  s.(locked := false, lastUnlock := Some(w.gs[g].clock), gen := s.gen + 1)), Done)
  }

  function RLock(w: World, g: Gid, key: int): World
    requires g in w.gs && key in w.syncs
  {
    var s := w.syncs[key];
    PutSync(MergeIf(w, g, s.lastUnlock, SyncOf(key, s.gen)), key, s.(readers := s.readers + 1))
  }

  /** joinClock into the clock published as t, then tick. */
  function JoinAs(w: World, g: Gid, t: Token): World
    requires g in w.gs
  {
    w.(gs := w.gs[g := w.gs[g].(clock := Tick(w.gs[g].clock, g))], trace := w.trace + [JoinInto(g, t)])
  }

  function Joined(dst: Option<VC>, c: VC): Option<VC> {
    Some(if dst.Some? then Join(dst.value, c) else c)
  }

  function RUnlock(w: World, g: Gid, key: int): (World, Outcome)
    requires g in w.gs && key in w.syncs
  {
    var s := w.syncs[key];
    if s.readers == 0 then (w, Panicked("unlock of unlocked mutex"))
    else (PutSync(JoinAs(w, g, RUnlocksOf(key)), key,
                  s.(readers := s.readers - 1, rUnlock := Joined(s.rUnlock, w.gs[g].clock))), Done)
  }

  /** WaitGroup Add and Done: a negative delta is a release. */
  function GroupAdd(w: World, g: Gid, key: int, delta: int): World
    requires g in w.gs && key in w.syncs
  {
    var s := w.syncs[key].(counter := w.syncs[key].counter + delta);
    if delta < 0 then
      PutSync(JoinAs(w, g, SyncOf(key, s.gen)), key, s.(lastUnlock := Joined(s.lastUnlock, w.gs[g].clock)))
    else PutSync(w, key, s)
  }

  function GroupWaitFor(w: World, g: Gid, key: int): (World, Outcome)
    requires g in w.gs && key in w.syncs
  {
    if w.syncs[key].counter <= 0
    then (MergeIf(w, g, w.syncs[key].lastUnlock, SyncOf(key, w.syncs[key].gen)), Done)
    else (SetWait(w, g, GroupWait(key)), Parked)
  }

  function Touch(w: World, g: Gid, acc: Acc): World {
    w.(trace := w.trace + [Access(g, acc)])
  }
}
