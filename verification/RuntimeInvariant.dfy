/** What every step of the goroutine runtime keeps. */
module RuntimeInvariant {
  import opened Clock
  import opened ClockMachine
  import opened Detector
  import opened Runtime

  // ------------------------------------------------------------------
  // Clocks: the interpreter's clocks are those of the clock machine after the recorded run.

  ghost predicate ClocksAgree(w: World) {
    && Possible(w.trace)
    && After(w.trace).next == w.next
    && (forall g :: g in w.gs <==> g in After(w.trace).live)
    && (forall g :: g in w.gs ==> After(w.trace).live[g] == w.gs[g].clock)
  }

  ghost function Pub(w: World): map<Token, VC>
    requires ClocksAgree(w)
  {
    After(w.trace).pub
  }

  lemma PublishAgrees(w: World, g: Gid, t: Token)
    requires ClocksAgree(w) && g in w.gs && t !in Pub(w)
    ensures ClocksAgree(Publish(w, g, t)) && Pub(Publish(w, g, t)) == Pub(w)[t := w.gs[g].clock]
  {
    PossibleExtends(w.trace, Release(g, t));
  }

  lemma MergeAgrees(w: World, g: Gid, clock: VC, t: Token)
    requires ClocksAgree(w) && g in w.gs && t in Pub(w) && Pub(w)[t] == clock
    ensures ClocksAgree(Merge(w, g, clock, t)) && Pub(Merge(w, g, clock, t)) == Pub(w)
  {
    PossibleExtends(w.trace, Acquire(g, t));
  }

  lemma TickAgrees(w: World, g: Gid)
    requires ClocksAgree(w) && g in w.gs
    ensures ClocksAgree(TickNow(w, g)) && Pub(TickNow(w, g)) == Pub(w)
  {
    PossibleExtends(w.trace, TickOwn(g));
  }

  lemma JoinAgrees(w: World, g: Gid, t: Token)
    requires ClocksAgree(w) && g in w.gs
    ensures ClocksAgree(JoinAs(w, g, t))
    ensures Pub(JoinAs(w, g, t)) ==
            Pub(w)[t := Joined(if t in Pub(w) then Some(Pub(w)[t]) else None, w.gs[g].clock).value]
  {
    PossibleExtends(w.trace, JoinInto(g, t));
  }

  // ------------------------------------------------------------------
  // Names: every clock the code stores is the published clock of the event it stands for.

  ghost predicate Names(pub: map<Token, VC>, t: Token, clock: Option<VC>) {
    if clock.Some? then t in pub && pub[t] == clock.value else t !in pub
  }

  ghost predicate SudogsNamed(pub: map<Token, VC>, sudogs: seq<Sudog>) {
    && (forall i: nat :: OfferOf(i) in pub ==> i < |sudogs|)
    && (forall i: nat :: ReplyOf(i) in pub ==> i < |sudogs|)
    && (forall i: nat :: i < |sudogs| ==> Names(pub, OfferOf(i), Some(sudogs[i].clock)))
    && (forall i: nat :: i < |sudogs| ==> Names(pub, ReplyOf(i), sudogs[i].peer))
  }

  /** The buffer holds what was sent and not yet taken, each value with its send's clock; the kept
      receive clocks are those of the receives that no send has merged yet. */
  ghost predicate BufferOk(pub: map<Token, VC>, c: ChanId, ch: Chan, log: Log) {
    && |log.sent| == |log.taken| + |ch.buf|
    && |ch.buf| <= ch.capacity
    && ch.nsent == |log.sent|
    && (forall k :: 0 <= k < |log.taken| ==> log.taken[k] == (k, log.sent[k]))
    && (forall j :: 0 <= j < |ch.buf| ==> ch.buf[j].val == log.sent[|log.taken| + j])
    && (forall j :: 0 <= j < |ch.buf| ==> Names(pub, SendOf(c, |log.taken| + j), Some(ch.buf[j].clock)))
    && |ch.recvClocks| == |log.taken| - Merged(ch, log)
    && (forall j :: 0 <= j < |ch.recvClocks| ==> Names(pub, RecvOf(c, Merged(ch, log) + j), Some(ch.recvClocks[j])))
  }

  /** How many receives have been merged by the send C places later. */
  function Merged(ch: Chan, log: Log): nat {
    if |log.sent| > ch.capacity then |log.sent| - ch.capacity else 0
  }

  ghost predicate ChanNamed(pub: map<Token, VC>, c: ChanId, ch: Chan, log: Log) {
    && (forall k: nat :: SendOf(c, k) in pub ==> ch.capacity > 0 && k < |log.sent|)
    && (forall k: nat :: RecvOf(c, k) in pub ==> ch.capacity > 0 && k < |log.taken|)
    && Names(pub, CloseOf(c), ch.closeClock)
    && (ch.closed <==> ch.closeClock.Some?)
    && (ch.capacity > 0 ==> BufferOk(pub, c, ch, log))
    && (ch.capacity == 0 ==> ch.buf == [])
  }

  ghost predicate ChansNamed(pub: map<Token, VC>, chans: map<ChanId, Chan>, logs: map<ChanId, Log>) {
    && (forall c, k: nat :: SendOf(c, k) in pub ==> c in chans)
    && (forall c, k: nat :: RecvOf(c, k) in pub ==> c in chans)
    && (forall c :: CloseOf(c) in pub ==> c in chans)
    && (forall c :: c in chans ==> c in logs && ChanNamed(pub, c, chans[c], logs[c]))
  }

  ghost predicate SyncNamed(pub: map<Token, VC>, key: int, s: Sync) {
    && (forall n: nat :: SyncOf(key, n) in pub ==> n <= s.gen)
    && Names(pub, SyncOf(key, s.gen), s.lastUnlock)
    && Names(pub, RUnlocksOf(key), s.rUnlock)
  }

  ghost predicate SyncsNamed(pub: map<Token, VC>, syncs: map<int, Sync>) {
    && (forall key, n: nat :: SyncOf(key, n) in pub ==> key in syncs)
    && (forall key :: RUnlocksOf(key) in pub ==> key in syncs)
    && (forall key :: key in syncs ==> SyncNamed(pub, key, syncs[key]))
  }

  // ------------------------------------------------------------------
  // Queues and rendezvous

  /** Sudog i waits in direction send on channel c. */
  predicate On(w: World, i: nat, c: ChanId, send: bool) {
    i < |w.sudogs| && w.sudogs[i].ch == c && w.sudogs[i].send == send
  }

  ghost predicate QueueOk(w: World, q: seq<nat>, c: ChanId, send: bool) {
    && (forall k :: 0 <= k < |q| ==> On(w, q[k], c, send))
    && (forall j, k :: 0 <= j < k < |q| ==> q[j] < q[k])
  }

  ghost predicate QueuesOk(w: World) {
    forall c :: c in w.chans ==>
      && QueueOk(w, w.chans[c].recvq, c, false)
      && QueueOk(w, w.chans[c].sendq, c, true)
      && (w.chans[c].capacity > 0 ==> w.chans[c].recvq == [] && w.chans[c].sendq == [])
  }

  function QueueOf(w: World, c: ChanId, send: bool): seq<nat>
    requires c in w.chans
  {
    if send then w.chans[c].sendq else w.chans[c].recvq
  }

  /** Every live waiter is in the queue where counterparts look for it. */
  ghost predicate LiveAreQueued(w: World) {
    forall i: nat :: Live(w, i) ==>
      w.sudogs[i].ch in w.chans && i in QueueOf(w, w.sudogs[i].ch, w.sudogs[i].send)
  }

  /** No live waiter in the other direction on c, except of the same select. */
  ghost predicate NoRival(w: World, c: ChanId, send: bool, sel: Option<nat>) {
    forall i: nat :: Live(w, i) && On(w, i, c, !send) ==> sel.Some? && w.sudogs[i].sel == sel
  }

  /** On an open channel a live sender and a live receiver wait together only in one select. */
  ghost predicate NoMissedMeeting(w: World) {
    forall i: nat, j: nat ::
      && Live(w, i) && Live(w, j) && w.sudogs[i].send && !w.sudogs[j].send
      && w.sudogs[i].ch == w.sudogs[j].ch && w.sudogs[i].ch in w.chans && !w.chans[w.sudogs[i].ch].closed
      ==> w.sudogs[i].sel.Some? && w.sudogs[i].sel == w.sudogs[j].sel
  }

  /** A sudog with a counterpart is done; of a select's sudogs only the recorded one has one. */
  ghost predicate SelectsOk(w: World) {
    && (forall i: nat :: i < |w.sudogs| && w.sudogs[i].sel.Some? ==> w.sudogs[i].sel.value < |w.sels|)
    && (forall i: nat :: i < |w.sudogs| && w.sudogs[i].peer.Some? ==> w.sudogs[i].done)
    && (forall i: nat :: i < |w.sudogs| && w.sudogs[i].sel.Some? && w.sudogs[i].done ==>
          var s := w.sels[w.sudogs[i].sel.value]; s.fired && s.sg == Some(i) && w.sudogs[i].peer.Some?)
    && (forall k: nat :: k < |w.sels| && w.sels[k].sg.Some? ==>
          var i := w.sels[k].sg.value;
          w.sels[k].fired && i < |w.sudogs| && w.sudogs[i].sel == Some(k) && w.sudogs[i].done)
  }

  // ------------------------------------------------------------------
  // Values on unbuffered channels

  /** Each receive that returned got the value of its own send; values handed to receivers that
      have not returned yet belong to yet other sends. */
  ghost predicate MeetingLogOk(w: World, c: ChanId, log: Log) {
    && (forall k :: 0 <= k < |log.taken| ==>
          log.taken[k].0 < |log.sent| && log.taken[k].1 == log.sent[log.taken[k].0])
    && (forall j, k :: 0 <= j < k < |log.taken| ==> log.taken[j].0 != log.taken[k].0)
    && (forall i :: i in log.pending ==>
          && log.pending[i] < |log.sent|
          && On(w, i, c, false) && w.sudogs[i].peer.Some? && w.sudogs[i].val == log.sent[log.pending[i]])
    && (forall i, k :: i in log.pending && 0 <= k < |log.taken| ==> log.taken[k].0 != log.pending[i])
    && (forall i, j :: i in log.pending && j in log.pending && i != j ==> log.pending[i] != log.pending[j])
  }

  ghost predicate MeetingLogsOk(w: World) {
    forall c :: c in w.chans && c in w.logs && w.chans[c].capacity == 0 ==> MeetingLogOk(w, c, w.logs[c])
  }

  // ------------------------------------------------------------------
  // Waits

  /** Sudog i is goroutine g's own plain (not select) operation on unbuffered channel c. */
  predicate OwnSudog(w: World, g: Gid, c: ChanId, i: nat, send: bool) {
    && c in w.chans && c in w.logs && w.chans[c].capacity == 0
    && On(w, i, c, send) && w.sudogs[i].gid == g && w.sudogs[i].sel.None?
    && (w.sudogs[i].done ==> w.sudogs[i].peer.Some? && (!send ==> i in w.logs[c].pending))
  }

  /** Sudog s is what offering case cs at position k under select sw gives. */
  predicate OffersCase(w: World, g: Gid, s: Sudog, cases: seq<Case>) {
    && s.gid == g && s.caseIdx < |cases|
    && cases[s.caseIdx].ch == Some(s.ch) && cases[s.caseIdx].send == s.send
    && s.ch in w.chans && s.ch in w.logs && w.chans[s.ch].capacity == 0
  }

  /** The sudogs of select sw are goroutine g's offers of its cases; a completed receive is pending. */
  ghost predicate OwnSelect(w: World, g: Gid, sw: nat, cases: seq<Case>) {
    && sw < |w.sels| && w.sels[sw].gid == g
    && (forall i: nat :: i < |w.sudogs| && w.sudogs[i].sel == Some(sw) ==>
          && OffersCase(w, g, w.sudogs[i], cases)
          && (w.sudogs[i].done && !w.sudogs[i].send ==> i in w.logs[w.sudogs[i].ch].pending))
    && (w.sels[sw].fired ==> w.sels[sw].sg.Some?)
  }

  ghost predicate WaitOk(w: World, g: Gid)
    requires g in w.gs
  {
    match w.gs[g].wait
    case NoWait => true
    case Aborted => true
    case SendWait(c, i) => OwnSudog(w, g, c, i, true)
    case RecvWait(c, i) => OwnSudog(w, g, c, i, false)
    case BufSendWait(c, _) => c in w.chans && w.chans[c].capacity > 0
    case BufRecvWait(c) => c in w.chans && w.chans[c].capacity > 0
    case SelWait(sw, cases) => OwnSelect(w, g, sw, cases)
    case GroupWait(key) => key in w.syncs
  }

  ghost predicate WaitsOk(w: World) {
    forall g :: g in w.gs ==> WaitOk(w, g)
  }

  // ------------------------------------------------------------------

  ghost predicate Named(w: World) {
    && ClocksAgree(w)
    && SudogsNamed(Pub(w), w.sudogs)
    && ChansNamed(Pub(w), w.chans, w.logs)
    && SyncsNamed(Pub(w), w.syncs)
  }

  ghost predicate Matched(w: World) {
    QueuesOk(w) && LiveAreQueued(w) && NoMissedMeeting(w) && SelectsOk(w)
  }

  ghost predicate Inv(w: World) {
    && Named(w)
    && Matched(w)
    && MeetingLogsOk(w)
    && WaitsOk(w)
  }

  lemma FreshInv()
    ensures Inv(Fresh)
  {
    NothingIsPossible();
  }
}
