/** What holds in every reachable state and over every run of the goroutine runtime. */
module RuntimeTheorems {
  import opened Clock
  import opened ClockMachine
  import opened HappensBefore
  import opened Detector
  import opened Runtime
  import opened RuntimeInvariant
  import opened RuntimeSteps
  import opened RuntimeOps
  import opened RuntimeRuns
  import opened RuntimeMade

  // ------------------------------------------------------------------
  // Clocks

  /** c is behind goroutine g's clock on g's own component. */
  predicate BehindOwner(w: World, g: Gid, c: VC)
    requires g in w.gs
  {
    At(c, g) < At(w.gs[g].clock, g)
  }

  lemma PublishedIsBehind(w: World, g: Gid, t: Token, clock: Option<VC>)
    requires ClocksAgree(w) && OwnAhead(After(w.trace)) && g in w.gs && Names(Pub(w), t, clock) && clock.Some?
    ensures BehindOwner(w, g, clock.value)
  {
    assert Behind(After(w.trace).live, Pub(w)[t]);
  }

  lemma ReachableOwnAhead(e: Execution, n: nat)
    requires IsExecution(e) && n < |e.worlds|
    ensures ClocksAgree(e.worlds[n]) && OwnAhead(After(e.worlds[n].trace))
  {
    RunsKeepInv(e, n);
    OwnAheadAlways(RunOf(e.worlds[n].trace), |e.worlds[n].trace|);
  }

  /** Every goroutine's own component is strictly above that component in every other goroutine's
      clock, so two goroutines' clocks are never comparable. */
  lemma GoroutineClocksIncomparable(e: Execution, n: nat, g: Gid, h: Gid)
    requires IsExecution(e) && n < |e.worlds|
    requires g in e.worlds[n].gs && h in e.worlds[n].gs && g != h
    ensures BehindOwner(e.worlds[n], g, e.worlds[n].gs[h].clock)
    ensures !Leq(e.worlds[n].gs[g].clock, e.worlds[n].gs[h].clock)
  {
    ReachableOwnAhead(e, n);
    var live := After(e.worlds[n].trace).live;
    assert g in live[g] && BehindBut(live, live[h], h);
  }

  /** The same holds of every clock stored on a sudog: the waiter's, and its counterpart's. */
  lemma SudogClocksBehind(e: Execution, n: nat, g: Gid, i: nat)
    requires IsExecution(e) && n < |e.worlds| && g in e.worlds[n].gs && i < |e.worlds[n].sudogs|
    ensures var s := e.worlds[n].sudogs[i];
            BehindOwner(e.worlds[n], g, s.clock) && (s.peer.Some? ==> BehindOwner(e.worlds[n], g, s.peer.value))
  {
    RunsKeepInv(e, n);
    ReachableOwnAhead(e, n);
    var w := e.worlds[n];
    assert Names(Pub(w), OfferOf(i), Some(w.sudogs[i].clock)) && Names(Pub(w), ReplyOf(i), w.sudogs[i].peer);
    PublishedIsBehind(w, g, OfferOf(i), Some(w.sudogs[i].clock));
    if w.sudogs[i].peer.Some? {
      PublishedIsBehind(w, g, ReplyOf(i), w.sudogs[i].peer);
    }
  }

  /** And of every clock stored on a channel: buffered items, kept receive clocks, the close. */
  lemma ChannelClocksBehind(e: Execution, n: nat, g: Gid, c: ChanId)
    requires IsExecution(e) && n < |e.worlds| && g in e.worlds[n].gs && c in e.worlds[n].chans
    ensures var w, ch := e.worlds[n], e.worlds[n].chans[c];
      && (forall j :: 0 <= j < |ch.buf| ==> BehindOwner(w, g, ch.buf[j].clock))
      && (forall j :: 0 <= j < |ch.recvClocks| && ch.capacity > 0 ==> BehindOwner(w, g, ch.recvClocks[j]))
      && (ch.closed ==> ch.closeClock.Some? && BehindOwner(w, g, ch.closeClock.value))
  {
    RunsKeepInv(e, n);
    ReachableOwnAhead(e, n);
    var w, ch, log := e.worlds[n], e.worlds[n].chans[c], e.worlds[n].logs[c];
    assert ChanNamed(Pub(w), c, ch, log);
    forall j | 0 <= j < |ch.buf|
      ensures BehindOwner(w, g, ch.buf[j].clock)
    {
      PublishedIsBehind(w, g, SendOf(c, |log.taken| + j), Some(ch.buf[j].clock));
    }
    forall j | 0 <= j < |ch.recvClocks| && ch.capacity > 0
      ensures BehindOwner(w, g, ch.recvClocks[j])
    {
      PublishedIsBehind(w, g, RecvOf(c, Merged(ch, log) + j), Some(ch.recvClocks[j]));
    }
    if ch.closed {
      PublishedIsBehind(w, g, CloseOf(c), ch.closeClock);
    }
  }

  /** And of the release clocks of mutexes and wait groups. */
  lemma SyncClocksBehind(e: Execution, n: nat, g: Gid, key: int)
    requires IsExecution(e) && n < |e.worlds| && g in e.worlds[n].gs && key in e.worlds[n].syncs
    ensures var w, s := e.worlds[n], e.worlds[n].syncs[key];
      && (s.lastUnlock.Some? ==> BehindOwner(w, g, s.lastUnlock.value))
      && (s.rUnlock.Some? ==> BehindOwner(w, g, s.rUnlock.value))
  {
    RunsKeepInv(e, n);
    ReachableOwnAhead(e, n);
    var w, s := e.worlds[n], e.worlds[n].syncs[key];
    assert SyncNamed(Pub(w), key, s);
    if s.lastUnlock.Some? {
      PublishedIsBehind(w, g, SyncOf(key, s.gen), s.lastUnlock);
    }
    if s.rUnlock.Some? {
      PublishedIsBehind(w, g, RUnlocksOf(key), s.rUnlock);
    }
  }

  // ------------------------------------------------------------------
  // Channels

  /** In every reachable state, an open channel has a live waiting sender and a live waiting
      receiver only if both are offers of one select. */
  lemma NoMissedRendezvous(e: Execution, n: nat, c: ChanId, i: nat, j: nat)
    requires IsExecution(e) && n < |e.worlds| && c in e.worlds[n].chans && !e.worlds[n].chans[c].closed
    requires Live(e.worlds[n], i) && On(e.worlds[n], i, c, true)
    requires Live(e.worlds[n], j) && On(e.worlds[n], j, c, false)
    ensures e.worlds[n].sudogs[i].sel.Some? && e.worlds[n].sudogs[i].sel == e.worlds[n].sudogs[j].sel
  {
    RunsKeepInv(e, n);
  }

  lemma FirstLiveIsOldest(w: World, q: seq<nat>, c: ChanId, send: bool, i: nat)
    requires QueueOk(w, q, c, send) && Live(w, i) && i in q
    ensures FirstLive(w, q) < |q| && q[FirstLive(w, q)] <= i
  {
    var k :| 0 <= k < |q| && q[k] == i;
  }

  /** The waiter a counterpart completes is the one that has been live on the channel longest. */
  lemma OldestWaiterFirst(e: Execution, n: nat, c: ChanId, send: bool, i: nat)
    requires IsExecution(e) && n < |e.worlds| && c in e.worlds[n].chans
    requires Live(e.worlds[n], i) && On(e.worlds[n], i, c, send)
    ensures var q := QueueOf(e.worlds[n], c, send);
            FirstLive(e.worlds[n], q) < |q| && q[FirstLive(e.worlds[n], q)] <= i
  {
    RunsKeepInv(e, n);
    var w := e.worlds[n];
    assert QueueOk(w, QueueOf(w, c, send), c, send);
    FirstLiveIsOldest(w, QueueOf(w, c, send), c, send, i);
  }

  /** Each receive that returned a value got the value of its own send. */
  lemma ReceivesMatchDistinctSends(e: Execution, n: nat, c: ChanId, j: nat, k: nat)
    requires IsExecution(e) && n < |e.worlds| && c in e.worlds[n].chans
    requires c in e.worlds[n].logs && j < |e.worlds[n].logs[c].taken| && k < |e.worlds[n].logs[c].taken|
    ensures var log := e.worlds[n].logs[c];
      && log.taken[k].0 < |log.sent| && log.taken[k].1 == log.sent[log.taken[k].0]
      && (j != k ==> log.taken[j].0 != log.taken[k].0)
  {
    RunsKeepInv(e, n);
    var w := e.worlds[n];
    assert ChanNamed(Pub(w), c, w.chans[c], w.logs[c]);
    if w.chans[c].capacity == 0 {
      assert MeetingLogOk(w, c, w.logs[c]);
    }
  }

  function Values(items: seq<Item>): seq<Value> {
    seq(|items|, i requires 0 <= i < |items| => items[i].val)
  }

  function Received(taken: seq<(nat, Value)>): seq<Value> {
    seq(|taken|, i requires 0 <= i < |taken| => taken[i].1)
  }

  /** On a channel made with room for some values, the values sent are the values received followed by the
      buffer, which never holds more than it was made for. */
  lemma SentIsReceivedThenBuffered(e: Execution, n: nat, c: ChanId)
    requires IsExecution(e) && n < |e.worlds| && MadeWith(e.acts, n, c).Some? && MadeWith(e.acts, n, c).value > 0
    ensures c in e.worlds[n].chans && c in e.worlds[n].logs
    ensures var ch, log := e.worlds[n].chans[c], e.worlds[n].logs[c];
      && log.sent == Received(log.taken) + Values(ch.buf)
      && |ch.buf| <= MadeWith(e.acts, n, c).value && ch.nsent == |log.sent|
  {
    RunsKeepInv(e, n);
    ChannelsAreAsMade(e, n, c);
    var w := e.worlds[n];
    assert BufferOk(Pub(w), c, w.chans[c], w.logs[c]);
    var ch, log := w.chans[c], w.logs[c];
    forall k | 0 <= k < |log.sent|
      ensures log.sent[k] == (Received(log.taken) + Values(ch.buf))[k]
    {
      if k >= |log.taken| {
        assert ch.buf[k - |log.taken|].val == log.sent[|log.taken| + (k - |log.taken|)];
      }
    }
  }

  /** The k-th receive happens before the (k+C)-th send completes: a send that has room merges the
      clock that receive published, and once C values have been sent there always is one. */
  lemma SendMergesReceiveCapacityEarlier(e: Execution, n: nat, c: ChanId)
    requires IsExecution(e) && n < |e.worlds| && c in e.worlds[n].chans && MadeWith(e.acts, n, c).Some?
    requires |e.worlds[n].chans[c].buf| < MadeWith(e.acts, n, c).value
    ensures ClocksAgree(e.worlds[n])
    ensures var w, ch, cap := e.worlds[n], e.worlds[n].chans[c], MadeWith(e.acts, n, c).value;
      && (ch.nsent >= cap <==> SlotFreed(ch))
      && (ch.nsent >= cap ==> Names(Pub(w), RecvOf(c, ch.nsent - cap), Some(ch.recvClocks[0])))
  {
    RunsKeepInv(e, n);
    ChannelsAreAsMade(e, n, c);
    var w := e.worlds[n];
    assert BufferOk(Pub(w), c, w.chans[c], w.logs[c]);
    KthReceiveMeetsSend(Pub(w), c, w.chans[c], w.logs[c]);
  }
}
