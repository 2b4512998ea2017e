/** Each primitive effect of the runtime keeps the invariant. */
module RuntimeSteps {
  import opened Clock
  import opened ClockMachine
  import opened Detector
  import opened Runtime
  import opened RuntimeInvariant

  /** w' differs from w only in clocks. */
  ghost predicate SameButClocks(w: World, w': World) {
    && w'.chans == w.chans && w'.sudogs == w.sudogs && w'.sels == w.sels
    && w'.syncs == w.syncs && w'.logs == w.logs
    && w'.gs.Keys == w.gs.Keys
    && (forall g :: g in w.gs ==> w'.gs[g].wait == w.gs[g].wait)
  }

  lemma ClocksDoNotMatter(w: World, w': World)
    requires Matched(w) && MeetingLogsOk(w) && WaitsOk(w) && SameButClocks(w, w')
    ensures Matched(w') && MeetingLogsOk(w') && WaitsOk(w')
  {
    assert forall i: nat :: Live(w', i) <==> Live(w, i);
    forall g | g in w'.gs
      ensures WaitOk(w', g)
    {
      assert WaitOk(w, g);
    }
  }

  lemma MergeKeepsInv(w: World, g: Gid, clock: VC, t: Token)
    requires Inv(w) && g in w.gs && t in Pub(w) && Pub(w)[t] == clock
    ensures Inv(Merge(w, g, clock, t))
  {
    MergeAgrees(w, g, clock, t);
    ClocksDoNotMatter(w, Merge(w, g, clock, t));
  }

  lemma MergeIfKeepsInv(w: World, g: Gid, clock: Option<VC>, t: Token)
    requires Inv(w) && g in w.gs && Names(Pub(w), t, clock)
    ensures Inv(MergeIf(w, g, clock, t)) && Pub(MergeIf(w, g, clock, t)) == Pub(w)
    ensures SameButClocks(w, MergeIf(w, g, clock, t))
  {
    if clock.Some? {
      MergeAgrees(w, g, clock.value, t);
      MergeKeepsInv(w, g, clock.value, t);
    }
  }

  lemma TickKeepsInv(w: World, g: Gid)
    requires Inv(w) && g in w.gs
    ensures Inv(TickNow(w, g))
  {
    TickAgrees(w, g);
    ClocksDoNotMatter(w, TickNow(w, g));
  }

  lemma SetWaitKeepsNames(w: World, g: Gid, wait: Wait)
    requires Named(w) && g in w.gs
    ensures Named(SetWait(w, g, wait))
  {
  }

  lemma SetWaitKeepsMatched(w: World, g: Gid, wait: Wait)
    requires Matched(w) && MeetingLogsOk(w) && g in w.gs
    ensures Matched(SetWait(w, g, wait)) && MeetingLogsOk(SetWait(w, g, wait))
  {
    var w' := SetWait(w, g, wait);
    assert forall i: nat :: Live(w', i) <==> Live(w, i);
    assert forall c, log :: MeetingLogOk(w', c, log) <==> MeetingLogOk(w, c, log);
  }

  lemma SetWaitKeepsWaits(w: World, g: Gid, wait: Wait)
    requires WaitsOk(w) && g in w.gs && WaitOk(SetWait(w, g, wait), g)
    ensures WaitsOk(SetWait(w, g, wait))
  {
    var w' := SetWait(w, g, wait);
    forall h | h in w'.gs
      ensures WaitOk(w', h)
    {
      assert WaitOk(w, h);
    }
  }

  lemma SetWaitKeepsInv(w: World, g: Gid, wait: Wait)
    requires Inv(w) && g in w.gs && WaitOk(SetWait(w, g, wait), g)
    ensures Inv(SetWait(w, g, wait))
  {
    SetWaitKeepsNames(w, g, wait);
    SetWaitKeepsMatched(w, g, wait);
    SetWaitKeepsWaits(w, g, wait);
  }

  // ------------------------------------------------------------------
  // Queuing an operation

  predicate About(t: Token, c: ChanId) {
    (t.SendOf? || t.RecvOf? || t.CloseOf?) && t.ch == c
  }

  /** Publishing under t leaves every channel that t is not about correctly named. */
  lemma OtherChanStaysNamed(pub: map<Token, VC>, t: Token, clock: VC, c: ChanId, ch: Chan, log: Log, ch': Chan)
    requires ChanNamed(pub, c, ch, log) && !About(t, c)
    requires ch' == ch.(recvq := ch'.recvq, sendq := ch'.sendq)
    ensures ChanNamed(pub[t := clock], c, ch', log)
  {
    var pub' := pub[t := clock];
    assert forall k: nat :: SendOf(c, k) in pub' <==> SendOf(c, k) in pub;
    assert forall k: nat :: RecvOf(c, k) in pub' <==> RecvOf(c, k) in pub;
    assert forall k: nat :: SendOf(c, k) in pub ==> pub'[SendOf(c, k)] == pub[SendOf(c, k)];
    assert forall k: nat :: RecvOf(c, k) in pub ==> pub'[RecvOf(c, k)] == pub[RecvOf(c, k)];
  }

  lemma SyncsStayNamed(pub: map<Token, VC>, t: Token, clock: VC, syncs: map<int, Sync>)
    requires SyncsNamed(pub, syncs) && !t.SyncOf? && !t.RUnlocksOf?
    ensures SyncsNamed(pub[t := clock], syncs)
  {
    forall key | key in syncs
      ensures SyncNamed(pub[t := clock], key, syncs[key])
    {
      assert SyncNamed(pub, key, syncs[key]);
    }
  }

  lemma SudogsStayNamed(pub: map<Token, VC>, t: Token, clock: VC, sudogs: seq<Sudog>)
    requires SudogsNamed(pub, sudogs) && !t.OfferOf? && !t.ReplyOf?
    ensures SudogsNamed(pub[t := clock], sudogs)
  {
    var pub' := pub[t := clock];
    forall i: nat | i < |sudogs|
      ensures Names(pub', OfferOf(i), Some(sudogs[i].clock)) && Names(pub', ReplyOf(i), sudogs[i].peer)
    {
      assert Names(pub, OfferOf(i), Some(sudogs[i].clock)) && Names(pub, ReplyOf(i), sudogs[i].peer);
    }
  }

  /** Publishing a sudog's clock, with queues changed, keeps channels named. */
  lemma ChansStayNamed(pub: map<Token, VC>, t: Token, clock: VC, chans: map<ChanId, Chan>, logs: map<ChanId, Log>, chans': map<ChanId, Chan>)
    requires ChansNamed(pub, chans, logs) && !t.SendOf? && !t.RecvOf? && !t.CloseOf?
    requires chans'.Keys == chans.Keys
    requires forall c :: c in chans ==> chans'[c] == chans[c].(recvq := chans'[c].recvq, sendq := chans'[c].sendq)
    ensures ChansNamed(pub[t := clock], chans', logs)
  {
    forall c | c in chans'
      ensures c in logs && ChanNamed(pub[t := clock], c, chans'[c], logs[c])
    {
      OtherChanStaysNamed(pub, t, clock, c, chans[c], logs[c], chans'[c]);
    }
  }

  lemma SudogAppended(pub: map<Token, VC>, sudogs: seq<Sudog>, s: Sudog)
    requires SudogsNamed(pub, sudogs) && s.peer.None?
    ensures SudogsNamed(pub[OfferOf(|sudogs|) := s.clock], sudogs + [s])
  {
    var n, sudogs' := |sudogs|, sudogs + [s];
    var pub' := pub[OfferOf(n) := s.clock];
    assert ReplyOf(n) !in pub;
    forall k: nat | k < |sudogs'|
      ensures Names(pub', OfferOf(k), Some(sudogs'[k].clock)) && Names(pub', ReplyOf(k), sudogs'[k].peer)
    {
      if k < n {
        assert Names(pub, OfferOf(k), Some(sudogs[k].clock)) && Names(pub, ReplyOf(k), sudogs[k].peer);
      }
    }
  }

  lemma OfferKeepsNames(w: World, g: Gid, c: ChanId, send: bool, val: Value, sel: Option<nat>, caseIdx: nat)
    requires Named(w) && g in w.gs && c in w.chans
    ensures Named(Offer(w, g, c, send, val, sel, caseIdx))
  {
    var i, w' := |w.sudogs|, Offer(w, g, c, send, val, sel, caseIdx);
    PublishAgrees(w, g, OfferOf(i));
    assert ClocksAgree(w') && Pub(w') == Pub(w)[OfferOf(i) := w.gs[g].clock];
    ChansStayNamed(Pub(w), OfferOf(i), w.gs[g].clock, w.chans, w.logs, w'.chans);
    SyncsStayNamed(Pub(w), OfferOf(i), w.gs[g].clock, w.syncs);
    SudogAppended(Pub(w), w.sudogs, w'.sudogs[i]);
  }

  lemma OfferKeepsQueues(w: World, g: Gid, c: ChanId, send: bool, val: Value, sel: Option<nat>, caseIdx: nat)
    requires QueuesOk(w) && LiveAreQueued(w) && g in w.gs && c in w.chans && w.chans[c].capacity == 0
    ensures QueuesOk(Offer(w, g, c, send, val, sel, caseIdx))
    ensures LiveAreQueued(Offer(w, g, c, send, val, sel, caseIdx))
  {
    var n, w' := |w.sudogs|, Offer(w, g, c, send, val, sel, caseIdx);
    forall d | d in w'.chans
      ensures QueueOk(w', w'.chans[d].recvq, d, false) && QueueOk(w', w'.chans[d].sendq, d, true)
    {
      assert QueueOk(w, w.chans[d].recvq, d, false) && QueueOk(w, w.chans[d].sendq, d, true);
    }
    forall i: nat | Live(w', i)
      ensures w'.sudogs[i].ch in w'.chans && i in QueueOf(w', w'.sudogs[i].ch, w'.sudogs[i].send)
    {
      if i < n {
        assert Live(w, i) && i in QueueOf(w, w.sudogs[i].ch, w.sudogs[i].send);
      }
    }
  }

  lemma OfferKeepsMeetings(w: World, g: Gid, c: ChanId, send: bool, val: Value, sel: Option<nat>, caseIdx: nat)
    requires NoMissedMeeting(w) && g in w.gs && c in w.chans && NoRival(w, c, send, sel)
    requires sel.Some? ==> sel.value < |w.sels|
    ensures NoMissedMeeting(Offer(w, g, c, send, val, sel, caseIdx))
  {
    var n, w' := |w.sudogs|, Offer(w, g, c, send, val, sel, caseIdx);
    assert forall i: nat :: i < n ==> w'.sudogs[i] == w.sudogs[i];
    assert forall i: nat :: i < n ==> (Live(w', i) <==> Live(w, i));
    forall i: nat, j: nat |
      && Live(w', i) && Live(w', j) && w'.sudogs[i].send && !w'.sudogs[j].send
      && w'.sudogs[i].ch == w'.sudogs[j].ch && w'.sudogs[i].ch in w'.chans && !w'.chans[w'.sudogs[i].ch].closed
      ensures w'.sudogs[i].sel.Some? && w'.sudogs[i].sel == w'.sudogs[j].sel
    {
      if i == n {
        assert On(w, j, c, false);
      } else if j == n {
        assert On(w, i, c, true);
      }
    }
  }

  lemma OfferKeepsSelects(w: World, g: Gid, c: ChanId, send: bool, val: Value, sel: Option<nat>, caseIdx: nat)
    requires SelectsOk(w) && g in w.gs && c in w.chans && (sel.Some? ==> sel.value < |w.sels|)
    ensures SelectsOk(Offer(w, g, c, send, val, sel, caseIdx))
  {
    var w' := Offer(w, g, c, send, val, sel, caseIdx);
    assert forall i: nat :: i < |w.sudogs| ==> w'.sudogs[i] == w.sudogs[i];
    assert w'.sels == w.sels;
  }

  lemma OfferKeepsMatched(w: World, g: Gid, c: ChanId, send: bool, val: Value, sel: Option<nat>, caseIdx: nat)
    requires Matched(w) && g in w.gs && c in w.chans && w.chans[c].capacity == 0
    requires sel.Some? ==> sel.value < |w.sels|
    requires NoRival(w, c, send, sel)
    ensures Matched(Offer(w, g, c, send, val, sel, caseIdx))
  {
    OfferKeepsQueues(w, g, c, send, val, sel, caseIdx);
    OfferKeepsMeetings(w, g, c, send, val, sel, caseIdx);
    OfferKeepsSelects(w, g, c, send, val, sel, caseIdx);
  }

  lemma OfferKeepsWaits(w: World, g: Gid, c: ChanId, send: bool, val: Value, sel: Option<nat>, caseIdx: nat)
    requires WaitsOk(w) && MeetingLogsOk(w) && g in w.gs && c in w.chans
    requires forall h :: h in w.gs && w.gs[h].wait.SelWait? ==> Some(w.gs[h].wait.sw) != sel
    ensures WaitsOk(Offer(w, g, c, send, val, sel, caseIdx))
    ensures MeetingLogsOk(Offer(w, g, c, send, val, sel, caseIdx))
  {
    var n, w' := |w.sudogs|, Offer(w, g, c, send, val, sel, caseIdx);
    assert forall i: nat :: i < n ==> w'.sudogs[i] == w.sudogs[i];
    forall h | h in w'.gs
      ensures WaitOk(w', h)
    {
      assert WaitOk(w, h);
    }
  }

  lemma OfferKeepsInv(w: World, g: Gid, c: ChanId, send: bool, val: Value, sel: Option<nat>, caseIdx: nat)
    requires Inv(w) && g in w.gs && c in w.chans && w.chans[c].capacity == 0
    requires sel.Some? ==> sel.value < |w.sels|
    requires NoRival(w, c, send, sel)
    requires forall h :: h in w.gs && w.gs[h].wait.SelWait? ==> Some(w.gs[h].wait.sw) != sel
    ensures Inv(Offer(w, g, c, send, val, sel, caseIdx))
  {
    OfferKeepsNames(w, g, c, send, val, sel, caseIdx);
    OfferKeepsMatched(w, g, c, send, val, sel, caseIdx);
    OfferKeepsWaits(w, g, c, send, val, sel, caseIdx);
  }

  // ------------------------------------------------------------------
  // Meeting a counterpart

  lemma SudogAnswered(pub: map<Token, VC>, sudogs: seq<Sudog>, i: nat, s: Sudog, clock: VC)
    requires SudogsNamed(pub, sudogs) && i < |sudogs| && s.clock == sudogs[i].clock && s.peer == Some(clock)
    ensures SudogsNamed(pub[ReplyOf(i) := clock], sudogs[i := s])
  {
    var pub', sudogs' := pub[ReplyOf(i) := clock], sudogs[i := s];
    forall k: nat | k < |sudogs'|
      ensures Names(pub', OfferOf(k), Some(sudogs'[k].clock)) && Names(pub', ReplyOf(k), sudogs'[k].peer)
    {
      assert Names(pub, OfferOf(k), Some(sudogs[k].clock)) && Names(pub, ReplyOf(k), sudogs[k].peer);
    }
  }

  lemma MeetKeepsNames(w: World, g: Gid, i: nat)
    requires Named(w) && g in w.gs && i < |w.sudogs| && w.sudogs[i].peer.None?
    ensures Named(Meet(w, g, i))
  {
    var s := w.sudogs[i];
    assert Names(Pub(w), OfferOf(i), Some(s.clock)) && Names(Pub(w), ReplyOf(i), s.peer);
    var w1 := Merge(w, g, s.clock, OfferOf(i));
    MergeAgrees(w, g, s.clock, OfferOf(i));
    var clock := w1.gs[g].clock;
    PublishAgrees(w1, g, ReplyOf(i));
    var w' := Meet(w, g, i);
    assert ClocksAgree(w') && Pub(w') == Pub(w)[ReplyOf(i) := clock];
    SudogAnswered(Pub(w), w.sudogs, i, w'.sudogs[i], clock);
    ChansStayNamed(Pub(w), ReplyOf(i), clock, w.chans, w.logs, w.chans);
    SyncsStayNamed(Pub(w), ReplyOf(i), clock, w.syncs);
  }

  /** w' is w after the live sudog i, first live in c's queue in its direction, was completed. */
  ghost predicate Completes(w: World, w': World, c: ChanId, send: bool, k: nat) {
    && c in w.chans && w'.chans.Keys == w.chans.Keys
    && k < |QueueOf(w, c, send)|
    && var i := QueueOf(w, c, send)[k];
    && Live(w, i) && (forall j :: 0 <= j < k ==> !Live(w, QueueOf(w, c, send)[j]))
    && (forall d :: d in w.chans && d != c ==> w'.chans[d] == w.chans[d])
    && w'.chans[c] == (if send then w.chans[c].(sendq := w.chans[c].sendq[k + 1..])
                       else w.chans[c].(recvq := w.chans[c].recvq[k + 1..]))
    && |w'.sudogs| == |w.sudogs|
    && (forall j: nat :: j < |w.sudogs| && j != i ==> w'.sudogs[j] == w.sudogs[j])
    && w'.sudogs[i] == w.sudogs[i].(done := true, peer := w'.sudogs[i].peer, val := w'.sudogs[i].val)
    && w'.sudogs[i].peer.Some?
    && w'.sels == (if w.sudogs[i].sel.Some? && w.sudogs[i].sel.value < |w.sels|
                   then w.sels[w.sudogs[i].sel.value := w.sels[w.sudogs[i].sel.value].(fired := true, sg := Some(i))]
                   else w.sels)
  }

  /** Completing a sudog makes it and its select's other offers stale, and nothing else. */
  lemma CompletionLiveness(w: World, w': World, c: ChanId, send: bool, k: nat, j: nat)
    requires SelectsOk(w) && Completes(w, w', c, send, k)
    ensures var i := QueueOf(w, c, send)[k];
            Live(w', j) <==> Live(w, j) && j != i && (w.sudogs[j].sel.None? || w.sudogs[j].sel != w.sudogs[i].sel)
  {
  }

  /** Sudogs keep their channel and direction. */
  ghost predicate SamePlaces(w: World, w': World) {
    && |w.sudogs| <= |w'.sudogs|
    && forall i: nat :: i < |w.sudogs| ==>
         w'.sudogs[i].ch == w.sudogs[i].ch && w'.sudogs[i].send == w.sudogs[i].send
  }

  lemma SuffixQueueOk(w: World, w': World, q: seq<nat>, k: nat, c: ChanId, send: bool)
    requires QueueOk(w, q, c, send) && k <= |q| && SamePlaces(w, w')
    ensures QueueOk(w', q[k..], c, send)
  {
    var q' := q[k..];
    forall j | 0 <= j < |q'|
      ensures On(w', q'[j], c, send)
    {
      assert On(w, q[k + j], c, send);
    }
  }

  lemma CompletionKeepsQueues(w: World, w': World, c: ChanId, send: bool, k: nat)
    requires QueuesOk(w) && Completes(w, w', c, send, k)
    ensures QueuesOk(w')
  {
    assert SamePlaces(w, w');
    forall d | d in w'.chans
      ensures QueueOk(w', w'.chans[d].recvq, d, false) && QueueOk(w', w'.chans[d].sendq, d, true)
    {
      var ch := w.chans[d];
      var r, s := if d == c && !send then k + 1 else 0, if d == c && send then k + 1 else 0;
      assert QueueOk(w, ch.recvq, d, false) && QueueOk(w, ch.sendq, d, true);
      SuffixQueueOk(w, w', ch.recvq, r, d, false);
      SuffixQueueOk(w, w', ch.sendq, s, d, true);
      assert w'.chans[d].recvq == ch.recvq[r..] && w'.chans[d].sendq == ch.sendq[s..];
    }
  }

  lemma CompletionKeepsQueued(w: World, w': World, c: ChanId, send: bool, k: nat)
    requires LiveAreQueued(w) && SelectsOk(w) && Completes(w, w', c, send, k)
    ensures LiveAreQueued(w')
  {
    forall j: nat | Live(w', j)
      ensures w'.sudogs[j].ch in w'.chans && j in QueueOf(w', w'.sudogs[j].ch, w'.sudogs[j].send)
    {
      CompletionLiveness(w, w', c, send, k, j);
      var q := QueueOf(w, w.sudogs[j].ch, w.sudogs[j].send);
      var p :| 0 <= p < |q| && q[p] == j;
      if w.sudogs[j].ch == c && w.sudogs[j].send == send {
        assert p > k;
        assert q[k + 1..][p - (k + 1)] == j;
      }
    }
  }

  lemma CompletionKeepsSelects(w: World, w': World, c: ChanId, send: bool, k: nat)
    requires SelectsOk(w) && Completes(w, w', c, send, k)
    ensures SelectsOk(w')
  {
  }

  lemma CompletionKeepsMeetings(w: World, w': World, c: ChanId, send: bool, k: nat)
    requires NoMissedMeeting(w) && SelectsOk(w) && Completes(w, w', c, send, k)
    ensures NoMissedMeeting(w')
  {
    forall j: nat
      ensures Live(w', j) ==> Live(w, j) && w'.sudogs[j] == w.sudogs[j]
    {
      CompletionLiveness(w, w', c, send, k, j);
    }
  }

  lemma CompletionKeepsMatched(w: World, w': World, c: ChanId, send: bool, k: nat)
    requires Matched(w) && Completes(w, w', c, send, k)
    ensures Matched(w')
  {
    CompletionKeepsQueues(w, w', c, send, k);
    CompletionKeepsQueued(w, w', c, send, k);
    CompletionKeepsMeetings(w, w', c, send, k);
    CompletionKeepsSelects(w, w', c, send, k);
  }

  lemma CompletionKeepsWaits(w: World, w': World, c: ChanId, send: bool, k: nat)
    requires WaitsOk(w) && SelectsOk(w) && Completes(w, w', c, send, k)
    requires w'.gs.Keys == w.gs.Keys && forall h :: h in w.gs ==> w'.gs[h].wait == w.gs[h].wait
    requires w'.syncs == w.syncs && w'.logs.Keys == w.logs.Keys
    requires forall d, j :: d in w.logs && j in w.logs[d].pending ==> j in w'.logs[d].pending
    requires !send && c in w.logs ==> QueueOf(w, c, send)[k] in w'.logs[c].pending
    requires On(w, QueueOf(w, c, send)[k], c, send)
    ensures WaitsOk(w')
  {
    forall h | h in w'.gs
      ensures WaitOk(w', h)
    {
      assert WaitOk(w, h);
    }
  }

  /** Changing sudogs that hold no pending value leaves a channel's log in order. */
  lemma LogStaysOk(w: World, w': World, c: ChanId, log: Log)
    requires MeetingLogOk(w, c, log)
    requires forall j: nat :: j in log.pending ==> j < |w'.sudogs| && w'.sudogs[j] == w.sudogs[j]
    ensures MeetingLogOk(w', c, log)
  {
  }

  lemma GivenLogOk(w: World, c: ChanId, log: Log, i: nat, val: Value)
    requires MeetingLogOk(w, c, log) && i !in log.pending
    requires On(w, i, c, false) && w.sudogs[i].peer.Some? && w.sudogs[i].val == val
    ensures MeetingLogOk(w, c, log.(sent := log.sent + [val], pending := log.pending[i := |log.sent|]))
  {
  }

  lemma TakenLogOk(w: World, c: ChanId, log: Log, val: Value)
    requires MeetingLogOk(w, c, log)
    ensures MeetingLogOk(w, c, log.(sent := log.sent + [val], taken := log.taken + [(|log.sent|, val)]))
  {
  }

  lemma GiveToKeepsLogs(w: World, g: Gid, c: ChanId, k: nat, val: Value)
    requires Matched(w) && MeetingLogsOk(w) && g in w.gs && KnownChan(w, c) && w.chans[c].capacity == 0
    requires k < |w.chans[c].recvq| && Live(w, w.chans[c].recvq[k])
    ensures MeetingLogsOk(GiveTo(w, g, c, k, val))
  {
    var i, w' := w.chans[c].recvq[k], GiveTo(w, g, c, k, val);
    assert QueueOk(w, w.chans[c].recvq, c, false) && On(w, i, c, false);
    assert w.sudogs[i].peer.None?;
    forall d | d in w'.chans && d in w'.logs && w'.chans[d].capacity == 0
      ensures MeetingLogOk(w', d, w'.logs[d])
    {
      assert MeetingLogOk(w, d, w.logs[d]);
      assert i !in w.logs[d].pending;
      LogStaysOk(w, w', d, w.logs[d]);
      if d == c {
        GivenLogOk(w', c, w.logs[c], i, val);
      }
    }
  }

  lemma GiveToKeepsInv(w: World, g: Gid, c: ChanId, k: nat, val: Value)
    requires Inv(w) && g in w.gs && KnownChan(w, c) && w.chans[c].capacity == 0
    requires k < |w.chans[c].recvq| && Live(w, w.chans[c].recvq[k])
    requires forall j :: 0 <= j < k ==> !Live(w, w.chans[c].recvq[j])
    ensures Inv(GiveTo(w, g, c, k, val))
  {
    var i, w' := w.chans[c].recvq[k], GiveTo(w, g, c, k, val);
    assert QueueOk(w, w.chans[c].recvq, c, false) && On(w, i, c, false);
    assert Completes(w, w', c, false, k);
    CompletionKeepsMatched(w, w', c, false, k);
    CompletionKeepsWaits(w, w', c, false, k);
    GiveToKeepsLogs(w, g, c, k, val);
    GiveToKeepsNames(w, g, c, k, val);
  }

  /** On an unbuffered channel, logs and queues have no published clocks. */
  lemma UnbufferedStaysNamed(pub: map<Token, VC>, chans: map<ChanId, Chan>, logs: map<ChanId, Log>, c: ChanId, ch: Chan, log: Log)
    requires ChansNamed(pub, chans, logs) && c in chans && chans[c].capacity == 0
    requires ch == chans[c].(recvq := ch.recvq, sendq := ch.sendq)
    ensures ChansNamed(pub, chans[c := ch], logs[c := log])
  {
    assert ChanNamed(pub, c, chans[c], logs[c]);
    forall d | d in chans
      ensures ChanNamed(pub, d, chans[c := ch][d], logs[c := log][d])
    {
      assert ChanNamed(pub, d, chans[d], logs[d]);
    }
  }

  lemma GiveToKeepsNames(w: World, g: Gid, c: ChanId, k: nat, val: Value)
    requires Named(w) && SelectsOk(w) && g in w.gs && KnownChan(w, c) && w.chans[c].capacity == 0
    requires k < |w.chans[c].recvq| && Live(w, w.chans[c].recvq[k])
    ensures Named(GiveTo(w, g, c, k, val))
  {
    var ch, log := w.chans[c], w.logs[c];
    var i := ch.recvq[k];
    var ch', log' := ch.(recvq := ch.recvq[k + 1..]), log.(sent := log.sent + [val], pending := log.pending[i := |log.sent|]);
    var w1 := w.(chans := w.chans[c := ch'], sudogs := w.sudogs[i := w.sudogs[i].(val := val)], logs := w.logs[c := log']);
    UnbufferedStaysNamed(Pub(w), w.chans, w.logs, c, ch', log');
    assert forall j: nat :: j < |w.sudogs| ==> w1.sudogs[j].clock == w.sudogs[j].clock && w1.sudogs[j].peer == w.sudogs[j].peer;
    assert ClocksAgree(w1) && Pub(w1) == Pub(w);
    MeetKeepsNames(w1, g, i);
  }

  lemma TakeFromKeepsNames(w: World, g: Gid, c: ChanId, k: nat)
    requires Named(w) && SelectsOk(w) && g in w.gs && KnownChan(w, c) && w.chans[c].capacity == 0
    requires k < |w.chans[c].sendq| && Live(w, w.chans[c].sendq[k])
    ensures Named(TakeFrom(w, g, c, k))
  {
    var ch, log := w.chans[c], w.logs[c];
    var i := ch.sendq[k];
    var val := w.sudogs[i].val;
    var ch' := ch.(sendq := ch.sendq[k + 1..]);
    var log' := log.(sent := log.sent + [val], taken := log.taken + [(|log.sent|, val)]);
    var w1 := w.(chans := w.chans[c := ch'], logs := w.logs[c := log']);
    UnbufferedStaysNamed(Pub(w), w.chans, w.logs, c, ch', log');
    assert ClocksAgree(w1) && Pub(w1) == Pub(w);
    MeetKeepsNames(w1, g, i);
  }

  lemma TakeFromKeepsLogs(w: World, g: Gid, c: ChanId, k: nat)
    requires Matched(w) && MeetingLogsOk(w) && g in w.gs && KnownChan(w, c) && w.chans[c].capacity == 0
    requires k < |w.chans[c].sendq| && Live(w, w.chans[c].sendq[k])
    ensures MeetingLogsOk(TakeFrom(w, g, c, k))
  {
    var i, w' := w.chans[c].sendq[k], TakeFrom(w, g, c, k);
    assert QueueOk(w, w.chans[c].sendq, c, true) && On(w, i, c, true);
    forall d | d in w'.chans && d in w'.logs && w'.chans[d].capacity == 0
      ensures MeetingLogOk(w', d, w'.logs[d])
    {
      assert MeetingLogOk(w, d, w.logs[d]);
      assert i !in w.logs[d].pending;
      LogStaysOk(w, w', d, w.logs[d]);
      if d == c {
        TakenLogOk(w', c, w.logs[c], w.sudogs[i].val);
      }
    }
  }

  lemma TakeFromKeepsInv(w: World, g: Gid, c: ChanId, k: nat)
    requires Inv(w) && g in w.gs && KnownChan(w, c) && w.chans[c].capacity == 0
    requires k < |w.chans[c].sendq| && Live(w, w.chans[c].sendq[k])
    requires forall j :: 0 <= j < k ==> !Live(w, w.chans[c].sendq[j])
    ensures Inv(TakeFrom(w, g, c, k))
  {
    var i, w' := w.chans[c].sendq[k], TakeFrom(w, g, c, k);
    assert QueueOk(w, w.chans[c].sendq, c, true) && On(w, i, c, true);
    assert Completes(w, w', c, true, k);
    CompletionKeepsMatched(w, w', c, true, k);
    CompletionKeepsWaits(w, w', c, true, k);
    TakeFromKeepsLogs(w, g, c, k);
    TakeFromKeepsNames(w, g, c, k);
  }

  // ------------------------------------------------------------------
  // Buffers and closing

  /** w' may differ from w in clocks, buffers, closed flags, and the logs of buffered channels. */
  ghost predicate SameButContents(w: World, w': World) {
    && w'.sudogs == w.sudogs && w'.sels == w.sels
    && w.syncs.Keys <= w'.syncs.Keys
    && w'.chans.Keys == w.chans.Keys && w'.logs.Keys == w.logs.Keys
    && (forall c :: c in w.chans ==>
          && w'.chans[c].capacity == w.chans[c].capacity
          && w'.chans[c].recvq == w.chans[c].recvq && w'.chans[c].sendq == w.chans[c].sendq
          && (w.chans[c].closed ==> w'.chans[c].closed))
    && (forall c :: c in w.logs ==> w'.logs[c] == w.logs[c] || (c in w.chans && w.chans[c].capacity > 0))
    && w'.gs.Keys == w.gs.Keys
    && (forall g :: g in w.gs ==> w'.gs[g].wait == w.gs[g].wait)
  }

  lemma ContentsKeepMatched(w: World, w': World)
    requires Matched(w) && SameButContents(w, w')
    ensures Matched(w')
  {
    assert forall i: nat :: Live(w', i) <==> Live(w, i);
    forall c | c in w'.chans
      ensures QueueOk(w', w'.chans[c].recvq, c, false) && QueueOk(w', w'.chans[c].sendq, c, true)
    {
      assert QueueOk(w, w.chans[c].recvq, c, false) && QueueOk(w, w.chans[c].sendq, c, true);
    }
  }

  lemma ContentsDoNotMatter(w: World, w': World)
    requires Matched(w) && MeetingLogsOk(w) && WaitsOk(w) && SameButContents(w, w')
    ensures Matched(w') && MeetingLogsOk(w') && WaitsOk(w')
  {
    ContentsKeepMatched(w, w');
    forall c | c in w'.chans && c in w'.logs && w'.chans[c].capacity == 0
      ensures MeetingLogOk(w', c, w'.logs[c])
    {
      LogStaysOk(w, w', c, w.logs[c]);
    }
    forall g | g in w'.gs
      ensures WaitOk(w', g)
    {
      assert WaitOk(w, g);
    }
  }

  lemma ChanReplaced(pub: map<Token, VC>, t: Token, clock: VC, chans: map<ChanId, Chan>, logs: map<ChanId, Log>, c: ChanId, ch: Chan, log: Log)
    requires ChansNamed(pub, chans, logs) && c in chans && About(t, c)
    requires ChanNamed(pub[t := clock], c, ch, log)
    ensures ChansNamed(pub[t := clock], chans[c := ch], logs[c := log])
  {
    forall d | d in chans
      ensures ChanNamed(pub[t := clock], d, chans[c := ch][d], logs[c := log][d])
    {
      if d != c {
        OtherChanStaysNamed(pub, t, clock, d, chans[d], logs[d], chans[d]);
      }
    }
  }

  /** Once C values have been sent, a send finds the clock of the receive C places earlier kept. */
  lemma KthReceiveMeetsSend(pub: map<Token, VC>, c: ChanId, ch: Chan, log: Log)
    requires ch.capacity > 0 && BufferOk(pub, c, ch, log) && |ch.buf| < ch.capacity
    ensures ch.nsent >= ch.capacity <==> SlotFreed(ch)
    ensures ch.nsent >= ch.capacity ==> Names(pub, RecvOf(c, ch.nsent - ch.capacity), Some(ch.recvClocks[0]))
  {
    if ch.nsent >= ch.capacity {
      assert Merged(ch, log) + 0 == ch.nsent - ch.capacity;
    }
  }

  lemma BufPutBuffer(pub: map<Token, VC>, c: ChanId, ch: Chan, log: Log, val: Value, clock: VC, ch': Chan, log': Log)
    requires ch.capacity > 0 && ChanNamed(pub, c, ch, log) && |ch.buf| < ch.capacity
    requires log' == log.(sent := log.sent + [val])
    requires ch' == ch.(recvClocks := if SlotFreed(ch) then ch.recvClocks[1..] else ch.recvClocks,
                        nsent := ch.nsent + 1, buf := ch.buf + [Item(val, clock)])
    ensures ChanNamed(pub[SendOf(c, ch.nsent) := clock], c, ch', log')
  {
    var pub' := pub[SendOf(c, ch.nsent) := clock];
    KthReceiveMeetsSend(pub, c, ch, log);
    forall j | 0 <= j < |ch'.buf|
      ensures Names(pub', SendOf(c, |log'.taken| + j), Some(ch'.buf[j].clock)) && ch'.buf[j].val == log'.sent[|log'.taken| + j]
    {
      if j < |ch.buf| {
        assert Names(pub, SendOf(c, |log.taken| + j), Some(ch.buf[j].clock));
      }
    }
    forall j | 0 <= j < |ch'.recvClocks|
      ensures Names(pub', RecvOf(c, Merged(ch', log') + j), Some(ch'.recvClocks[j]))
    {
      var d := Merged(ch', log') - Merged(ch, log);
      assert Names(pub, RecvOf(c, Merged(ch, log) + (d + j)), Some(ch.recvClocks[d + j]));
    }
  }

  /** The clocks of w1 carry over to a world with the same goroutines and trace. */
  lemma ClocksCarryOver(w1: World, w': World)
    requires ClocksAgree(w1) && w'.gs == w1.gs && w'.trace == w1.trace && w'.next == w1.next
    ensures ClocksAgree(w') && Pub(w') == Pub(w1)
  {
  }

  /** Publishing one clock about channel c and changing only c's contents keeps clocks named. */
  lemma ChanUpdateKeepsNames(w: World, w1: World, w': World, g: Gid, c: ChanId, t: Token)
    requires Named(w) && c in w.chans && About(t, c)
    requires ClocksAgree(w1) && Pub(w1) == Pub(w) && g in w1.gs && t !in Pub(w1)
    requires w'.gs == Publish(w1, g, t).gs && w'.trace == Publish(w1, g, t).trace && w'.next == w1.next
    requires w'.sudogs == w.sudogs && w'.syncs == w.syncs
    requires c in w'.chans && c in w'.logs && w'.chans == w.chans[c := w'.chans[c]] && w'.logs == w.logs[c := w'.logs[c]]
    requires ChanNamed(Pub(w)[t := w1.gs[g].clock], c, w'.chans[c], w'.logs[c])
    ensures Named(w')
  {
    var clock := w1.gs[g].clock;
    PublishAgrees(w1, g, t);
    ClocksCarryOver(Publish(w1, g, t), w');
    ChanReplaced(Pub(w), t, clock, w.chans, w.logs, c, w'.chans[c], w'.logs[c]);
    SudogsStayNamed(Pub(w), t, clock, w.sudogs);
    SyncsStayNamed(Pub(w), t, clock, w.syncs);
  }

  lemma MergeFreedAgrees(w: World, g: Gid, c: ChanId)
    requires Named(w) && g in w.gs && c in w.chans && w.chans[c].capacity > 0 && |w.chans[c].buf| < w.chans[c].capacity
    ensures ClocksAgree(MergeFreed(w, g, c)) && Pub(MergeFreed(w, g, c)) == Pub(w)
  {
    var ch := w.chans[c];
    assert ChanNamed(Pub(w), c, ch, w.logs[c]);
    KthReceiveMeetsSend(Pub(w), c, ch, w.logs[c]);
    if SlotFreed(ch) {
      MergeAgrees(w, g, ch.recvClocks[0], RecvOf(c, ch.nsent - ch.capacity));
    }
  }

  lemma BufPutKeepsNames(w: World, g: Gid, c: ChanId, val: Value)
    requires Named(w) && g in w.gs && c in w.chans && c in w.logs
    requires w.chans[c].capacity > 0 && |w.chans[c].buf| < w.chans[c].capacity
    ensures Named(BufPut(w, g, c, val))
  {
    var ch, log, w' := w.chans[c], w.logs[c], BufPut(w, g, c, val);
    assert ChanNamed(Pub(w), c, ch, log);
    var w1 := MergeFreed(w, g, c);
    MergeFreedAgrees(w, g, c);
    BufPutBuffer(Pub(w), c, ch, log, val, w1.gs[g].clock, w'.chans[c], w'.logs[c]);
    ChanUpdateKeepsNames(w, w1, w', g, c, SendOf(c, ch.nsent));
  }

  lemma BufPutIsLocal(w: World, g: Gid, c: ChanId, val: Value)
    requires g in w.gs && c in w.chans && c in w.logs && w.chans[c].capacity > 0
    ensures SameButContents(w, BufPut(w, g, c, val))
  {
  }

  lemma BufPutKeepsInv(w: World, g: Gid, c: ChanId, val: Value)
    requires Inv(w) && g in w.gs && KnownChan(w, c) && w.chans[c].capacity > 0 && |w.chans[c].buf| < w.chans[c].capacity
    ensures Inv(BufPut(w, g, c, val))
  {
    BufPutKeepsNames(w, g, c, val);
    BufPutIsLocal(w, g, c, val);
    ContentsDoNotMatter(w, BufPut(w, g, c, val));
  }

  lemma BufTakeBuffer(pub: map<Token, VC>, c: ChanId, ch: Chan, log: Log, clock: VC, ch': Chan, log': Log)
    requires ch.capacity > 0 && ChanNamed(pub, c, ch, log) && |ch.buf| > 0
    requires log' == log.(taken := log.taken + [(|log.taken|, ch.buf[0].val)])
    requires ch' == ch.(recvClocks := ch.recvClocks + [clock], buf := ch.buf[1..])
    ensures ChanNamed(pub[RecvOf(c, |log.taken|) := clock], c, ch', log')
  {
    var pub' := pub[RecvOf(c, |log.taken|) := clock];
    forall j | 0 <= j < |ch'.buf|
      ensures Names(pub', SendOf(c, |log'.taken| + j), Some(ch'.buf[j].clock)) && ch'.buf[j].val == log'.sent[|log'.taken| + j]
    {
      assert Names(pub, SendOf(c, |log.taken| + (j + 1)), Some(ch.buf[j + 1].clock));
    }
    forall j | 0 <= j < |ch'.recvClocks|
      ensures Names(pub', RecvOf(c, Merged(ch', log') + j), Some(ch'.recvClocks[j]))
    {
      if j < |ch.recvClocks| {
        assert Names(pub, RecvOf(c, Merged(ch, log) + j), Some(ch.recvClocks[j]));
      }
    }
  }

  lemma BufTakeKeepsNames(w: World, g: Gid, c: ChanId)
    requires Named(w) && g in w.gs && c in w.chans && c in w.logs && |w.chans[c].buf| > 0
    ensures Named(BufTake(w, g, c))
  {
    var ch, log, w' := w.chans[c], w.logs[c], BufTake(w, g, c);
    assert ChanNamed(Pub(w), c, ch, log);
    var k := |log.taken|;
    assert Names(Pub(w), SendOf(c, |log.taken| + 0), Some(ch.buf[0].clock));
    var w1 := Merge(w, g, ch.buf[0].clock, SendOf(c, k));
    MergeAgrees(w, g, ch.buf[0].clock, SendOf(c, k));
    BufTakeBuffer(Pub(w), c, ch, log, w1.gs[g].clock, w'.chans[c], w'.logs[c]);
    ChanUpdateKeepsNames(w, w1, w', g, c, RecvOf(c, k));
  }

  lemma BufTakeIsLocal(w: World, g: Gid, c: ChanId)
    requires g in w.gs && c in w.chans && c in w.logs && w.chans[c].capacity > 0 && |w.chans[c].buf| > 0
    ensures SameButContents(w, BufTake(w, g, c))
  {
  }

  lemma BufTakeKeepsInv(w: World, g: Gid, c: ChanId)
    requires Inv(w) && g in w.gs && KnownChan(w, c) && |w.chans[c].buf| > 0
    ensures Inv(BufTake(w, g, c))
  {
    assert ChanNamed(Pub(w), c, w.chans[c], w.logs[c]);
    BufTakeKeepsNames(w, g, c);
    BufTakeIsLocal(w, g, c);
    ContentsDoNotMatter(w, BufTake(w, g, c));
  }

  lemma ClosedStaysNamed(pub: map<Token, VC>, c: ChanId, ch: Chan, log: Log, clock: VC)
    requires ChanNamed(pub, c, ch, log) && !ch.closed
    ensures ChanNamed(pub[CloseOf(c) := clock], c, ch.(closed := true, closeClock := Some(clock)), log)
  {
    var pub' := pub[CloseOf(c) := clock];
    if ch.capacity > 0 {
      forall j | 0 <= j < |ch.buf|
        ensures Names(pub', SendOf(c, |log.taken| + j), Some(ch.buf[j].clock))
      {
        assert Names(pub, SendOf(c, |log.taken| + j), Some(ch.buf[j].clock));
      }
      forall j | 0 <= j < |ch.recvClocks|
        ensures Names(pub', RecvOf(c, Merged(ch, log) + j), Some(ch.recvClocks[j]))
      {
        assert Names(pub, RecvOf(c, Merged(ch, log) + j), Some(ch.recvClocks[j]));
      }
    }
  }

  lemma CloseKeepsNames(w: World, g: Gid, c: ChanId)
    requires Named(w) && g in w.gs && c in w.chans && !w.chans[c].closed
    ensures Named(Close(w, g, c).0)
  {
    var w', t, clock := Close(w, g, c).0, CloseOf(c), w.gs[g].clock;
    assert ChanNamed(Pub(w), c, w.chans[c], w.logs[c]);
    ClosedStaysNamed(Pub(w), c, w.chans[c], w.logs[c], clock);
    assert w.logs[c := w.logs[c]] == w.logs;
    ChanUpdateKeepsNames(w, w, w', g, c, t);
  }

  lemma CloseKeepsRest(w: World, g: Gid, c: ChanId)
    requires Matched(w) && MeetingLogsOk(w) && WaitsOk(w) && g in w.gs && c in w.chans && !w.chans[c].closed
    ensures var w' := Close(w, g, c).0; Matched(w') && MeetingLogsOk(w') && WaitsOk(w')
  {
    ContentsDoNotMatter(w, Close(w, g, c).0);
  }

  lemma CloseKeepsInv(w: World, g: Gid, c: ChanId)
    requires Inv(w) && g in w.gs
    ensures Inv(Close(w, g, c).0)
  {
    if c in w.chans && !w.chans[c].closed {
      CloseKeepsNames(w, g, c);
      CloseKeepsRest(w, g, c);
    }
  }
}
