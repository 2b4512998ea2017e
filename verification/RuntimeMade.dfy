/** What a program's own steps say of its channels: with what capacity each was made, and whether it
    was closed. The interpreter's table agrees in every reachable state. */
module RuntimeMade {
  import opened Clock
  import opened ClockMachine
  import opened Detector
  import opened Runtime
  import opened RuntimeInvariant
  import opened RuntimeRuns

  /** The capacity with which one of the first n steps made c. */
  function MadeWith(acts: seq<Action>, n: nat, c: ChanId): Option<nat>
    requires n <= |acts|
  {
    if n == 0 then None
    else if acts[n - 1].DoMakeChan? && acts[n - 1].c == c then Some(acts[n - 1].capacity)
    else MadeWith(acts, n - 1, c)
  }

  /** One of the first n steps closed c, which had been made. */
  ghost predicate ClosedBy(acts: seq<Action>, n: nat, c: ChanId)
    requires n <= |acts|
  {
    exists m :: 0 <= m < n && acts[m].DoClose? && acts[m].c == c && MadeWith(acts, m, c).Some?
  }

  // ------------------------------------------------------------------
  // Steps

  /** No channel is made, closed or given another capacity. */
  ghost predicate SameChannels(w: World, w': World) {
    && w'.chans.Keys == w.chans.Keys
    && forall c :: c in w.chans ==> w'.chans[c].capacity == w.chans[c].capacity && w'.chans[c].closed == w.chans[c].closed
  }

  lemma SendKeepsChannels(w: World, g: Gid, c: ChanId, val: Value)
    requires g in w.gs && (c in w.chans ==> KnownChan(w, c))
    ensures SameChannels(w, Send(w, g, c, val).0)
  {
  }

  lemma RecvReadyKeepsChannels(w: World, g: Gid, c: ChanId)
    requires g in w.gs && KnownChan(w, c)
    ensures SameChannels(w, RecvReady(w, g, c).0)
  {
  }

  lemma RecvKeepsChannels(w: World, g: Gid, c: ChanId)
    requires g in w.gs && (c in w.chans ==> KnownChan(w, c))
    ensures SameChannels(w, Recv(w, g, c).0)
  {
    if c in w.chans {
      RecvReadyKeepsChannels(w, g, c);
    }
  }

  lemma {:induction false} OffersKeepChannels(w: World, g: Gid, sw: nat, cases: seq<Case>, j: nat)
    requires g in w.gs && j <= |cases|
    ensures SameChannels(w, OfferAll(w, g, sw, cases, j))
    decreases |cases| - j
  {
    if j < |cases| {
      if Offered(w, cases[j]) {
        OffersKeepChannels(Offer(w, g, cases[j].ch.value, cases[j].send, cases[j].val, Some(sw), j), g, sw, cases, j + 1);
      } else {
        OffersKeepChannels(w, g, sw, cases, j + 1);
      }
    }
  }

  lemma CaseKeepsChannels(w: World, g: Gid, cases: seq<Case>, k: nat)
    requires g in w.gs && k < |cases| && KnownCases(w, cases) && cases[k].ch.Some? && cases[k].ch.value in w.chans
    ensures SameChannels(w, SelectCase(w, g, cases, k).0)
  {
    SendKeepsChannels(w, g, cases[k].ch.value, cases[k].val);
    RecvReadyKeepsChannels(w, g, cases[k].ch.value);
  }

  lemma SelectKeepsChannels(w: World, g: Gid, cases: seq<Case>, blocking: bool)
    requires g in w.gs && KnownCases(w, cases)
    ensures SameChannels(w, Select(w, g, cases, blocking).0)
  {
    var k := FirstReady(w, cases, None);
    if k < |cases| {
      CaseKeepsChannels(w, g, cases, k);
    } else {
      OffersKeepChannels(w.(sels := w.sels + [SelectWait(g, false, None)]), g, |w.sels|, cases, 0);
    }
  }

  lemma SelectResumeKeepsChannels(w: World, g: Gid, sw: nat, cases: seq<Case>)
    requires g in w.gs && KnownWait(w, g) && w.gs[g].wait == SelWait(sw, cases)
    ensures SameChannels(w, SelectResume(w, g, sw, cases).0)
  {
    if !w.sels[sw].fired {
      var w1 := SetWait(w, g, NoWait).(sels := w.sels[sw := w.sels[sw].(fired := true)]);
      assert KnownCases(w1, cases);
      var k := FirstReady(w1, cases, None);
      if k < |cases| {
        CaseKeepsChannels(w1, g, cases, k);
      }
    }
  }

  lemma ResumeKeepsChannels(w: World, g: Gid)
    requires g in w.gs && KnownWait(w, g)
    ensures SameChannels(w, Resume(w, g).0)
  {
    if w.gs[g].wait.SelWait? {
      SelectResumeKeepsChannels(w, g, w.gs[g].wait.sw, w.gs[g].wait.cases);
    } else if w.gs[g].wait.BufRecvWait? {
      var w0 := SetWait(w, g, NoWait);
      assert KnownChan(w0, w.gs[g].wait.ch);
      RecvReadyKeepsChannels(w0, g, w.gs[g].wait.ch);
    }
  }

  lemma SyncKeepsChannels(w: World, a: Action, w': World)
    requires NoDangling(w) && Allowed(w, a) && w' == Step(w, a).0
    requires OnMutex(a) || a.DoGroupAdd? || a.DoGroupWait?
    ensures w'.chans == w.chans
  {
    assert MakeSync(w, a.key).chans == w.chans;
    if OnMutex(a) {
      MutexStep(w, a);
    }
  }

  /** The channels of w' are those of w, but for what a make or a close does. */
  ghost predicate MakesAndCloses(w: World, a: Action, w': World) {
    && (forall c :: c in w'.chans <==> c in w.chans || (a.DoMakeChan? && a.c == c))
    && (forall c :: c in w.chans ==>
          && w'.chans[c].capacity == w.chans[c].capacity
          && (w'.chans[c].closed <==> w.chans[c].closed || (a.DoClose? && a.c == c)))
    && (forall c :: c in w'.chans && c !in w.chans ==> w'.chans[c].capacity == a.capacity && !w'.chans[c].closed)
  }

  lemma StepMakesAndCloses(w: World, a: Action, w': World)
    requires NoDangling(w) && Allowed(w, a) && w' == Step(w, a).0
    ensures MakesAndCloses(w, a, w')
  {
    if a.DoSend? {
      SendKeepsChannels(w, a.g, a.c, a.val);
    } else if a.DoRecv? {
      RecvKeepsChannels(w, a.g, a.c);
    } else if a.DoSelect? {
      SelectKeepsChannels(w, a.g, a.cases, a.blocking);
    } else if a.DoResume? {
      ResumeKeepsChannels(w, a.g);
    } else if OnMutex(a) || a.DoGroupAdd? || a.DoGroupWait? {
      SyncKeepsChannels(w, a, w');
    }
  }

  // ------------------------------------------------------------------
  // Runs

  /** In every reachable state a channel exists exactly if a step made it, it has the capacity it was made
      with, and it is closed exactly if a step closed it. */
  lemma {:induction false} ChannelsAreAsMade(e: Execution, n: nat, c: ChanId)
    requires IsExecution(e) && n < |e.worlds|
    ensures c in e.worlds[n].chans <==> MadeWith(e.acts, n, c).Some?
    ensures c in e.worlds[n].chans ==>
      && MadeWith(e.acts, n, c) == Some(e.worlds[n].chans[c].capacity)
      && (e.worlds[n].chans[c].closed <==> ClosedBy(e.acts, n, c))
  {
    if n > 0 {
      var m := n - 1;
      ChannelsAreAsMade(e, m, c);
      var w, a := e.worlds[m], e.acts[m];
      assert Allowed(w, a) && e.worlds[m + 1] == Step(w, a).0;
      StepMakesAndCloses(w, a, e.worlds[n]);
      ClosesOneMore(e.acts, m, c);
    }
  }

  lemma ClosesOneMore(acts: seq<Action>, m: nat, c: ChanId)
    requires m < |acts|
    ensures ClosedBy(acts, m + 1, c) <==> ClosedBy(acts, m, c) || (acts[m].DoClose? && acts[m].c == c && MadeWith(acts, m, c).Some?)
    ensures ClosedBy(acts, m, c) ==> MadeWith(acts, m, c).Some?
  {
    if ClosedBy(acts, m, c) {
      var k :| 0 <= k < m && acts[k].DoClose? && acts[k].c == c && MadeWith(acts, k, c).Some?;
      MadeStays(acts, k, m, c);
    }
  }

  lemma {:induction false} MadeStays(acts: seq<Action>, k: nat, n: nat, c: ChanId)
    requires k <= n <= |acts| && MadeWith(acts, k, c).Some?
    ensures MadeWith(acts, n, c).Some?
  {
    if k < n {
      MadeStays(acts, k, n - 1, c);
    }
  }

  /** If step m makes channel c with room for n values, it has room for n in every later state. */
  lemma CapacityIsAsMade(e: Execution, m: nat, n: nat, c: ChanId)
    requires IsExecution(e) && m < n < |e.worlds| && e.acts[m].DoMakeChan? && e.acts[m].c == c
    ensures c in e.worlds[n].chans && e.worlds[n].chans[c].capacity == e.acts[m].capacity
  {
    MadeOnce(e, m, n, c);
    ChannelsAreAsMade(e, n, c);
  }

  lemma {:induction false} MadeOnce(e: Execution, m: nat, n: nat, c: ChanId)
    requires IsExecution(e) && m < n < |e.worlds| && e.acts[m].DoMakeChan? && e.acts[m].c == c
    ensures MadeWith(e.acts, n, c) == Some(e.acts[m].capacity)
  {
    if m < n - 1 {
      MadeOnce(e, m, n - 1, c);
      ChannelsAreAsMade(e, n - 1, c);
      assert Allowed(e.worlds[n - 1], e.acts[n - 1]);
    }
  }
}
