/** The channel operations as the interpreter performs them: methods that update its tables in
    place, each proved to take the step that the runtime's specification gives. Every operation
    runs without interruption up to its wait; a wait is recorded in the goroutine, and ResumeWait or
    AbortWait runs the rest. Sudogs, select waits and channels are entries of the interpreter's
    tables. */
module ChannelOps {
  import opened Clock
  import opened ClockMachine
  import opened Detector
  import opened Runtime
  import opened RuntimeInvariant
  import opened RuntimeRuns

  class Interpreter {
    var next: Gid
    var goroutines: map<Gid, Goroutine>
    var channels: map<ChanId, Chan>
    var sudogs: seq<Sudog>
    var sels: seq<SelectWait>
    var syncs: map<int, Sync>
    ghost var trace: seq<Op>
    ghost var logs: map<ChanId, Log>

    ghost function Snapshot(): World
      reads this
    {
      World(next, goroutines, channels, sudogs, sels, syncs, trace, logs)
    }

    constructor ()
      ensures Snapshot() == Fresh
    {
      next, goroutines, channels, sudogs, sels, syncs := 1, map[], map[], [], [], map[];
      trace, logs := [], map[];
    }

    // ----------------------------------------------------------------
    // Queues

    predicate IsLive(i: nat)
      reads this
      ensures IsLive(i) == Live(Snapshot(), i)
    {
      && i < |sudogs| && !sudogs[i].done
      && !(sudogs[i].sel.Some? && sudogs[i].sel.value < |sels| && sels[sudogs[i].sel.value].fired)
    }

    /** popLive's search: the first live sudog of q, or |q|. */
    method FindLive(q: seq<nat>) returns (k: nat)
      ensures k == FirstLive(Snapshot(), q)
    {
      k := 0;
      while k < |q| && !IsLive(q[k])
        invariant 0 <= k <= |q|
        invariant forall j :: 0 <= j < k ==> !Live(Snapshot(), q[j])
      {
        k := k + 1;
      }
    }

    /** hasLive. */
    method AnyLive(q: seq<nat>, notSel: Option<nat>) returns (b: bool)
      ensures b == HasLive(Snapshot(), q, notSel)
    {
      var k := 0;
      while k < |q|
        invariant 0 <= k <= |q|
        invariant forall j :: 0 <= j < k ==> !Counts(Snapshot(), q[j], notSel)
      {
        if IsLive(q[k]) && (sudogs[q[k]].sel.None? || sudogs[q[k]].sel != notSel) {
          return true;
        }
        k := k + 1;
      }
      return false;
    }

    method RecvWouldProceed(c: ChanId, self: Option<nat>) returns (b: bool)
      requires c in channels
      ensures b == CanRecv(Snapshot(), c, self)
    {
      var ch := channels[c];
      if |ch.buf| > 0 || ch.closed {
        return true;
      }
      b := false;
      if ch.capacity == 0 {
        b := AnyLive(ch.sendq, self);
      }
    }

    method SendWouldProceed(c: ChanId, self: Option<nat>) returns (b: bool)
      requires c in channels
      ensures b == CanSend(Snapshot(), c, self)
    {
      var ch := channels[c];
      if ch.closed {
        return true;
      }
      if ch.capacity > 0 {
        return |ch.buf| < ch.capacity;
      }
      b := AnyLive(ch.recvq, self);
    }

    // ----------------------------------------------------------------
    // Clocks

    method ReleaseClock(g: Gid, ghost t: Token) returns (snap: VC)
      requires g in goroutines
      modifies this`goroutines, this`trace
      ensures Snapshot() == Publish(old(Snapshot()), g, t)
      ensures snap == old(goroutines[g].clock)
    {
      snap := goroutines[g].clock;
      goroutines := goroutines[g := goroutines[g].(clock := Tick(snap, g))];
      trace := trace + [Release(g, t)];
    }

    method AcquireClock(g: Gid, clock: VC, ghost t: Token)
      requires g in goroutines
      modifies this`goroutines, this`trace
      ensures Snapshot() == Merge(old(Snapshot()), g, clock, t)
    {
      goroutines := goroutines[g := goroutines[g].(clock := Join(goroutines[g].clock, clock))];
      trace := trace + [Acquire(g, t)];
    }

    method AcquireIfAny(g: Gid, clock: Option<VC>, ghost t: Token)
      requires g in goroutines
      modifies this`goroutines, this`trace
      ensures Snapshot() == MergeIf(old(Snapshot()), g, clock, t)
    {
      if clock.Some? {
        AcquireClock(g, clock.value, t);
      }
    }

    method TickClock(g: Gid)
      requires g in goroutines
      modifies this`goroutines, this`trace
      ensures Snapshot() == TickNow(old(Snapshot()), g)
    {
      goroutines := goroutines[g := goroutines[g].(clock := Tick(goroutines[g].clock, g))];
      trace := trace + [TickOwn(g)];
    }

    method Park(g: Gid, wait: Wait)
      requires g in goroutines
      modifies this`goroutines
      ensures Snapshot() == SetWait(old(Snapshot()), g, wait)
    {
      goroutines := goroutines[g := goroutines[g].(wait := wait)];
    }

    // ----------------------------------------------------------------
    // Unbuffered rendezvous

    method Enqueue(g: Gid, c: ChanId, send: bool, val: Value, sel: Option<nat>, caseIdx: nat) returns (i: nat)
      requires g in goroutines && c in channels
      modifies this
      ensures Snapshot() == Offer(old(Snapshot()), g, c, send, val, sel, caseIdx)
      ensures i == old(|sudogs|)
    {
      i := |sudogs|;
      var clock := ReleaseClock(g, OfferOf(i));
      sudogs := sudogs + [Sudog(g, c, send, val, clock, None, false, sel, caseIdx)];
      var ch := channels[c];
      if send {
        channels := channels[c := ch.(sendq := ch.sendq + [i])];
      } else {
        channels := channels[c := ch.(recvq := ch.recvq + [i])];
      }
    }

    method ClaimSudog(i: nat, peer: VC)
      requires i < |sudogs|
      modifies this`sudogs, this`sels
      ensures Snapshot() == Claim(old(Snapshot()), i, peer)
    {
      var sel := sudogs[i].sel;
      sudogs := sudogs[i := sudogs[i].(done := true, peer := Some(peer))];
      if sel.Some? && sel.value < |sels| {
        sels := sels[sel.value := sels[sel.value].(fired := true, sg := Some(i))];
      }
    }

    /** Meets waiting sudog i: merge its clock, then claim it with a snapshot of this side's. */
    method MeetSudog(g: Gid, i: nat)
      requires g in goroutines && i < |sudogs|
      modifies this`goroutines, this`trace, this`sudogs, this`sels
      ensures Snapshot() == Meet(old(Snapshot()), g, i)
    {
      AcquireClock(g, sudogs[i].clock, OfferOf(i));
      var peer := ReleaseClock(g, ReplyOf(i));
      ClaimSudog(i, peer);
    }

    method GiveToReceiver(g: Gid, c: ChanId, k: nat, val: Value)
      requires g in goroutines && KnownChan(Snapshot(), c) && k < |channels[c].recvq|
      modifies this
      ensures Snapshot() == GiveTo(old(Snapshot()), g, c, k, val)
    {
      var ch := channels[c];
      var i := ch.recvq[k];
      channels := channels[c := ch.(recvq := ch.recvq[k + 1..])];
      sudogs := sudogs[i := sudogs[i].(val := val)];
      logs := logs[c := logs[c].(sent := logs[c].sent + [val], pending := logs[c].pending[i := |logs[c].sent|])];
      MeetSudog(g, i);
    }

    method TakeFromSender(g: Gid, c: ChanId, k: nat) returns (val: Value)
      requires g in goroutines && KnownChan(Snapshot(), c) && k < |channels[c].sendq|
      modifies this
      ensures Snapshot() == TakeFrom(old(Snapshot()), g, c, k)
      ensures val == old(sudogs[channels[c].sendq[k]].val)
    {
      var ch := channels[c];
      var i := ch.sendq[k];
      val := sudogs[i].val;
      channels := channels[c := ch.(sendq := ch.sendq[k + 1..])];
      logs := logs[c := logs[c].(sent := logs[c].sent + [val], taken := logs[c].taken + [(|logs[c].sent|, val)])];
      MeetSudog(g, i);
    }

    // ----------------------------------------------------------------
    // Send, receive, close

    method BufferedSend(g: Gid, c: ChanId, val: Value)
      requires g in goroutines && KnownChan(Snapshot(), c)
      modifies this
      ensures Snapshot() == BufPut(old(Snapshot()), g, c, val)
    {
      var ch := channels[c];
      if ch.nsent >= ch.capacity && |ch.recvClocks| > 0 {
        AcquireClock(g, ch.recvClocks[0], RecvOf(c, ch.nsent - ch.capacity));
        ch := ch.(recvClocks := ch.recvClocks[1..]);
      }
      var clock := ReleaseClock(g, SendOf(c, ch.nsent));
      channels := channels[c := ch.(nsent := ch.nsent + 1, buf := ch.buf + [Item(val, clock)])];
      logs := logs[c := logs[c].(sent := logs[c].sent + [val])];
    }

    method SendNow(g: Gid, c: ChanId, val: Value) returns (out: Outcome)
      requires g in goroutines && KnownChan(Snapshot(), c)
      modifies this
      ensures (Snapshot(), out) == SendReady(old(Snapshot()), g, c, val)
    {
      if channels[c].closed {
        return Panicked("send on closed channel");
      }
      BufferedSend(g, c, val);
      return Outcome.Done;
    }

    method ChanSend(g: Gid, c: ChanId, val: Value) returns (out: Outcome)
      requires g in goroutines && (c in channels ==> KnownChan(Snapshot(), c))
      modifies this
      ensures (Snapshot(), out) == Send(old(Snapshot()), g, c, val)
    {
      if c !in channels {
        return Outcome.Done;
      }
      var ch := channels[c];
      if ch.capacity > 0 || ch.closed {
        var ready := SendWouldProceed(c, None);
        if ready {
          out := SendNow(g, c, val);
        } else {
          Park(g, BufSendWait(c, val));
          out := Parked;
        }
        return;
      }
      var k := FindLive(ch.recvq);
      if k < |ch.recvq| {
        GiveToReceiver(g, c, k, val);
        return Outcome.Done;
      }
      var i := Enqueue(g, c, true, val, None, 0);
      Park(g, SendWait(c, i));
      return Parked;
    }

    method ReceiveClosed(g: Gid, c: ChanId) returns (out: Outcome)
      requires g in goroutines && KnownChan(Snapshot(), c)
      modifies this`goroutines, this`trace
      ensures (Snapshot(), out) == RecvClosed(old(Snapshot()), g, c)
    {
      AcquireIfAny(g, channels[c].closeClock, CloseOf(c));
      return RecvDone(ZERO, false);
    }

    method TakeBuffered(g: Gid, c: ChanId) returns (val: Value)
      requires g in goroutines && KnownChan(Snapshot(), c) && |channels[c].buf| > 0
      modifies this
      ensures Snapshot() == BufTake(old(Snapshot()), g, c)
      ensures val == old(channels[c].buf[0].val)
    {
      var ch := channels[c];
      ghost var k := |logs[c].taken|;
      val := ch.buf[0].val;
      AcquireClock(g, ch.buf[0].clock, SendOf(c, k));
      var snap := ReleaseClock(g, RecvOf(c, k));
      ch := ch.(buf := ch.buf[1..]);
      if ch.capacity > 0 {
        ch := ch.(recvClocks := ch.recvClocks + [snap]);
      }
      channels := channels[c := ch];
      logs := logs[c := logs[c].(taken := logs[c].taken + [(k, val)])];
    }

    method ReceiveNow(g: Gid, c: ChanId) returns (out: Outcome)
      requires g in goroutines && KnownChan(Snapshot(), c)
      modifies this
      ensures (Snapshot(), out) == RecvReady(old(Snapshot()), g, c)
    {
      var ch := channels[c];
      if |ch.buf| > 0 {
        var v := TakeBuffered(g, c);
        return RecvDone(v, true);
      }
      if ch.capacity == 0 && !ch.closed {
        var k := FindLive(ch.sendq);
        if k < |ch.sendq| {
          var v := TakeFromSender(g, c, k);
          return RecvDone(v, true);
        }
      }
      out := ReceiveClosed(g, c);
    }

    method ChanRecv(g: Gid, c: ChanId) returns (out: Outcome)
      requires g in goroutines && (c in channels ==> KnownChan(Snapshot(), c))
      modifies this
      ensures (Snapshot(), out) == Recv(old(Snapshot()), g, c)
    {
      if c !in channels {
        return RecvDone(ZERO, true);
      }
      var ch := channels[c];
      if ch.capacity == 0 && !ch.closed {
        var k := FindLive(ch.sendq);
        if k < |ch.sendq| {
          var v := TakeFromSender(g, c, k);
          return RecvDone(v, true);
        }
        var i := Enqueue(g, c, false, ZERO, None, 0);
        Park(g, RecvWait(c, i));
        return Parked;
      }
      var ready := RecvWouldProceed(c, None);
      if ready {
        out := ReceiveNow(g, c);
      } else {
        Park(g, BufRecvWait(c));
        out := Parked;
      }
    }

    method ChannelClose(g: Gid, c: ChanId) returns (out: Outcome)
      requires g in goroutines
      modifies this
      ensures (Snapshot(), out) == Close(old(Snapshot()), g, c)
    {
      if c !in channels {
        return Outcome.Done;
      }
      if channels[c].closed {
        return Panicked("close of closed channel");
      }
      var clock := ReleaseClock(g, CloseOf(c));
      channels := channels[c := channels[c].(closed := true, closeClock := Some(clock))];
      return Outcome.Done;
    }

    // ----------------------------------------------------------------
    // Select

    method CaseWouldProceed(cs: Case, self: Option<nat>) returns (b: bool)
      ensures b == CaseReady(Snapshot(), cs, self)
    {
      if cs.ch.None? || cs.ch.value !in channels {
        return false;
      }
      if cs.send {
        b := SendWouldProceed(cs.ch.value, self);
      } else {
        b := RecvWouldProceed(cs.ch.value, self);
      }
    }

    /** The first ready case in source order, or |cases|. */
    method FindReady(cases: seq<Case>, self: Option<nat>) returns (k: nat)
      ensures k == FirstReady(Snapshot(), cases, self)
    {
      k := 0;
      while k < |cases|
        invariant 0 <= k <= |cases|
        invariant forall j :: 0 <= j < k ==> !CaseReady(Snapshot(), cases[j], self)
      {
        var ready := CaseWouldProceed(cases[k], self);
        if ready {
          return;
        }
        k := k + 1;
      }
    }

    /** Offers every case on an unbuffered channel to counterparts. */
    method OfferCases(g: Gid, sw: nat, cases: seq<Case>)
      requires g in goroutines
      modifies this
      ensures Snapshot() == OfferAll(old(Snapshot()), g, sw, cases, 0)
    {
      for j := 0 to |cases|
        invariant g in goroutines
        invariant OfferAll(Snapshot(), g, sw, cases, j) == OfferAll(old(Snapshot()), g, sw, cases, 0)
      {
        var cs := cases[j];
        if cs.ch.Some? && cs.ch.value in channels && channels[cs.ch.value].capacity == 0 {
          var _ := Enqueue(g, cs.ch.value, cs.send, cs.val, Some(sw), j);
        }
      }
    }

    method RunCase(g: Gid, cases: seq<Case>, k: nat) returns (out: Outcome)
      requires g in goroutines && k < |cases| && KnownCases(Snapshot(), cases)
      requires cases[k].ch.Some? && cases[k].ch.value in channels
      modifies this
      ensures (Snapshot(), out) == SelectCase(old(Snapshot()), g, cases, k)
    {
      if cases[k].send {
        out := ChanSend(g, cases[k].ch.value, cases[k].val);
        if out == Outcome.Done {
          out := SelectDone(k, ZERO, false);
        }
      } else {
        out := ReceiveNow(g, cases[k].ch.value);
        if out.RecvDone? {
          out := SelectDone(k, out.val, out.ok);
        }
      }
    }

    method ExecSelect(g: Gid, cases: seq<Case>, blocking: bool) returns (out: Outcome)
      requires g in goroutines && KnownCases(Snapshot(), cases)
      modifies this
      ensures (Snapshot(), out) == Select(old(Snapshot()), g, cases, blocking)
    {
      var k := FindReady(cases, None);
      if k < |cases| {
        out := RunCase(g, cases, k);
        return;
      }
      if !blocking {
        return SelectDone(|cases|, ZERO, false);
      }
      var sw := |sels|;
      sels := sels + [SelectWait(g, false, None)];
      OfferCases(g, sw, cases);
      Park(g, SelWait(sw, cases));
      return Parked;
    }

    // ----------------------------------------------------------------
    // Waits

    /** The readiness predicate of g's wait. */
    method WaitIsOver(g: Gid) returns (b: bool)
      requires g in goroutines
      ensures b == Ready(Snapshot(), g)
    {
      match goroutines[g].wait
      case NoWait => b := false;
      case Aborted => b := false;
      case SendWait(c, i) => b := (i < |sudogs| && sudogs[i].done) || (c in channels && channels[c].closed);
      case RecvWait(c, i) => b := (i < |sudogs| && sudogs[i].done) || (c in channels && channels[c].closed);
      case BufSendWait(c, _) =>
        b := false;
        if c in channels {
          b := SendWouldProceed(c, None);
        }
      case BufRecvWait(c) =>
        b := false;
        if c in channels {
          b := RecvWouldProceed(c, None);
        }
      case SelWait(sw, cases) =>
        if sw < |sels| && sels[sw].fired {
          return true;
        }
        var k := FindReady(cases, Some(sw));
        b := k < |cases|;
      case GroupWait(key) => b := key in syncs && syncs[key].counter <= 0;
    }

    /** A waiting receiver returns the value it was given. */
    ghost method NoteDelivery(c: ChanId, i: nat)
      requires c in logs && i < |sudogs|
      modifies this`logs
      ensures Snapshot() == Deliver(old(Snapshot()), c, i)
    {
      if i in logs[c].pending {
        logs := logs[c := logs[c].(taken := logs[c].taken + [(logs[c].pending[i], sudogs[i].val)],
                                   pending := logs[c].pending - {i})];
      }
    }

    method ResumeSelect(g: Gid, sw: nat, cases: seq<Case>) returns (out: Outcome)
      requires g in goroutines && KnownWait(Snapshot(), g) && goroutines[g].wait == SelWait(sw, cases)
      modifies this
      ensures (Snapshot(), out) == SelectResume(old(Snapshot()), g, sw, cases)
    {
      Park(g, NoWait);
      if sels[sw].fired {
        var i := sels[sw].sg.value;
        var s := sudogs[i];
        AcquireIfAny(g, s.peer, ReplyOf(i));
        TickClock(g);
        if cases[s.caseIdx].send {
          return SelectDone(s.caseIdx, ZERO, false);
        }
        NoteDelivery(s.ch, i);
        return SelectDone(s.caseIdx, s.val, true);
      }
      sels := sels[sw := sels[sw].(fired := true)];
      var k := FindReady(cases, None);
      if k == |cases| {
        return Panicked("no case");
      }
      assert KnownCases(Snapshot(), cases);
      out := RunCase(g, cases, k);
    }

    /** Completes g's operation once its wait is over. */
    method ResumeWait(g: Gid) returns (out: Outcome)
      requires g in goroutines && KnownWait(Snapshot(), g)
      modifies this
      ensures (Snapshot(), out) == Resume(old(Snapshot()), g)
    {
      match goroutines[g].wait
      case NoWait => return Parked;
      case Aborted => return Parked;
      case SendWait(c, i) =>
        Park(g, NoWait);
        if !sudogs[i].done {
          return Panicked("send on closed channel");
        }
        AcquireIfAny(g, sudogs[i].peer, ReplyOf(i));
        return Outcome.Done;
      case RecvWait(c, i) =>
        Park(g, NoWait);
        if sudogs[i].done {
          AcquireIfAny(g, sudogs[i].peer, ReplyOf(i));
          TickClock(g);
          NoteDelivery(c, i);
          return RecvDone(sudogs[i].val, true);
        }
        out := ReceiveClosed(g, c);
      case BufSendWait(c, val) =>
        Park(g, NoWait);
        out := SendNow(g, c, val);
      case BufRecvWait(c) =>
        Park(g, NoWait);
        out := ReceiveNow(g, c);
      case SelWait(sw, cases) =>
        out := ResumeSelect(g, sw, cases);
      case GroupWait(key) =>
        Park(g, NoWait);
        AcquireIfAny(g, syncs[key].lastUnlock, SyncOf(key, syncs[key].gen));
        return Outcome.Done;
    }

    /** Withdraws what g was offering when its wait is aborted. */
    method AbortWait(g: Gid)
      requires g in goroutines && KnownWait(Snapshot(), g)
      modifies this
      ensures Snapshot() == Abort(old(Snapshot()), g)
    {
      var wait := goroutines[g].wait;
      Park(g, Wait.Aborted);
      match wait
      case SendWait(_, i) =>
        sudogs := sudogs[i := sudogs[i].(done := true)];
      case RecvWait(c, i) =>
        sudogs := sudogs[i := sudogs[i].(done := true)];
        logs := logs[c := logs[c].(pending := logs[c].pending - {i})];
      case SelWait(sw, _) =>
        ghost var fired := sels[sw].fired;
        sels := sels[sw := sels[sw].(fired := true)];
        ghost var i := if fired then sels[sw].sg.value else 0;
        if fired {
          ghost var c := sudogs[i].ch;
          logs := logs[c := logs[c].(pending := logs[c].pending - {i})];
        }
      case _ =>
    }

    // ----------------------------------------------------------------
    // Goroutines and sync primitives

    method StartMain(g: Gid)
      modifies this
      ensures Snapshot() == StartEntry(old(Snapshot()), g)
    {
      next := g + 1;
      goroutines := goroutines[g := Goroutine(map[g := 1], NoWait)];
      trace := trace + [Start(g)];
    }

    /** startGoroutine: the child merges the parent's clock, then the parent ticks. */
    method StartGoroutine(g: Gid, child: Gid)
      requires g in goroutines && child !in goroutines
      modifies this
      ensures Snapshot() == Go(old(Snapshot()), g, child)
    {
      next := child + 1;
      goroutines := goroutines[child := Goroutine(Join(map[child := 1], goroutines[g].clock), NoWait)];
      goroutines := goroutines[g := goroutines[g].(clock := Tick(goroutines[g].clock, g))];
      trace := trace + [Spawn(g, child)];
      assert goroutines == Go(old(Snapshot()), g, child).gs;
    }

    method SyncLock(g: Gid, key: int)
      requires g in goroutines && key in syncs
      modifies this
      ensures Snapshot() == Lock(old(Snapshot()), g, key)
    {
      AcquireIfAny(g, syncs[key].lastUnlock, SyncOf(key, syncs[key].gen));
      AcquireIfAny(g, syncs[key].rUnlock, RUnlocksOf(key));
      syncs := syncs[key := syncs[key].(locked := true)];
    }

    method SyncUnlock(g: Gid, key: int) returns (out: Outcome)
      requires g in goroutines && key in syncs
      modifies this
      ensures (Snapshot(), out) == Unlock(old(Snapshot()), g, key)
    {
      if !syncs[key].locked {
        return Panicked("unlock of unlocked mutex");
      }
      var clock := ReleaseClock(g, SyncOf(key, syncs[key].gen + 1));
      syncs := syncs[key := syncs[key].(locked := false, lastUnlock := Some(clock), gen := syncs[key].gen + 1)];
      return Outcome.Done;
    }

    method SyncRLock(g: Gid, key: int)
      requires g in goroutines && key in syncs
      modifies this
      ensures Snapshot() == RLock(old(Snapshot()), g, key)
    {
      AcquireIfAny(g, syncs[key].lastUnlock, SyncOf(key, syncs[key].gen));
      syncs := syncs[key := syncs[key].(readers := syncs[key].readers + 1)];
    }

    /** joinClock into a stored clock, then tick. */
    method JoinClock(g: Gid, dst: Option<VC>, ghost t: Token) returns (clock: Option<VC>)
      requires g in goroutines
      modifies this`goroutines, this`trace
      ensures Snapshot() == JoinAs(old(Snapshot()), g, t)
      ensures clock == Joined(dst, old(goroutines[g].clock))
    {
      clock := Some(if dst.Some? then Join(dst.value, goroutines[g].clock) else goroutines[g].clock);
      goroutines := goroutines[g := goroutines[g].(clock := Tick(goroutines[g].clock, g))];
      trace := trace + [JoinInto(g, t)];
    }

    method SyncRUnlock(g: Gid, key: int) returns (out: Outcome)
      requires g in goroutines && key in syncs
      modifies this
      ensures (Snapshot(), out) == RUnlock(old(Snapshot()), g, key)
    {
      if syncs[key].readers == 0 {
        return Panicked("unlock of unlocked mutex");
      }
      var clock := JoinClock(g, syncs[key].rUnlock, RUnlocksOf(key));
      syncs := syncs[key := syncs[key].(readers := syncs[key].readers - 1, rUnlock := clock)];
      return Outcome.Done;
    }

    method WaitGroupAdd(g: Gid, key: int, delta: int)
      requires g in goroutines && key in syncs
      modifies this
      ensures Snapshot() == GroupAdd(old(Snapshot()), g, key, delta)
    {
      if delta < 0 {
        var clock := JoinClock(g, syncs[key].lastUnlock, SyncOf(key, syncs[key].gen));
        syncs := syncs[key := syncs[key].(lastUnlock := clock)];
      }
      syncs := syncs[key := syncs[key].(counter := syncs[key].counter + delta)];
    }

    method WaitGroupWait(g: Gid, key: int) returns (out: Outcome)
      requires g in goroutines && key in syncs
      modifies this
      ensures (Snapshot(), out) == GroupWaitFor(old(Snapshot()), g, key)
    {
      if syncs[key].counter <= 0 {
        AcquireIfAny(g, syncs[key].lastUnlock, SyncOf(key, syncs[key].gen));
        return Outcome.Done;
      }
      Park(g, GroupWait(key));
      return Parked;
    }

    /** The state of the primitive in allocation key, made on first use. */
    method EnsureSync(key: int)
      modifies this`syncs
      ensures Snapshot() == MakeSync(old(Snapshot()), key)
    {
      if key !in syncs {
        syncs := syncs[key := Sync(false, 0, 0, None, None, 0)];
      }
    }

    // ----------------------------------------------------------------

    method CreateChannel(c: ChanId, capacity: nat)
      modifies this`channels, this`logs
      ensures Snapshot() == MakeChan(old(Snapshot()), c, capacity)
    {
      channels := channels[c := Chan(capacity, false, [], [], [], [], 0, None)];
      logs := logs[c := Log([], [], map[])];
    }

    method PerformSync(a: Action) returns (out: Outcome)
      requires NoDangling(Snapshot()) && Allowed(Snapshot(), a)
      requires a.DoLock? || a.DoUnlock? || a.DoRLock? || a.DoRUnlock? || a.DoGroupAdd? || a.DoGroupWait?
      modifies this
      ensures (Snapshot(), out) == Step(old(Snapshot()), a)
    {
      EnsureSync(a.key);
      out := Outcome.Done;
      match a
      case DoLock(g, key) => SyncLock(g, key);
      case DoUnlock(g, key) => out := SyncUnlock(g, key);
      case DoRLock(g, key) => SyncRLock(g, key);
      case DoRUnlock(g, key) => out := SyncRUnlock(g, key);
      case DoGroupAdd(g, key, delta) => WaitGroupAdd(g, key, delta);
      case DoGroupWait(g, key) => out := WaitGroupWait(g, key);
    }

    method PerformOther(a: Action) returns (out: Outcome)
      requires NoDangling(Snapshot()) && Allowed(Snapshot(), a) && (a.DoGo? ==> a.child !in goroutines)
      requires !a.DoLock? && !a.DoUnlock? && !a.DoRLock? && !a.DoRUnlock? && !a.DoGroupAdd? && !a.DoGroupWait?
      modifies this
      ensures (Snapshot(), out) == Step(old(Snapshot()), a)
    {
      out := Outcome.Done;
      match a
      case DoStart(g) => StartMain(g);
      case DoGo(g, child) => StartGoroutine(g, child);
      case DoMakeChan(_, c, capacity) => CreateChannel(c, capacity);
      case DoSend(g, c, val) => out := ChanSend(g, c, val);
      case DoRecv(g, c) => out := ChanRecv(g, c);
      case DoClose(g, c) => out := ChannelClose(g, c);
      case DoSelect(g, cases, blocking) => out := ExecSelect(g, cases, blocking);
      case DoAccess(g, acc) => trace := trace + [Access(g, acc)];
      case DoResume(g) => out := ResumeWait(g);
      case DoAbort(g) => AbortWait(g);
    }

    /** Any action the program or the scheduler may take: the interpreter's new state is the step of
        the specification, and the invariant of the runtime is kept. */
    method Perform(a: Action) returns (out: Outcome)
      requires Inv(Snapshot()) && Allowed(Snapshot(), a)
      modifies this
      ensures Inv(Snapshot()) && NoDangling(old(Snapshot()))
      ensures (Snapshot(), out) == Step(old(Snapshot()), a)
    {
      ghost var w := Snapshot();
      InvHasNoDangling(w);
      if a.DoLock? || a.DoUnlock? || a.DoRLock? || a.DoRUnlock? || a.DoGroupAdd? || a.DoGroupWait? {
        out := PerformSync(a);
      } else {
        FreshIds(w);
        out := PerformOther(a);
      }
      StepKeepsInv(w, a, Snapshot());
    }
  }

  /** No goroutine has an id that is still to be given out. */
  lemma FreshIds(w: World)
    requires Inv(w)
    ensures forall g :: g in w.gs ==> g < w.next
  {
    OwnAheadAlways(RunOf(w.trace), |w.trace|);
  }
}
