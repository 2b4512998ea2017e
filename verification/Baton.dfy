/** The baton protocol between host goroutines (pkg/interpreter/gosched.go) as a step system. Each
    started interpreted goroutine has a host; a host either runs or waits on its wake channel. The
    steps are those between two channel operations on wake channels. Probes, crashes of a host and
    a missing scheduler are not part of it.

    turn is a history variable: the host that runs, or that the message in flight is for. */
module Baton {
  import Clock
  import opened Detector

  type Gid = int

  datatype Msg = WakeRun | WakeAbort | WakeQuiescent | WakeExited

  /** Where a host is. Draining and later are the driver's after its goroutine has ended, and
      Aborting with atEnd false is the driver in a deadlocked wait. */
  datatype Pc =
    | Running
    | Parked
    | Unwinding
    | Draining
    | DrainWait
    | Aborting(ids: seq<Gid>, atEnd: bool)
    | AwaitExit(id: Gid, ids: seq<Gid>, atEnd: bool)
    | Returned

  predicate Acts(pc: Pc) {
    pc.Running? || pc.Unwinding? || pc.Draining? || pc.Aborting?
  }

  /** ready holds the goroutines whose readiness predicate is true. */
  datatype State = State(
    driver: Gid, next: Gid, pcs: map<Gid, Pc>, mail: map<Gid, Msg>, hosts: set<Gid>, queue: seq<Gid>,
    blocked: set<Gid>, aborted: set<Gid>, ready: set<Gid>, halting: bool, deadlock: Option<nat>, turn: Gid)

  // ------------------------------------------------------------------
  // The run queue

  /** takeTask: the last task replaces the one taken. */
  function TakenFrom(queue: seq<Gid>, i: nat): seq<Gid>
    requires i < |queue|
  {
    queue[i := queue[|queue| - 1]][..|queue| - 1]
  }

  function IndexOf(queue: seq<Gid>, g: Gid): (i: nat)
    requires g in queue
    ensures i < |queue| && queue[i] == g && g !in queue[..i]
  {
    if queue[0] == g then 0 else 1 + IndexOf(queue[1..], g)
  }

  lemma {:induction false} FirstIndex(queue: seq<Gid>, g: Gid, i: nat)
    requires i < |queue| && queue[i] == g && g !in queue[..i]
    ensures IndexOf(queue, g) == i
  {
    if i > 0 {
      assert queue[..i][0] == queue[0];
      assert queue[1..][..i - 1] == queue[..i][1..];
      FirstIndex(queue[1..], g, i - 1);
    }
  }

  predicate Distinct(q: seq<Gid>) {
    forall i, j :: 0 <= i < j < |q| ==> q[i] != q[j]
  }

  /** Taking one task leaves exactly the others. */
  lemma TakeTaskRemovesOne(queue: seq<Gid>, i: nat)
    requires i < |queue|
    ensures multiset(TakenFrom(queue, i)) == multiset(queue) - multiset{queue[i]}
  {
    var n := |queue| - 1;
    assert queue == queue[..n] + [queue[n]];
    if i < n {
      assert queue[..n] == queue[..i] + [queue[i]] + queue[i + 1..n];
      assert TakenFrom(queue, i) == queue[..i] + [queue[n]] + queue[i + 1..n];
    } else {
      assert TakenFrom(queue, i) == queue[..n];
    }
  }

  lemma TakeTaskKeepsDistinct(queue: seq<Gid>, i: nat)
    requires i < |queue| && Distinct(queue)
    ensures Distinct(TakenFrom(queue, i))
    ensures forall g :: g in TakenFrom(queue, i) ==> g in queue && g != queue[i]
  {
  }

  /** takeTask. */
  method TakeTask(queue: array<Gid>, n: nat, g: Gid) returns (found: bool, n': nat)
    requires n <= queue.Length
    modifies queue
    ensures found <==> g in old(queue[..n])
    ensures if found then n' == n - 1 && queue[..n'] == TakenFrom(old(queue[..n]), IndexOf(old(queue[..n]), g))
            else n' == n && queue[..n] == old(queue[..n])
  {
    var i := 0;
    while i < n
      invariant 0 <= i <= n
      invariant g !in queue[..i]
      invariant queue[..n] == old(queue[..n])
    {
      if queue[i] == g {
        ghost var q := queue[..n];
        assert q[..i] == queue[..i];
        FirstIndex(q, g, i);
        queue[i] := queue[n - 1];
        assert queue[..n - 1] == TakenFrom(q, i);
        return true, n - 1;
      }
      i := i + 1;
    }
    return false, n;
  }

  // ------------------------------------------------------------------
  // Steps

  /** Goroutine g waits, was not aborted, and its wait is over. */
  predicate WaitOver(s: State, g: Gid) {
    g in s.hosts && g in s.blocked && g !in s.aborted && g in s.ready
  }

  /** pickNext's candidates: queued goroutines, and waiting ones whose wait is over. */
  predicate Candidate(s: State, self: Gid, g: Gid) {
    g in s.queue || (g != self && WaitOver(s, g))
  }

  /** What pickNext may return. */
  ghost predicate MayPick(s: State, self: Gid, pick: Option<Gid>) {
    if pick.Some? then !s.halting && Candidate(s, self, pick.value)
    else s.halting || forall g :: !Candidate(s, self, g)
  }

  /** transfer: wake a parked goroutine or start a queued one. */
  function Transfer(s: State, g: Gid): State
    requires g in s.hosts || g in s.queue
  {
    if g in s.hosts then s.(mail := s.mail[g := WakeRun], turn := g)
    else s.(queue := TakenFrom(s.queue, IndexOf(s.queue, g)), hosts := s.hosts + {g},
            pcs := s.pcs[g := Running], turn := g)
  }

  function HandOver(s: State, pick: Option<Gid>): State
    requires pick.Some? ==> pick.value in s.hosts || pick.value in s.queue
  {
    if pick.Some? then Transfer(s, pick.value)
    else s.(mail := s.mail[s.driver := WakeQuiescent], turn := s.driver)
  }

  /** The goroutines other than the driver's, in goroutine order. */
  ghost predicate IsAbortList(s: State, ids: seq<Gid>) {
    && (forall g :: g in ids <==> g in s.hosts && g != s.driver)
    && (forall i, j :: 0 <= i < j < |ids| ==> ids[i] < ids[j])
  }

  function Asleep(s: State): set<Gid> {
    set g | g in s.blocked && g !in s.aborted
  }

  /** The driver's wait can't end: report a deadlock, halt, and start aborting. */
  function Deadlock(s: State, ids: seq<Gid>): State {
    s.(deadlock := if s.halting || s.deadlock.Some? then s.deadlock else Some(|Asleep(s)|),
       halting := true, pcs := s.pcs[s.driver := Aborting(ids, false)])
  }

  datatype Step =
    | Work(g: Gid, ready: set<Gid>, spawned: seq<Gid>, halt: bool)
    | Block(g: Gid, pick: Option<Gid>, ids: seq<Gid>)
    | Exit(g: Gid, ready: set<Gid>, pick: Option<Gid>)
    | Wake(g: Gid, ids: seq<Gid>)
    | BodyEnds
    | Drain(pick: Option<Gid>, ids: seq<Gid>)
    | AbortNext
    | Unwind(g: Gid, ready: set<Gid>)

  predicate At(s: State, g: Gid, pc: Pc) {
    g in s.pcs && s.pcs[g] == pc
  }

  /** The new ids of spawned goroutines. */
  predicate FreshIds(next: Gid, spawned: seq<Gid>) {
    Distinct(spawned) && forall g :: g in spawned ==> next <= g
  }

  ghost predicate Enabled(s: State, a: Step) {
    match a
    case Work(g, _, spawned, _) => At(s, g, Running) && g !in s.aborted && FreshIds(s.next, spawned)
    case Block(g, pick, ids) =>
      && At(s, g, Running) && g !in s.aborted && g !in s.ready
      && MayPick(s, g, pick) && IsAbortList(s, ids)
    case Exit(g, ready, pick) =>
      && At(s, g, Running) && g != s.driver && g !in s.aborted
      && MayPick(s.(hosts := s.hosts - {g}, ready := ready), g, pick)
    case Wake(g, ids) => g in s.mail && g in s.pcs && !Acts(s.pcs[g]) && IsAbortList(s, ids)
    case BodyEnds => At(s, s.driver, Running)
    case Drain(pick, ids) => At(s, s.driver, Draining) && MayPick(s, s.driver, pick) && IsAbortList(s, ids)
    case AbortNext => s.driver in s.pcs && s.pcs[s.driver].Aborting?
    case Unwind(g, _) => At(s, g, Unwinding)
  }

  /** A host takes the message it was waiting for. */
  function Woken(s: State, g: Gid, ids: seq<Gid>): State
    requires g in s.mail && g in s.pcs
  {
    var s1 := s.(mail := s.mail - {g});
    match s.pcs[g]
    case DrainWait => s1.(pcs := s.pcs[g := Draining])
    case AwaitExit(_, rest, atEnd) => s1.(pcs := s.pcs[g := Aborting(rest, atEnd)])
    case _ =>
      match s.mail[g]
      case WakeRun => s1.(pcs := s.pcs[g := Running], blocked := s.blocked - {g})
      case WakeQuiescent => Deadlock(s1, ids)
      case _ => s1.(pcs := s.pcs[g := Unwinding], aborted := s.aborted + {g})
  }

  ghost function Next(s: State, a: Step): State
    requires Enabled(s, a)
  {
    match a
    case Work(g, ready, spawned, halt) =>
      s.(ready := ready, queue := s.queue + spawned, halting := s.halting || halt, next := Above(s.next, spawned))
    case Block(g, pick, ids) =>
      var s1 := s.(blocked := s.blocked + {g}, pcs := s.pcs[g := Parked]);
      if pick.None? && g == s.driver then Deadlock(s1, ids) else HandOver(s1, pick)
    case Exit(g, ready, pick) =>
      HandOver(s.(hosts := s.hosts - {g}, pcs := s.pcs - {g}, ready := ready), pick)
    case Wake(g, ids) => Woken(s, g, ids)
    case BodyEnds => s.(pcs := s.pcs[s.driver := Draining])
    case Drain(pick, ids) =>
      if pick.Some? then Transfer(s.(pcs := s.pcs[s.driver := DrainWait]), pick.value)
      else s.(pcs := s.pcs[s.driver := Aborting(ids, true)])
    case AbortNext =>
      var pc := s.pcs[s.driver];
      if |pc.ids| > 0 && pc.ids[0] in s.hosts then
        s.(mail := s.mail[pc.ids[0] := WakeAbort], turn := pc.ids[0],
           pcs := s.pcs[s.driver := AwaitExit(pc.ids[0], pc.ids[1..], pc.atEnd)])
      else if pc.atEnd then s.(queue := [], hosts := s.hosts - {s.driver}, pcs := s.pcs[s.driver := Returned])
      else s.(pcs := s.pcs[s.driver := Running], aborted := s.aborted + {s.driver})
    case Unwind(g, ready) =>
      s.(hosts := s.hosts - {g}, pcs := s.pcs - {g}, ready := ready,
         mail := s.mail[s.driver := WakeExited], turn := s.driver)
  }

  function Above(next: Gid, spawned: seq<Gid>): (n: Gid)
    ensures next <= n && forall g :: g in spawned ==> g < n
  {
    if spawned == [] then next
    else
      var n := Above(next, spawned[1..]);
      assert forall g :: g in spawned ==> g == spawned[0] || g in spawned[1..];
      if spawned[0] < n then n else spawned[0] + 1
  }

  /** runDriver starts with the driver's goroutine running and nothing else. */
  function Begin(driver: Gid): State {
    State(driver, driver + 1, map[driver := Running], map[], {driver}, [], {}, {}, {}, false, None, driver)
  }

  // ------------------------------------------------------------------
  // What every step keeps

  /** The right to touch interpreter state: exactly one host acts or has a message on its way, and a
      host with a message waits for it. */
  ghost predicate OneTurn(s: State) {
    && (forall g :: g in s.pcs && Acts(s.pcs[g]) ==> g == s.turn)
    && (forall g :: g in s.mail ==> g == s.turn && g in s.pcs && !Acts(s.pcs[g]) && !s.pcs[g].Returned?)
    && (!Ended(s) ==> s.turn in s.pcs && (Acts(s.pcs[s.turn]) || s.turn in s.mail))
  }

  predicate Ended(s: State) {
    At(s, s.driver, Returned)
  }

  /** Hosts are the started goroutines that have not ended; queued ones have not started. */
  ghost predicate HostsOk(s: State) {
    && s.driver in s.pcs && s.driver < s.next
    && (forall g :: g in s.hosts <==> g in s.pcs && !s.pcs[g].Returned?)
    && (forall g :: g in s.pcs ==> g < s.next)
    && Distinct(s.queue)
    && (forall g :: g in s.queue ==> g < s.next && g !in s.pcs && g !in s.blocked && g !in s.aborted)
    && (forall g :: g in s.blocked ==> g < s.next)
    && (forall g :: g in s.aborted ==> g < s.next)
  }

  /** Which hosts can be where, and who is blocked there. */
  ghost predicate PcsOk(s: State)
    requires s.driver in s.pcs
  {
    && (forall g :: g in s.pcs && g != s.driver ==> s.pcs[g].Running? || s.pcs[g].Parked? || s.pcs[g].Unwinding?)
    && !s.pcs[s.driver].Unwinding?
    && (forall g :: g in s.pcs && s.pcs[g].Parked? ==> g in s.blocked && g !in s.aborted)
    && (forall g :: g in s.pcs && g != s.driver && s.pcs[g].Running? ==> g !in s.blocked && g !in s.aborted)
    && (forall g :: g in s.pcs && s.pcs[g].Unwinding? ==> g in s.aborted)
    && (s.driver in s.blocked && s.driver !in s.aborted ==>
          s.pcs[s.driver].Parked? || ((s.pcs[s.driver].Aborting? || s.pcs[s.driver].AwaitExit?) && !s.pcs[s.driver].atEnd))
    && (s.pcs[s.driver].Parked? || s.pcs[s.driver].Aborting? || s.pcs[s.driver].AwaitExit? || s.pcs[s.driver].Running?
        || s.pcs[s.driver].Draining? || s.pcs[s.driver].DrainWait? || Ended(s))
  }

  /** Nothing can run. */
  ghost predicate Quiescent(s: State) {
    s.queue == [] && forall g :: !WaitOver(s, g)
  }

  /** A message is the one its receiver waits for, and says what is so. */
  ghost predicate MailOk(s: State)
    requires s.driver in s.pcs
  {
    forall g :: g in s.mail && g in s.pcs ==>
      match s.mail[g]
      case WakeRun => s.pcs[g].Parked? && g in s.ready
      case WakeAbort => s.pcs[g].Parked? && g != s.driver && s.pcs[s.driver].AwaitExit? && s.pcs[s.driver].id == g
      case WakeQuiescent => g == s.driver && (s.pcs[g].Parked? || s.pcs[g].DrainWait?) && (s.halting || Quiescent(s))
      case WakeExited => g == s.driver && s.pcs[g].AwaitExit? && s.pcs[g].id !in s.pcs
  }

  /** While the driver aborts, the hosts left are the driver, those it has still to abort, and the
      one it is waiting for. */
  ghost predicate AbortOk(s: State)
    requires s.driver in s.pcs
  {
    var pc := s.pcs[s.driver];
    && (pc.Aborting? ==>
          && Distinct(pc.ids) && s.driver !in pc.ids
          && (forall g :: g in s.pcs <==> g == s.driver || g in pc.ids)
          && (forall g :: g in pc.ids ==> g in s.pcs && s.pcs[g].Parked?))
    && (pc.AwaitExit? ==>
          && Distinct(pc.ids) && s.driver !in pc.ids && pc.id !in pc.ids && pc.id != s.driver
          && (forall g :: g in s.pcs && g != pc.id <==> g == s.driver || g in pc.ids)
          && (forall g :: g in pc.ids ==> g in s.pcs && s.pcs[g].Parked?)
          && (if pc.id in s.pcs then s.turn == pc.id && !s.pcs[pc.id].Running? else s.turn == s.driver)
          && (pc.id in s.mail ==> s.mail[pc.id] == WakeAbort))
    && (forall g :: g in s.pcs && s.pcs[g].Unwinding? ==> pc.AwaitExit? && pc.id == g)
    && ((pc.Aborting? || pc.AwaitExit?) && !pc.atEnd ==> s.halting && s.driver in s.blocked)
    && (pc.Draining? || pc.DrainWait? || ((pc.Aborting? || pc.AwaitExit?) && pc.atEnd) ==>
          s.driver !in s.blocked || s.driver in s.aborted)
    && (pc.Running? ==> s.driver !in s.blocked || s.driver in s.aborted)
    && (Ended(s) ==> s.hosts == {} && s.mail == map[] && s.queue == [] && s.pcs.Keys == {s.driver})
  }

  ghost predicate Inv(s: State) {
    HostsOk(s) && OneTurn(s) && PcsOk(s) && MailOk(s) && AbortOk(s)
  }

  lemma BeginInv(driver: Gid)
    ensures Inv(Begin(driver))
  {
  }

  /** The host that acts is alone, and no message is in flight. */
  lemma ActsAlone(s: State, g: Gid)
    requires Inv(s) && g in s.pcs && Acts(s.pcs[g])
    ensures s.turn == g && s.mail == map[] && !Ended(s)
    ensures forall h :: h in s.pcs && Acts(s.pcs[h]) ==> h == g
  {
    assert Ended(s) ==> g in s.pcs.Keys;
    assert forall h :: h !in s.mail;
    assert s.mail.Keys == {};
  }

  lemma QueueGrows(q: seq<Gid>, spawned: seq<Gid>, next: Gid)
    requires Distinct(q) && FreshIds(next, spawned) && forall g :: g in q ==> g < next
    ensures Distinct(q + spawned)
  {
    forall i, j | 0 <= i < j < |q + spawned|
      ensures (q + spawned)[i] != (q + spawned)[j]
    {
      if i < |q| <= j {
        assert q[i] in q && spawned[j - |q|] in spawned;
      }
    }
  }

  lemma WorkKeepsInv(s: State, a: Step)
    requires Inv(s) && a.Work? && Enabled(s, a)
    ensures Inv(Next(s, a))
  {
    ActsAlone(s, a.g);
    QueueGrows(s.queue, a.spawned, s.next);
  }

  /** A message leaves no other behind. */
  lemma WakesAlone(s: State, g: Gid)
    requires Inv(s) && g in s.mail
    ensures s.turn == g && s.mail - {g} == map[] && !Ended(s)
    ensures forall h :: h in s.pcs ==> !Acts(s.pcs[h])
  {
    assert forall h :: h in s.mail ==> h == g;
    assert (s.mail - {g}).Keys == {};
  }

  lemma WakeRunKeepsInv(s: State, a: Step)
    requires Inv(s) && a.Wake? && Enabled(s, a) && s.mail[a.g].WakeRun?
    ensures Inv(Next(s, a))
  {
    WakesAlone(s, a.g);
  }

  lemma WakeAbortKeepsInv(s: State, a: Step)
    requires Inv(s) && a.Wake? && Enabled(s, a) && s.mail[a.g].WakeAbort?
    ensures Inv(Next(s, a))
  {
    WakesAlone(s, a.g);
  }

  lemma WakeDriverKeepsInv(s: State, a: Step)
    requires Inv(s) && a.Wake? && Enabled(s, a) && a.g == s.driver && !s.pcs[a.g].Parked?
    ensures Inv(Next(s, a))
  {
    WakesAlone(s, a.g);
  }

  /** The driver's goroutine has parked and every other host is parked too. */
  ghost predicate AllParked(s: State) {
    && HostsOk(s) && s.mail == map[] && s.turn == s.driver
    && (forall g :: g in s.pcs ==> s.pcs[g].Parked?)
    && (forall g :: g in s.pcs ==> g in s.blocked && g !in s.aborted)
  }

  lemma DeadlockKeepsInv(s: State, ids: seq<Gid>)
    requires AllParked(s) && IsAbortList(s, ids)
    ensures Inv(Deadlock(s, ids))
  {
  }

  lemma WakeQuiescentKeepsInv(s: State, a: Step)
    requires Inv(s) && a.Wake? && Enabled(s, a) && s.mail[a.g].WakeQuiescent? && s.pcs[a.g].Parked?
    ensures Inv(Next(s, a))
  {
    WakesAlone(s, a.g);
    DeadlockKeepsInv(s.(mail := s.mail - {a.g}), a.ids);
  }

  lemma WakeKeepsInv(s: State, a: Step)
    requires Inv(s) && a.Wake? && Enabled(s, a)
    ensures Inv(Next(s, a))
  {
    match s.mail[a.g]
    case WakeRun => WakeRunKeepsInv(s, a);
    case WakeAbort => WakeAbortKeepsInv(s, a);
    case WakeExited => WakeDriverKeepsInv(s, a);
    case WakeQuiescent =>
      if s.pcs[a.g].Parked? {
        WakeQuiescentKeepsInv(s, a);
      } else {
        WakeDriverKeepsInv(s, a);
      }
  }

  lemma BodyEndsKeepsInv(s: State)
    requires Inv(s) && Enabled(s, BodyEnds)
    ensures Inv(Next(s, BodyEnds))
  {
    ActsAlone(s, s.driver);
  }

  lemma UnwindKeepsInv(s: State, a: Step)
    requires Inv(s) && a.Unwind? && Enabled(s, a)
    ensures Inv(Next(s, a))
  {
    ActsAlone(s, a.g);
  }

  lemma AbortOneKeepsInv(s: State)
    requires Inv(s) && Enabled(s, AbortNext) && s.pcs[s.driver].ids != []
    ensures Inv(Next(s, AbortNext))
  {
    ActsAlone(s, s.driver);
    var ids := s.pcs[s.driver].ids;
    assert ids[0] in ids;
    assert s.pcs[ids[0]].Parked?;
    assert forall g :: g in ids <==> g == ids[0] || g in ids[1..];
  }

  lemma ReturnKeepsInv(s: State)
    requires Inv(s) && Enabled(s, AbortNext) && s.pcs[s.driver].ids == [] && s.pcs[s.driver].atEnd
    ensures Inv(Next(s, AbortNext))
  {
    ActsAlone(s, s.driver);
    var s' := Next(s, AbortNext);
    assert forall g :: g !in s'.hosts;
    assert forall g :: g in s'.pcs.Keys <==> g == s.driver;
  }

  lemma AbortedDriverKeepsInv(s: State)
    requires Inv(s) && Enabled(s, AbortNext) && s.pcs[s.driver].ids == [] && !s.pcs[s.driver].atEnd
    ensures Inv(Next(s, AbortNext))
  {
    ActsAlone(s, s.driver);
  }

  lemma AbortNextKeepsInv(s: State)
    requires Inv(s) && Enabled(s, AbortNext)
    ensures Inv(Next(s, AbortNext))
  {
    if s.pcs[s.driver].ids != [] {
      AbortOneKeepsInv(s);
    } else if s.pcs[s.driver].atEnd {
      ReturnKeepsInv(s);
    } else {
      AbortedDriverKeepsInv(s);
    }
  }

  // ------------------------------------------------------------------
  // Handing over

  /** The host that handed over is parked or gone, and so is every other. */
  ghost predicate Released(s: State) {
    && HostsOk(s) && PcsOk(s) && s.mail == map[]
    && (forall g :: g in s.pcs ==> !Acts(s.pcs[g]))
    && (s.pcs[s.driver].Parked? || s.pcs[s.driver].DrainWait?)
    && (s.pcs[s.driver].DrainWait? ==> s.driver !in s.blocked || s.driver in s.aborted)
  }

  /** The scheduler's pick is queued or parked, so it can be started or woken. */
  lemma PickCanRun(s: State, self: Gid, g: Gid)
    requires Released(s) && Candidate(s, self, g)
    ensures g in s.queue || (g in s.pcs && s.pcs[g].Parked? && g in s.ready)
    ensures g in s.hosts <==> g !in s.queue
  {
  }

  lemma WakingKeepsInv(s: State, g: Gid)
    requires Released(s) && g in s.pcs && s.pcs[g].Parked? && g in s.ready
    ensures Inv(Transfer(s, g))
  {
  }

  lemma StartingKeepsInv(s: State, g: Gid)
    requires Released(s) && g in s.queue
    ensures g !in s.hosts && Inv(Transfer(s, g))
  {
    TakeTaskKeepsDistinct(s.queue, IndexOf(s.queue, g));
  }

  lemma TransferKeepsInv(s: State, self: Gid, g: Gid)
    requires Released(s) && Candidate(s, self, g)
    ensures (g in s.hosts || g in s.queue) && Inv(Transfer(s, g))
  {
    PickCanRun(s, self, g);
    if g in s.queue {
      StartingKeepsInv(s, g);
    } else {
      WakingKeepsInv(s, g);
    }
  }

  lemma QuiescenceKeepsInv(s: State)
    requires Released(s) && (s.halting || Quiescent(s))
    ensures Inv(HandOver(s, None))
  {
    var s' := HandOver(s, None);
    assert forall g :: WaitOver(s', g) <==> WaitOver(s, g);
  }

  lemma HandOverKeepsInv(s: State, self: Gid, pick: Option<Gid>)
    requires Released(s) && MayPick(s, self, pick) && !WaitOver(s, self)
    ensures (pick.Some? ==> pick.value in s.hosts || pick.value in s.queue) && Inv(HandOver(s, pick))
  {
    if pick.Some? {
      TransferKeepsInv(s, self, pick.value);
    } else {
      assert !s.halting && s.queue != [] ==> Candidate(s, self, s.queue[0]);
      assert forall g :: WaitOver(s, g) ==> Candidate(s, self, g);
      QuiescenceKeepsInv(s);
    }
  }

  lemma BlockKeepsInv(s: State, a: Step)
    requires Inv(s) && a.Block? && Enabled(s, a)
    ensures Inv(Next(s, a))
  {
    ActsAlone(s, a.g);
    var s1 := s.(blocked := s.blocked + {a.g}, pcs := s.pcs[a.g := Parked]);
    assert forall g :: Candidate(s, a.g, g) <==> Candidate(s1, a.g, g);
    if a.pick.None? && a.g == s.driver {
      DeadlockKeepsInv(s1, a.ids);
    } else {
      HandOverKeepsInv(s1, a.g, a.pick);
    }
  }

  lemma ExitKeepsInv(s: State, a: Step)
    requires Inv(s) && a.Exit? && Enabled(s, a)
    ensures Inv(Next(s, a))
  {
    ActsAlone(s, a.g);
    var s1 := s.(hosts := s.hosts - {a.g}, pcs := s.pcs - {a.g}, ready := a.ready);
    assert forall g :: Candidate(s.(hosts := s.hosts - {a.g}, ready := a.ready), a.g, g) <==> Candidate(s1, a.g, g);
    HandOverKeepsInv(s1, a.g, a.pick);
  }

  lemma DrainKeepsInv(s: State, a: Step)
    requires Inv(s) && a.Drain? && Enabled(s, a)
    ensures Inv(Next(s, a))
  {
    ActsAlone(s, s.driver);
    if a.pick.Some? {
      var s1 := s.(pcs := s.pcs[s.driver := DrainWait]);
      assert Candidate(s1, s.driver, a.pick.value);
      TransferKeepsInv(s1, s.driver, a.pick.value);
    }
  }

  lemma StepKeepsInv(s: State, a: Step)
    requires Inv(s) && Enabled(s, a)
    ensures Inv(Next(s, a))
  {
    match a
    case Work(_, _, _, _) => WorkKeepsInv(s, a);
    case Block(_, _, _) => BlockKeepsInv(s, a);
    case Exit(_, _, _) => ExitKeepsInv(s, a);
    case Wake(_, _) => WakeKeepsInv(s, a);
    case BodyEnds => BodyEndsKeepsInv(s);
    case Drain(_, _) => DrainKeepsInv(s, a);
    case AbortNext => AbortNextKeepsInv(s);
    case Unwind(_, _) => UnwindKeepsInv(s, a);
  }

  // ------------------------------------------------------------------
  // Runs

  datatype Run = Run(states: seq<State>, steps: seq<Step>)

  /** A run of runDriver. */
  ghost predicate IsRun(r: Run) {
    && |r.states| == |r.steps| + 1
    && r.states[0] == Begin(r.states[0].driver)
    && forall n {:trigger r.steps[n]} :: 0 <= n < |r.steps| ==>
         Enabled(r.states[n], r.steps[n]) && r.states[n + 1] == Next(r.states[n], r.steps[n])
  }

  lemma {:induction false} RunsKeepInv(r: Run, n: nat)
    requires IsRun(r) && n < |r.states|
    ensures Inv(r.states[n])
  {
    if n == 0 {
      BeginInv(r.states[0].driver);
    } else {
      RunsKeepInv(r, n - 1);
      StepKeepsInv(r.states[n - 1], r.steps[n - 1]);
    }
  }

  /** At most one host ever acts, a message in flight excludes that, and until runDriver returns
      there is always one or the other: the baton is neither duplicated nor lost. */
  lemma OneHostActs(r: Run, n: nat)
    requires IsRun(r) && n < |r.states|
    ensures var s := r.states[n];
      && (forall g, h :: g in s.pcs && h in s.pcs && Acts(s.pcs[g]) && Acts(s.pcs[h]) ==> g == h)
      && ((exists g :: g in s.pcs && Acts(s.pcs[g])) ==> s.mail == map[])
      && |s.mail| <= 1
      && (!Ended(s) ==> s.turn in s.pcs && (Acts(s.pcs[s.turn]) || s.turn in s.mail))
  {
    RunsKeepInv(r, n);
    var s := r.states[n];
    if g :| g in s.pcs && Acts(s.pcs[g]) {
      ActsAlone(s, g);
    } else if s.turn in s.mail {
      WakesAlone(s, s.turn);
      assert forall g :: g in s.mail.Keys <==> g == s.turn;
      assert s.mail.Keys == {s.turn};
    } else {
      assert forall g :: g !in s.mail;
      assert s.mail.Keys == {};
    }
  }

  /** block returns true only when the wait is over: a goroutine that is woken to run has a true
      readiness predicate, and is not aborted. */
  lemma WokenToRunIsReady(r: Run, n: nat, g: Gid)
    requires IsRun(r) && n < |r.steps| && r.steps[n].Wake? && r.steps[n].g == g
    requires At(r.states[n], g, Parked) && At(r.states[n + 1], g, Running)
    ensures g in r.states[n].ready && g in r.states[n + 1].ready
    ensures g !in r.states[n + 1].aborted && g !in r.states[n + 1].blocked
  {
    RunsKeepInv(r, n);
    assert r.states[n + 1] == Next(r.states[n], r.steps[n]);
  }

  /** The goroutine a step hands the baton to. */
  function PickOf(a: Step): Option<Gid> {
    match a
    case Block(_, pick, _) => pick
    case Exit(_, _, pick) => pick
    case Drain(pick, _) => pick
    case _ => None
  }

  /** Whatever candidate the scheduler picks is queued and not started, or parked with its wait
      over: handing over never finds a goroutine that is neither. */
  lemma PickIsQueuedOrParked(r: Run, n: nat)
    requires IsRun(r) && n < |r.steps| && PickOf(r.steps[n]).Some?
    ensures var s, g := r.states[n], PickOf(r.steps[n]).value;
      if g in s.queue then g !in s.hosts else g in s.hosts && At(s, g, Parked) && g !in s.mail
  {
    RunsKeepInv(r, n);
    var s, a := r.states[n], r.steps[n];
    assert Enabled(s, a);
    ActsAlone(s, if a.Drain? then s.driver else a.g);
  }

  /** When runDriver returns no host goroutine is left, no message is pending and the queue is
      empty. */
  lemma NothingOutlivesRunDriver(r: Run, n: nat)
    requires IsRun(r) && n < |r.states| && Ended(r.states[n])
    ensures r.states[n].hosts == {} && r.states[n].mail == map[] && r.states[n].queue == []
    ensures r.states[n].pcs.Keys == {r.states[n].driver}
  {
    RunsKeepInv(r, n);
  }

  /** No wait of a goroutine that is not aborted can end, and none is left to start. */
  ghost predicate AllAsleep(s: State) {
    s.queue == [] && forall g :: g in s.hosts && g in s.blocked && g !in s.aborted ==> g !in s.ready
  }

  /** What a step that records a deadlock shows. */
  ghost predicate SoundDeadlock(s: State, s': State) {
    && !s.halting && s'.halting && s.deadlock.None?
    && AllAsleep(s') && s'.driver in s'.blocked && s'.driver !in s'.aborted
    && s'.deadlock == Some(|Asleep(s')|)
  }

  lemma BlockedDeadlockIsSound(s: State, a: Step)
    requires Inv(s) && a.Block? && Enabled(s, a) && Next(s, a).deadlock != s.deadlock
    ensures SoundDeadlock(s, Next(s, a))
  {
    assert s.queue != [] ==> Candidate(s, a.g, s.queue[0]);
    forall g | g in s.hosts && g in s.blocked && g !in s.aborted
      ensures g !in s.ready
    {
      assert !Candidate(s, a.g, g);
    }
    assert Asleep(Next(s, a)) == Asleep(s.(blocked := s.blocked + {a.g}, pcs := s.pcs[a.g := Parked]));
  }

  lemma WokenDeadlockIsSound(s: State, a: Step)
    requires Inv(s) && a.Wake? && Enabled(s, a) && Next(s, a).deadlock != s.deadlock
    ensures SoundDeadlock(s, Next(s, a))
  {
    forall g | g in s.hosts && g in s.blocked && g !in s.aborted
      ensures g !in s.ready
    {
      assert !WaitOver(s, g);
    }
    assert Asleep(Next(s, a)) == Asleep(s.(mail := s.mail - {a.g}));
  }

  /** A deadlock is recorded only when the run is not being halted, the queue is empty, and every
      waiting goroutine, the driver's among them, has a false readiness predicate; the run is then
      halted, and the count is that of the waiting goroutines. */
  lemma DeadlockIsSound(r: Run, n: nat)
    requires IsRun(r) && n < |r.steps| && r.states[n + 1].deadlock != r.states[n].deadlock
    ensures SoundDeadlock(r.states[n], r.states[n + 1])
  {
    RunsKeepInv(r, n);
    var s, a := r.states[n], r.steps[n];
    assert r.states[n + 1] == Next(s, a);
    if a.Block? {
      BlockedDeadlockIsSound(s, a);
    } else {
      WokenDeadlockIsSound(s, a);
    }
  }

  /** The step at which the driver's goroutine learns that its wait can't end: it blocks and nothing
      can be picked, or it is parked and woken as the last. */
  predicate DriverStuck(s: State, a: Step) {
    || (a.Block? && a.g == s.driver && a.pick.None?)
    || (a.Wake? && a.g == s.driver && At(s, s.driver, Parked) && s.driver in s.mail && s.mail[s.driver].WakeQuiescent?)
  }

  /** At such a step, unless the run is being halted, the queue is empty and no host's wait is over. */
  lemma StuckMeansAsleep(s: State, a: Step)
    requires Inv(s) && Enabled(s, a) && DriverStuck(s, a) && !s.halting
    ensures AllAsleep(s)
  {
    if a.Block? {
      ActsAlone(s, s.driver);
      assert s.queue != [] ==> Candidate(s, a.g, s.queue[0]);
      forall g | g in s.hosts && g in s.blocked && g !in s.aborted
        ensures g !in s.ready
      {
        assert !Candidate(s, a.g, g);
      }
    } else {
      forall g | g in s.hosts && g in s.blocked && g !in s.aborted
        ensures g !in s.ready
      {
        assert !WaitOver(s, g);
      }
    }
  }

  /** The driver's goroutine waits after the step: it blocks now, or stays parked. */
  predicate DriverWaits(s: State, a: Step) {
    || (a.Block? && a.g == s.driver && s.driver !in s.ready)
    || (a.Wake? && a.g == s.driver && At(s, s.driver, Parked) && s.driver !in s.ready)
  }

  /** A deadlock is recorded exactly when the driver's goroutine begins or goes on waiting with a false
      predicate, the queue is empty, no host's wait is over, the run is not halting and none is recorded. */
  lemma DeadlockIsReported(r: Run, n: nat)
    requires IsRun(r) && n < |r.steps|
    ensures var s, a := r.states[n], r.steps[n];
      r.states[n + 1].deadlock != s.deadlock <==>
      DriverWaits(s, a) && AllAsleep(s) && !s.halting && s.deadlock.None?
  {
    RunsKeepInv(r, n);
    var s, a := r.states[n], r.steps[n];
    assert r.states[n + 1] == Next(s, a);
    if r.states[n + 1].deadlock != s.deadlock {
      assert DriverStuck(s, a) && !s.halting;
      StuckMeansAsleep(s, a);
      ParkedDriverSleeps(s, a);
    } else if DriverWaits(s, a) && AllAsleep(s) && !s.halting {
      WaitingDriverIsStuck(s, a);
    }
  }

  lemma ParkedDriverSleeps(s: State, a: Step)
    requires Inv(s) && Enabled(s, a) && DriverStuck(s, a) && AllAsleep(s)
    ensures DriverWaits(s, a)
  {
  }

  lemma WaitingDriverIsStuck(s: State, a: Step)
    requires Inv(s) && Enabled(s, a) && DriverWaits(s, a) && AllAsleep(s) && !s.halting
    ensures DriverStuck(s, a)
  {
  }

  /** When draining stops without the run being halted, the queue is empty and every goroutine still
      waiting has a false readiness predicate: those then reported as leaked can't go on. */
  lemma DrainedIsAsleep(r: Run, n: nat)
    requires IsRun(r) && n < |r.steps| && r.steps[n].Drain? && r.steps[n].pick.None? && !r.states[n].halting
    ensures AllAsleep(r.states[n])
  {
    RunsKeepInv(r, n);
    var s, a := r.states[n], r.steps[n];
    assert Enabled(s, a);
    assert s.queue != [] ==> Candidate(s, s.driver, s.queue[0]);
    forall g | g in s.hosts && g in s.blocked && g !in s.aborted
      ensures g !in s.ready
    {
      assert !Candidate(s, s.driver, g);
    }
  }

  /** The protocol never gets stuck: until runDriver returns, a step of the protocol itself is possible;
      no more work of the interpreted program is needed for it. */
  lemma NeverStuck(r: Run, n: nat) returns (a: Step)
    requires IsRun(r) && n < |r.states| && !Ended(r.states[n])
    ensures Enabled(r.states[n], a) && !a.Work?
  {
    RunsKeepInv(r, n);
    var s := r.states[n];
    if s.turn in s.mail {
      var ids := AbortList(s);
      a := Wake(s.turn, ids);
    } else {
      match s.pcs[s.turn]
      case Running =>
        if s.turn == s.driver {
          a := BodyEnds;
        } else {
          var pick := SomePick(s.(hosts := s.hosts - {s.turn}, ready := s.ready), s.turn);
          a := Exit(s.turn, s.ready, pick);
        }
      case Unwinding => a := Unwind(s.turn, {});
      case Aborting(_, _) => a := AbortNext;
      case Draining =>
        var ids := AbortList(s);
        var pick := SomePick(s, s.driver);
        a := Drain(pick, ids);
    }
  }

  lemma SomePick(s: State, self: Gid) returns (pick: Option<Gid>)
    ensures MayPick(s, self, pick)
  {
    if g :| !s.halting && Candidate(s, self, g) {
      pick := Some(g);
    } else {
      pick := None;
    }
  }

  /** The sorted list of hosts to abort exists. */
  lemma AbortList(s: State) returns (ids: seq<Gid>)
    ensures IsAbortList(s, ids)
  {
    ids := SortedList(s.hosts - {s.driver});
  }

  lemma {:induction false} SortedList(xs: set<Gid>) returns (ids: seq<Gid>)
    ensures forall g :: g in ids <==> g in xs
    ensures forall i, j :: 0 <= i < j < |ids| ==> ids[i] < ids[j]
    decreases |xs|
  {
    if xs == {} {
      ids := [];
    } else {
      var m := Largest(xs);
      var rest := SortedList(xs - {m});
      ids := rest + [m];
      assert forall g :: g in ids <==> g in rest || g == m;
      assert forall i :: 0 <= i < |rest| ==> rest[i] in rest;
    }
  }

  lemma {:induction false} Largest(xs: set<Gid>) returns (m: Gid)
    requires |xs| > 0
    ensures m in xs && forall g :: g in xs ==> g <= m
    decreases |xs|
  {
    Clock.Inhabited(xs);
    var g :| g in xs;
    if xs - {g} == {} {
      assert forall h :: h in xs ==> h == g || h in xs - {g};
      m := g;
    } else {
      var k := Largest(xs - {g});
      assert forall h :: h in xs ==> h == g || h in xs - {g};
      m := if k < g then g else k;
    }
  }
}
