/** The baton protocol and the runtime together: goroutines hand the baton on by what their waits in
    the runtime's state say. A recorded deadlock is one of the runtime. */
module RuntimeDeadlock {
  import opened Clock
  import opened ClockMachine
  import opened Detector
  import opened Runtime
  import opened RuntimeRuns
  import Baton

  // ------------------------------------------------------------------
  // What an action does to other goroutines

  /** Only goroutine g's own record may differ. */
  ghost predicate OnlyOwn(w: World, w': World, g: Gid) {
    w'.gs.Keys == w.gs.Keys && forall h :: h in w.gs && h != g ==> w'.gs[h] == w.gs[h]
  }

  lemma {:induction false} OffersAreOwn(w: World, g: Gid, sw: nat, cases: seq<Case>, j: nat)
    requires g in w.gs && j <= |cases|
    ensures OnlyOwn(w, OfferAll(w, g, sw, cases, j), g)
    decreases |cases| - j
  {
    if j < |cases| {
      if Offered(w, cases[j]) {
        OffersAreOwn(Offer(w, g, cases[j].ch.value, cases[j].send, cases[j].val, Some(sw), j), g, sw, cases, j + 1);
      } else {
        OffersAreOwn(w, g, sw, cases, j + 1);
      }
    }
  }

  lemma SendIsOwn(w: World, g: Gid, c: ChanId, val: Value)
    requires g in w.gs && (c in w.chans ==> KnownChan(w, c))
    ensures OnlyOwn(w, Send(w, g, c, val).0, g)
  {
  }

  lemma RecvReadyIsOwn(w: World, g: Gid, c: ChanId)
    requires g in w.gs && KnownChan(w, c)
    ensures OnlyOwn(w, RecvReady(w, g, c).0, g)
  {
  }

  lemma RecvIsOwn(w: World, g: Gid, c: ChanId)
    requires g in w.gs && (c in w.chans ==> KnownChan(w, c))
    ensures OnlyOwn(w, Recv(w, g, c).0, g)
  {
    if c in w.chans {
      RecvReadyIsOwn(w, g, c);
    }
  }

  lemma SelectCaseIsOwn(w: World, g: Gid, cases: seq<Case>, k: nat)
    requires g in w.gs && k < |cases| && KnownCases(w, cases)
    requires cases[k].ch.Some? && cases[k].ch.value in w.chans
    ensures OnlyOwn(w, SelectCase(w, g, cases, k).0, g)
  {
    SendIsOwn(w, g, cases[k].ch.value, cases[k].val);
    RecvReadyIsOwn(w, g, cases[k].ch.value);
  }

  lemma SelectIsOwn(w: World, g: Gid, cases: seq<Case>, blocking: bool)
    requires g in w.gs && KnownCases(w, cases)
    ensures OnlyOwn(w, Select(w, g, cases, blocking).0, g)
  {
    var k := FirstReady(w, cases, None);
    if k < |cases| {
      SelectCaseIsOwn(w, g, cases, k);
    } else {
      OffersAreOwn(w.(sels := w.sels + [SelectWait(g, false, None)]), g, |w.sels|, cases, 0);
    }
  }

  lemma FiredIsOwn(w: World, g: Gid, sw: nat, cases: seq<Case>)
    requires g in w.gs && KnownWait(w, g) && w.gs[g].wait == SelWait(sw, cases) && w.sels[sw].fired
    ensures OnlyOwn(w, SelectResume(w, g, sw, cases).0, g)
  {
    var i := w.sels[sw].sg.value;
    var w1 := TickNow(Collect(SetWait(w, g, NoWait), g, i), g);
    assert OnlyOwn(w, w1, g);
    assert OnlyOwn(w1, Deliver(w1, w.sudogs[i].ch, i), g);
  }

  lemma WithdrawnIsOwn(w: World, g: Gid, sw: nat, cases: seq<Case>)
    requires g in w.gs && KnownWait(w, g) && w.gs[g].wait == SelWait(sw, cases) && !w.sels[sw].fired
    ensures OnlyOwn(w, SelectResume(w, g, sw, cases).0, g)
  {
    var w1 := SetWait(w, g, NoWait).(sels := w.sels[sw := w.sels[sw].(fired := true)]);
    var k := FirstReady(w1, cases, None);
    if k < |cases| {
      SelectCaseIsOwn(w1, g, cases, k);
    }
  }

  lemma ResumeIsOwn(w: World, g: Gid)
    requires g in w.gs && KnownWait(w, g)
    ensures OnlyOwn(w, Resume(w, g).0, g)
  {
    var w0 := SetWait(w, g, NoWait);
    match w.gs[g].wait
    case SelWait(sw, cases) =>
      if w.sels[sw].fired {
        FiredIsOwn(w, g, sw, cases);
      } else {
        WithdrawnIsOwn(w, g, sw, cases);
      }
    case BufRecvWait(c) => RecvReadyIsOwn(w0, g, c);
    case _ =>
  }

  lemma MutexIsOwn(w: World, a: Action)
    requires NoDangling(w) && Allowed(w, a) && OnMutex(a)
    ensures OnlyOwn(w, Step(w, a).0, a.g)
  {
    var w1 := MakeSync(w, a.key);
    assert w1.gs == w.gs;
    MutexStep(w, a);
    assert OnlyOwn(w1, AfterMutex(w1, a), a.g);
  }

  lemma GroupIsOwn(w: World, a: Action)
    requires NoDangling(w) && Allowed(w, a) && (a.DoGroupAdd? || a.DoGroupWait?)
    ensures OnlyOwn(w, Step(w, a).0, a.g)
  {
    assert MakeSync(w, a.key).gs == w.gs;
  }

  lemma ChannelIsOwn(w: World, a: Action)
    requires a.DoSend? || a.DoRecv? || a.DoSelect? || a.DoResume?
    requires NoDangling(w) && Allowed(w, a)
    ensures OnlyOwn(w, Step(w, a).0, a.g)
  {
    match a
    case DoSend(g, c, val) => SendIsOwn(w, g, c, val);
    case DoRecv(g, c) => RecvIsOwn(w, g, c);
    case DoSelect(g, cases, blocking) => SelectIsOwn(w, g, cases, blocking);
    case DoResume(g) => ResumeIsOwn(w, g);
  }

  lemma AbortIsOwn(w: World, g: Gid)
    requires g in w.gs && KnownWait(w, g)
    ensures OnlyOwn(w, Abort(w, g), g) && Abort(w, g).gs[g].wait.Aborted?
  {
  }

  /** An action that starts no goroutine changes no other goroutine's record. */
  lemma StepIsOwn(w: World, a: Action)
    requires NoDangling(w) && Allowed(w, a) && !a.DoStart? && !a.DoGo?
    ensures OnlyOwn(w, Step(w, a).0, a.g)
  {
    if a.DoSend? || a.DoRecv? || a.DoSelect? || a.DoResume? {
      ChannelIsOwn(w, a);
    } else if a.DoAbort? {
      AbortIsOwn(w, a.g);
    } else if OnMutex(a) {
      MutexIsOwn(w, a);
    } else if a.DoGroupAdd? || a.DoGroupWait? {
      GroupIsOwn(w, a);
    }
  }

  // ------------------------------------------------------------------
  // The joint system

  /** Goroutine g waits for something. */
  predicate Waiting(w: World, g: Gid) {
    g in w.gs && !w.gs[g].wait.NoWait? && !w.gs[g].wait.Aborted?
  }

  function ReadySet(w: World): set<Gid> {
    set g | g in w.gs && Ready(w, g)
  }

  datatype Joint = Joint(s: Baton.State, w: World)

  /** What goroutine g does while it holds the baton: its own actions, ending its own waits among them. */
  ghost predicate Works(w: World, acts: seq<Action>, g: Gid, w': World)
    decreases |acts|
  {
    if acts == [] then w' == w
    else
      && NoDangling(w) && Allowed(w, acts[0]) && acts[0].g == g && !acts[0].DoStart? && !acts[0].DoAbort?
      && Works(Step(w, acts[0]).0, acts[1..], g, w')
  }

  /** The goroutines that go statements among acts start. */
  function Children(acts: seq<Action>): seq<Gid> {
    if acts == [] then [] else (if acts[0].DoGo? then [acts[0].child] else []) + Children(acts[1..])
  }

  /** What a step of the protocol is in the runtime. A goroutine blocks in a wait and ends outside of
      one; the readiness that pickNext consults is that of the runtime's waits. */
  ghost predicate Realizes(j: Joint, a: Baton.Step, acts: seq<Action>, w': World) {
    match a
    case Work(g, ready, spawned, _) => Works(j.w, acts, g, w') && Children(acts) == spawned && ready == ReadySet(w')
    case Block(g, _, _) => acts == [] && w' == j.w && Waiting(j.w, g)
    case Exit(g, ready, _) => acts == [] && w' == j.w && g in j.w.gs && j.w.gs[g].wait.NoWait? && ready == ReadySet(w')
    case Unwind(g, ready) =>
      acts == [DoAbort(g)] && NoDangling(j.w) && Allowed(j.w, DoAbort(g)) && w' == Step(j.w, DoAbort(g)).0 && ready == ReadySet(w')
    case _ => j.s.halting || (acts == [] && w' == j.w)
  }

  datatype JointRun = JointRun(run: Baton.Run, worlds: seq<World>, acts: seq<seq<Action>>)

  /** Every run starts with one goroutine that can act. */
  ghost predicate IsJointRun(r: JointRun) {
    && Baton.IsRun(r.run) && |r.worlds| == |r.run.states| && |r.acts| == |r.run.steps|
    && r.run.states[0].driver in r.worlds[0].gs && (forall g :: !Waiting(r.worlds[0], g))
    && forall n {:trigger r.acts[n]} :: 0 <= n < |r.acts| ==>
         Realizes(Joint(r.run.states[n], r.worlds[n]), r.run.steps[n], r.acts[n], r.worlds[n + 1])
  }

  /** Goroutine g has started or is about to, and has not ended. */
  predicate Unended(s: Baton.State, g: Gid) {
    g in s.hosts || g in s.queue
  }

  /** Until the run is halted, the protocol's view of waits is the runtime's. */
  ghost predicate Coupled(j: Joint) {
    !j.s.halting ==>
      && j.s.ready == ReadySet(j.w)
      && (forall g :: g in j.s.hosts ==> g in j.w.gs)
      && (forall g :: g in j.s.queue ==> g in j.w.gs && j.w.gs[g].wait.NoWait?)
      && (forall g :: g in j.s.hosts && g in j.s.blocked && g !in j.s.aborted ==> Waiting(j.w, g))
  }

  // ------------------------------------------------------------------
  // Coupling

  /** Below lo, goroutines other than g are the same, and from lo on those that could act still can. */
  ghost predicate Undisturbed(w: World, w': World, g: Gid, lo: Gid) {
    && g in w'.gs
    && (forall h :: h in w.gs && h != g && h < lo ==> h in w'.gs && w'.gs[h] == w.gs[h])
    && (forall c :: c in w.gs && c >= lo && w.gs[c].wait.NoWait? ==> c in w'.gs && w'.gs[c].wait.NoWait?)
  }

  lemma ActUndisturbs(w: World, a: Action, g: Gid, lo: Gid)
    requires NoDangling(w) && Allowed(w, a) && a.g == g && !a.DoStart? && g in w.gs && g < lo && (a.DoGo? ==> lo <= a.child)
    ensures Undisturbed(w, Step(w, a).0, g, lo)
    ensures a.DoGo? ==> a.child in Step(w, a).0.gs && Step(w, a).0.gs[a.child].wait.NoWait?
  {
    if !a.DoGo? {
      StepIsOwn(w, a);
    }
  }

  /** While g works, others stay as they are; the goroutines it starts can act. */
  lemma {:induction false} WorkUndisturbs(w: World, acts: seq<Action>, g: Gid, w': World, lo: Gid)
    requires Works(w, acts, g, w') && g in w.gs && g < lo && (forall c :: c in Children(acts) ==> lo <= c)
    ensures Undisturbed(w, w', g, lo)
    ensures forall c :: c in Children(acts) ==> c in w'.gs && w'.gs[c].wait.NoWait?
    decreases |acts|
  {
    if acts != [] {
      var w1 := Step(w, acts[0]).0;
      assert forall c :: c in Children(acts[1..]) ==> c in Children(acts);
      assert acts[0].DoGo? ==> acts[0].child in Children(acts);
      ActUndisturbs(w, acts[0], g, lo);
      WorkUndisturbs(w1, acts[1..], g, w', lo);
    }
  }

  lemma WorkKeepsCoupled(j: Joint, a: Baton.Step, acts: seq<Action>, w': World)
    requires Baton.Inv(j.s) && Coupled(j) && a.Work? && Baton.Enabled(j.s, a) && Realizes(j, a, acts, w')
    ensures Coupled(Joint(Baton.Next(j.s, a), w'))
  {
    if !j.s.halting {
      WorkUndisturbs(j.w, acts, a.g, w', j.s.next);
    }
  }

  lemma BlockKeepsCoupled(j: Joint, a: Baton.Step, acts: seq<Action>, w': World)
    requires Baton.Inv(j.s) && Coupled(j) && a.Block? && Baton.Enabled(j.s, a) && Realizes(j, a, acts, w')
    ensures Coupled(Joint(Baton.Next(j.s, a), w'))
  {
    var s1 := j.s.(blocked := j.s.blocked + {a.g}, pcs := j.s.pcs[a.g := Baton.Parked]);
    assert Coupled(Joint(s1, w'));
  }

  /** Goroutine g is gone from the hosts, and no other has changed. */
  lemma WithoutIsCoupled(j: Joint, s': Baton.State, w': World, g: Gid)
    requires Coupled(j) && OnlyOwn(j.w, w', g) && g !in j.s.queue && s'.ready == ReadySet(w')
    requires s'.hosts == j.s.hosts - {g} && s'.queue == j.s.queue && s'.blocked == j.s.blocked && s'.aborted == j.s.aborted
    requires s'.halting == j.s.halting
    ensures Coupled(Joint(s', w'))
  {
  }

  lemma UnwindKeepsCoupled(j: Joint, a: Baton.Step, acts: seq<Action>, w': World)
    requires Baton.Inv(j.s) && Coupled(j) && a.Unwind? && Baton.Enabled(j.s, a) && Realizes(j, a, acts, w')
    ensures Coupled(Joint(Baton.Next(j.s, a), w'))
  {
    StepIsOwn(j.w, DoAbort(a.g));
    WithoutIsCoupled(j, Baton.Next(j.s, a), w', a.g);
  }

  lemma WakeKeepsCoupled(j: Joint, a: Baton.Step, acts: seq<Action>, w': World)
    requires Baton.Inv(j.s) && Coupled(j) && a.Wake? && Baton.Enabled(j.s, a) && Realizes(j, a, acts, w')
    ensures Coupled(Joint(Baton.Next(j.s, a), w'))
  {
  }

  lemma OtherKeepsCoupled(j: Joint, a: Baton.Step, acts: seq<Action>, w': World)
    requires Baton.Inv(j.s) && Coupled(j) && Baton.Enabled(j.s, a) && Realizes(j, a, acts, w')
    requires a.Exit? || a.BodyEnds? || a.Drain? || a.AbortNext?
    ensures Coupled(Joint(Baton.Next(j.s, a), w'))
  {
  }

  lemma StepKeepsCoupled(j: Joint, a: Baton.Step, acts: seq<Action>, w': World)
    requires Baton.Inv(j.s) && Coupled(j) && Baton.Enabled(j.s, a) && Realizes(j, a, acts, w')
    ensures Coupled(Joint(Baton.Next(j.s, a), w'))
  {
    match a
    case Work(_, _, _, _) => WorkKeepsCoupled(j, a, acts, w');
    case Block(_, _, _) => BlockKeepsCoupled(j, a, acts, w');
    case Unwind(_, _) => UnwindKeepsCoupled(j, a, acts, w');
    case Wake(_, _) => WakeKeepsCoupled(j, a, acts, w');
    case _ => OtherKeepsCoupled(j, a, acts, w');
  }

  lemma NoneReady(w: World)
    requires forall g :: !Waiting(w, g)
    ensures ReadySet(w) == {}
  {
    forall g | g in w.gs ensures !Ready(w, g) {
      assert !Waiting(w, g);
    }
  }

  lemma BeginIsCoupled(driver: Gid, w: World)
    requires driver in w.gs && forall g :: !Waiting(w, g)
    ensures Coupled(Joint(Baton.Begin(driver), w))
  {
    NoneReady(w);
  }

  lemma RunStepKeepsCoupled(r: JointRun, n: nat)
    requires IsJointRun(r) && n < |r.acts| && Coupled(Joint(r.run.states[n], r.worlds[n])) && Baton.Inv(r.run.states[n])
    ensures Coupled(Joint(r.run.states[n + 1], r.worlds[n + 1]))
  {
    var j, a := Joint(r.run.states[n], r.worlds[n]), r.run.steps[n];
    assert Realizes(j, a, r.acts[n], r.worlds[n + 1]);
    assert Baton.Enabled(j.s, a);
    StepKeepsCoupled(j, a, r.acts[n], r.worlds[n + 1]);
  }

  lemma {:induction false} RunsKeepCoupled(r: JointRun, n: nat)
    requires IsJointRun(r) && n < |r.worlds|
    ensures Coupled(Joint(r.run.states[n], r.worlds[n]))
  {
    if n == 0 {
      BeginIsCoupled(r.run.states[0].driver, r.worlds[0]);
    } else {
      RunsKeepCoupled(r, n - 1);
      Baton.RunsKeepInv(r.run, n - 1);
      RunStepKeepsCoupled(r, n - 1);
    }
  }

  // ------------------------------------------------------------------
  // Deadlock

  /** No goroutine that has not ended has anything it may do; aborting it is not its doing. */
  ghost predicate NobodyCanAct(j: Joint) {
    forall a: Action :: Unended(j.s, a.g) && Allowed(j.w, a) ==> a.DoAbort? || a.DoStart?
  }

  /** The driver's goroutine blocks, or is woken where it is parked. */
  predicate DriverTurns(s: Baton.State, a: Baton.Step) {
    (a.Block? && a.g == s.driver) || (a.Wake? && a.g == s.driver && Baton.At(s, s.driver, Baton.Parked))
  }

  /** When the driver's goroutine blocks or is parked and woken, every other host is parked. */
  lemma OthersAreParked(s: Baton.State, a: Baton.Step, g: Gid)
    requires Baton.Inv(s) && Baton.Enabled(s, a) && DriverTurns(s, a) && g in s.hosts && g != s.driver
    ensures g in s.blocked && g !in s.aborted
  {
  }

  /** A goroutine that waits can only go on when its wait is over. */
  lemma WaitingCanOnlyResume(w: World, g: Gid, a: Action)
    requires Waiting(w, g) && a.g == g && Allowed(w, a) && !a.DoAbort? && !a.DoStart?
    ensures a == DoResume(g) && Ready(w, g)
  {
  }

  lemma HostsWait(j: Joint, a: Baton.Step, acts: seq<Action>, w': World, g: Gid)
    requires Baton.Inv(j.s) && Coupled(j) && Baton.Enabled(j.s, a) && Realizes(j, a, acts, w') && !j.s.halting && DriverTurns(j.s, a)
    requires g in j.s.hosts
    ensures Waiting(j.w, g) && (g != j.s.driver ==> g in j.s.blocked && g !in j.s.aborted)
  {
    if g != j.s.driver {
      OthersAreParked(j.s, a, g);
    }
  }

  lemma SomeQueued(queue: seq<Gid>) returns (g: Gid)
    ensures queue != [] ==> g in queue
  {
    g := if queue != [] then queue[0] else 0;
  }

  /** All asleep, in the protocol's terms, is nobody able to act, in the runtime's. */
  lemma AsleepIffNobodyCanAct(j: Joint, a: Baton.Step, acts: seq<Action>, w': World)
    requires Baton.Inv(j.s) && Coupled(j) && Baton.Enabled(j.s, a) && Realizes(j, a, acts, w') && !j.s.halting && DriverTurns(j.s, a)
    ensures Baton.AllAsleep(j.s) && j.s.driver !in j.s.ready <==> NobodyCanAct(j)
  {
    var s, w := j.s, j.w;
    forall g | g in s.hosts
      ensures Waiting(w, g) && (g != s.driver ==> g in s.blocked && g !in s.aborted) && (g in s.ready <==> Ready(w, g))
    {
      HostsWait(j, a, acts, w', g);
    }
    if Baton.AllAsleep(s) && s.driver !in s.ready {
      forall b: Action | Unended(s, b.g) && Allowed(w, b)
        ensures b.DoAbort? || b.DoStart?
      {
        if !b.DoAbort? && !b.DoStart? {
          WaitingCanOnlyResume(w, b.g, b);
        }
      }
    }
    if NobodyCanAct(j) {
      forall g ensures g !in s.queue {
        assert g in s.queue ==> Allowed(w, DoUnlock(g, 0));
      }
      var q := SomeQueued(s.queue);
      forall g | g in s.hosts ensures g !in s.ready {
        assert Ready(w, g) ==> Allowed(w, DoResume(g));
      }
      assert s.driver in s.hosts;
    }
  }

  /** A deadlock is recorded exactly when the driver's goroutine blocks, or is woken where it is parked,
      and no goroutine that has not ended can do anything, unless the run is halting or one is
      recorded. */
  lemma DeadlockIffNobodyCanAct(r: JointRun, n: nat)
    requires IsJointRun(r) && n < |r.acts|
    ensures var s, a := r.run.states[n], r.run.steps[n];
      r.run.states[n + 1].deadlock != s.deadlock <==>
      DriverTurns(s, a) && NobodyCanAct(Joint(s, r.worlds[n])) && !s.halting && s.deadlock.None?
  {
    RunsKeepCoupled(r, n);
    Baton.RunsKeepInv(r.run, n);
    Baton.DeadlockIsReported(r.run, n);
    var s, a := r.run.states[n], r.run.steps[n];
    assert Baton.Enabled(s, a);
    assert Realizes(Joint(s, r.worlds[n]), a, r.acts[n], r.worlds[n + 1]);
    if !s.halting && DriverTurns(s, a) {
      AsleepIffNobodyCanAct(Joint(s, r.worlds[n]), a, r.acts[n], r.worlds[n + 1]);
    }
  }
}
