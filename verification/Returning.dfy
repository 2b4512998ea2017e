/** runDriver returns: once the run is halting, whatever the protocol does, and as long as no
    goroutine works on, every step brings the end nearer. */
module Returning {
  import opened Detector
  import opened Baton

  /** The running goroutines other than the driver's. */
  function Runners(s: State): set<Gid> {
    set g | g in s.pcs && g != s.driver && s.pcs[g].Running?
  }

  /** The other started ones. */
  function Sleepers(s: State): set<Gid> {
    set g | g in s.pcs && g != s.driver && !s.pcs[g].Running?
  }

  /** What the driver has still to do. */
  function DriverLeft(s: State): nat
    requires s.driver in s.pcs
  {
    match s.pcs[s.driver]
    case Returned => 0
    case Aborting(_, atEnd) => if atEnd then 3 else 8
    case AwaitExit(id, _, atEnd) => (if atEnd then 3 else 8) - (if id in s.pcs then 2 else 0)
    case Draining => 4
    case DrainWait => 4
    case Running => if s.driver in s.aborted then 5 else 9
    case _ => 8
  }

  /** What the message in flight leads to. */
  function MailLeft(s: State): nat {
    if s.turn !in s.mail then 0 else if s.mail[s.turn].WakeRun? then 3 else 1
  }

  function Left(s: State): nat
    requires s.driver in s.pcs
  {
    6 * |Runners(s)| + 4 * |Sleepers(s)| + DriverLeft(s) + MailLeft(s)
  }

  // ------------------------------------------------------------------
  // How the two sets change

  lemma Unmoved(s: State, s': State)
    requires s'.driver == s.driver && s'.pcs.Keys == s.pcs.Keys
    requires forall g :: g in s.pcs && g != s.driver ==> s'.pcs[g] == s.pcs[g]
    ensures Runners(s') == Runners(s) && Sleepers(s') == Sleepers(s)
  {
  }

  lemma Gone(s: State, s': State, g: Gid)
    requires s'.driver == s.driver && g in s.pcs && g != s.driver && s'.pcs == s.pcs - {g}
    ensures 6 * |Runners(s')| + 4 * |Sleepers(s')| + (if s.pcs[g].Running? then 6 else 4) == 6 * |Runners(s)| + 4 * |Sleepers(s)|
  {
    if s.pcs[g].Running? {
      assert Runners(s') == Runners(s) - {g} && g in Runners(s) && Sleepers(s') == Sleepers(s);
    } else {
      assert Sleepers(s') == Sleepers(s) - {g} && g in Sleepers(s) && Runners(s') == Runners(s);
    }
  }

  lemma Moved(s: State, s': State, g: Gid)
    requires s'.driver == s.driver && g in s.pcs && g in s'.pcs && g != s.driver && s'.pcs == s.pcs[g := s'.pcs[g]]
    ensures 6 * |Runners(s')| + 4 * |Sleepers(s')| + (if s.pcs[g].Running? then 6 else 4)
         == 6 * |Runners(s)| + 4 * |Sleepers(s)| + (if s'.pcs[g].Running? then 6 else 4)
  {
    var out := s.(pcs := s.pcs - {g});
    Gone(s, out, g);
    Gone(s', out.(driver := s.driver), g) by { assert out.pcs == s'.pcs - {g}; }
  }

  // ------------------------------------------------------------------
  // Steps

  lemma BlockNears(s: State, a: Step)
    requires Inv(s) && s.halting && a.Block? && Enabled(s, a)
    ensures Next(s, a).driver in Next(s, a).pcs && Left(Next(s, a)) < Left(s)
  {
    var s' := Next(s, a);
    ActsAlone(s, a.g);
    if a.g == s.driver {
      Unmoved(s, s');
    } else {
      Moved(s, s', a.g);
    }
  }

  lemma ExitNears(s: State, a: Step)
    requires Inv(s) && s.halting && a.Exit? && Enabled(s, a)
    ensures Next(s, a).driver in Next(s, a).pcs && Left(Next(s, a)) < Left(s)
  {
    ActsAlone(s, a.g);
    Gone(s, Next(s, a), a.g);
  }

  lemma UnwindNears(s: State, a: Step)
    requires Inv(s) && a.Unwind? && Enabled(s, a)
    ensures Next(s, a).driver in Next(s, a).pcs && Left(Next(s, a)) < Left(s)
  {
    ActsAlone(s, a.g);
    Gone(s, Next(s, a), a.g);
  }

  lemma WakeNears(s: State, a: Step)
    requires Inv(s) && a.Wake? && Enabled(s, a)
    ensures Next(s, a).driver in Next(s, a).pcs && Left(Next(s, a)) < Left(s)
  {
    var s' := Next(s, a);
    WakesAlone(s, a.g);
    if a.g == s.driver {
      Unmoved(s, s');
    } else {
      Moved(s, s', a.g);
    }
  }

  lemma DriverNears(s: State, a: Step)
    requires Inv(s) && s.halting && (a.BodyEnds? || a.Drain? || a.AbortNext?) && Enabled(s, a)
    ensures Next(s, a).driver in Next(s, a).pcs && Left(Next(s, a)) < Left(s)
  {
    ActsAlone(s, s.driver);
    Unmoved(s, Next(s, a));
  }

  /** Once the run is halting, every step but further work brings the end nearer. */
  lemma StepNears(s: State, a: Step)
    requires Inv(s) && s.halting && Enabled(s, a) && !a.Work?
    ensures Next(s, a).driver in Next(s, a).pcs && Left(Next(s, a)) < Left(s) && Next(s, a).halting
  {
    match a
    case Block(_, _, _) => BlockNears(s, a);
    case Exit(_, _, _) => ExitNears(s, a);
    case Wake(_, _) => WakeNears(s, a);
    case Unwind(_, _) => UnwindNears(s, a);
    case _ => DriverNears(s, a);
  }

  // ------------------------------------------------------------------
  // Runs

  /** A run that is halting and works no more has at most Left steps to go. */
  lemma {:induction false} HaltingRunsAreShort(r: Run, n: nat, m: nat)
    requires IsRun(r) && n <= m < |r.states| && r.states[n].halting
    requires forall k {:trigger r.steps[k]} :: n <= k < m ==> !r.steps[k].Work?
    ensures r.states[m].halting && r.states[n].driver in r.states[n].pcs && r.states[m].driver in r.states[m].pcs
    ensures m - n + Left(r.states[m]) <= Left(r.states[n])
  {
    RunsKeepInv(r, n);
    if n < m {
      HaltingRunsAreShort(r, n, m - 1);
      RunsKeepInv(r, m - 1);
      var s, a := r.states[m - 1], r.steps[m - 1];
      assert Enabled(s, a) && r.states[m - 1 + 1] == Next(s, a);
      StepNears(s, a);
    }
  }

  lemma OneStepMore(r: Run, a: Step)
    requires IsRun(r) && Enabled(r.states[|r.steps|], a)
    ensures IsRun(Run(r.states + [Next(r.states[|r.steps|], a)], r.steps + [a]))
  {
    var r' := Run(r.states + [Next(r.states[|r.steps|], a)], r.steps + [a]);
    forall n {:trigger r'.steps[n]} | 0 <= n < |r'.steps|
      ensures Enabled(r'.states[n], r'.steps[n]) && r'.states[n + 1] == Next(r'.states[n], r'.steps[n])
    {
      if n < |r.steps| {
        assert r'.steps[n] == r.steps[n];
      }
    }
  }

  /** Run r' is r and at most n steps more, none of them work of the program. */
  ghost predicate GoesOnTo(r: Run, r': Run, n: nat) {
    && r.steps <= r'.steps && r.states <= r'.states && |r'.steps| <= |r.steps| + n
    && forall k {:trigger r'.steps[k]} :: |r.steps| <= k < |r'.steps| ==> !r'.steps[k].Work?
  }

  /** And it can always be brought to its end: from any state of a halting run, runDriver returns within
      Left steps, none of them work of the program. */
  lemma {:induction false} HaltingRunsReturn(r: Run, n: nat) returns (r': Run)
    requires IsRun(r) && r.states[|r.steps|].halting
    requires var s := r.states[|r.steps|]; s.driver in s.pcs && n == Left(s)
    ensures IsRun(r') && GoesOnTo(r, r', n) && Ended(r'.states[|r'.steps|])
    decreases n
  {
    var s := r.states[|r.steps|];
    if Ended(s) {
      r' := r;
    } else {
      var a := NeverStuck(r, |r.steps|);
      RunsKeepInv(r, |r.steps|);
      StepNears(s, a);
      OneStepMore(r, a);
      var r1 := Run(r.states + [Next(s, a)], r.steps + [a]);
      r' := HaltingRunsReturn(r1, Left(Next(s, a)));
      assert r1.steps[|r.steps|] == a;
    }
  }
}
