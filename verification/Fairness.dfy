/** How the round robin strategy serves goroutines under the hand-over protocol. The caller of pickNext
    is never a candidate, so with two goroutines able to run both are served for ever, and with more the
    second smallest is not. */
module Fairness {
  import opened Detector
  import opened Baton
  import opened Scheduling

  /** The state in which step a picks the next goroutine, and the caller. */
  function DecisionState(s: State, a: Step): State {
    if a.Exit? then s.(hosts := s.hosts - {a.g}, ready := a.ready) else s
  }

  predicate Decides(a: Step) {
    a.Block? || a.Exit? || a.Drain?
  }

  function Decider(s: State, a: Step): Gid
    requires Decides(a)
  {
    if a.Drain? then s.driver else a.g
  }

  /** In run r every pick is the one whose turn it is; last[n] is where the turn is at state n. */
  ghost predicate ByTurn(r: Run, last: seq<nat>) {
    && |last| == |r.states| == |r.steps| + 1 && last[0] == 0
    && forall n {:trigger r.steps[n]} :: 0 <= n < |r.steps| ==> StepByTurn(r.states[n], r.steps[n], last[n], last[n + 1])
  }

  ghost predicate StepByTurn(s: State, a: Step, last: nat, last': nat) {
    if Decides(a) then (PickOf(a), last') == PickByTurn(DecisionState(s, a), Decider(s, a), last) else last' == last
  }

  // ------------------------------------------------------------------
  // Who is picked

  /** The candidates of a decision. */
  function CandSet(s: State, self: Gid): set<Gid> {
    (set g | g in s.queue) + ReadyOthers(s, self)
  }

  function Below(xs: set<Gid>, g: Gid): set<Gid> {
    set x | x in xs && x < g
  }

  predicate Increasing(xs: seq<Gid>) {
    forall i, j :: 0 <= i < j < |xs| ==> xs[i] < xs[j]
  }

  function Elements(xs: seq<Gid>): set<Gid> {
    set x | x in xs
  }

  lemma {:induction false} IncreasingSize(xs: seq<Gid>)
    requires Increasing(xs)
    ensures |Elements(xs)| == |xs|
  {
    if xs != [] {
      var n := |xs| - 1;
      assert Elements(xs) == Elements(xs[..n]) + {xs[n]};
      IncreasingSize(xs[..n]);
    }
  }

  /** In an increasing list as many elements are below an element as come before it. */
  lemma PlaceIsRank(xs: seq<Gid>, p: nat)
    requires Increasing(xs) && p < |xs|
    ensures |Below(Elements(xs), xs[p])| == p
  {
    assert Below(Elements(xs), xs[p]) == Elements(xs[..p]) by {
      forall x | x in Below(Elements(xs), xs[p])
        ensures x in xs[..p]
      {
        var i :| 0 <= i < |xs| && xs[i] == x;
        assert xs[..p][i] == x;
      }
    }
    IncreasingSize(xs[..p]);
  }

  lemma DistinctCounts(xs: seq<Gid>)
    requires Distinct(xs)
    ensures multiset(xs) == multiset(Elements(xs))
  {
    forall x
      ensures multiset(xs)[x] == multiset(Elements(xs))[x]
    {
      assert x in xs <==> x in multiset(xs);
      assert multiset(xs)[x] <= 1 by {
        CountAtMostOne(xs, x);
      }
    }
  }

  lemma {:induction false} CountAtMostOne(xs: seq<Gid>, x: Gid)
    requires Distinct(xs)
    ensures multiset(xs)[x] <= 1
  {
    if xs != [] {
      var n := |xs| - 1;
      assert xs == xs[..n] + [xs[n]];
      CountAtMostOne(xs[..n], x);
      assert x == xs[n] ==> x !in xs[..n];
      assert x in multiset(xs[..n]) <==> x in xs[..n];
    }
  }

  /** A queued goroutine is not also waiting, and none is queued twice. */
  predicate CleanQueue(s: State) {
    Distinct(s.queue) && forall g :: g in s.queue ==> g !in s.hosts
  }

  lemma DecisionQueueIsClean(s: State, a: Step)
    requires Inv(s)
    ensures CleanQueue(DecisionState(s, a))
  {
  }

  /** The list offered to the scheduler is the set of candidates in increasing order. */
  lemma CandListIsIncreasing(s: State, self: Gid)
    requires CleanQueue(s)
    ensures Increasing(CandList(s, self)) && Elements(CandList(s, self)) == CandSet(s, self)
  {
    var cands := CandList(s, self);
    DistinctCounts(s.queue);
    assert multiset(cands) == multiset(CandSet(s, self));
    CandListMembers(s, self, cands);
    forall i, j | 0 <= i < j < |cands|
      ensures cands[i] < cands[j]
    {
      assert multiset(CandSet(s, self))[cands[i]] <= 1;
      TwiceCounts(cands, i, j);
    }
  }

  lemma TwiceCounts(xs: seq<Gid>, i: nat, j: nat)
    requires i < j < |xs|
    ensures xs[i] == xs[j] ==> multiset(xs)[xs[i]] >= 2
  {
    assert xs == xs[..j] + xs[j..];
    assert xs[i] in xs[..j] && xs[j] in xs[j..];
  }

  /** A list that increases is determined by its elements. */
  lemma IncreasingUnique(a: seq<Gid>, b: seq<Gid>)
    requires Increasing(a) && Increasing(b) && Elements(a) == Elements(b)
    ensures a == b
  {
    DistinctCounts(a);
    DistinctCounts(b);
    OrderedUnique(a, b);
  }

  /** In every run with round robin a goroutine is picked exactly when the run is not halting, it is a
      candidate, and the candidates below it are as many as the turn says. */
  lemma PickedIffRank(r: Run, last: seq<nat>, n: nat, g: Gid)
    requires IsRun(r) && ByTurn(r, last) && n < |r.steps| && Decides(r.steps[n])
    ensures var s, self := DecisionState(r.states[n], r.steps[n]), Decider(r.states[n], r.steps[n]);
      var cands := CandSet(s, self);
      PickOf(r.steps[n]) == Some(g) <==>
        !s.halting && Candidate(s, self, g) && |cands| > 0 && |Below(cands, g)| == Cycle(last[n], |cands|)
  {
    RunsKeepInv(r, n);
    DecisionQueueIsClean(r.states[n], r.steps[n]);
    assert StepByTurn(r.states[n], r.steps[n], last[n], last[n + 1]);
    var s, self := DecisionState(r.states[n], r.steps[n]), Decider(r.states[n], r.steps[n]);
    var cands := CandList(s, self);
    CandListIsIncreasing(s, self);
    CandListMembers(s, self, cands);
    IncreasingSize(cands);
    forall p | 0 <= p < |cands|
      ensures |Below(CandSet(s, self), cands[p])| == p
    {
      PlaceIsRank(cands, p);
    }
    if Candidate(s, self, g) {
      var p :| 0 <= p < |cands| && cands[p] == g;
    }
  }

  // ------------------------------------------------------------------
  // The baton goes to the goroutine picked

  /** Goroutine g has the baton, or the message that will give it to it. */
  predicate Holds(s: State, g: Gid) {
    && s.turn == g && g in s.pcs
    && (s.pcs[g].Running? || (g == s.driver && s.pcs[g].Draining?) || (s.pcs[g].Parked? && g in s.mail && s.mail[g].WakeRun?))
  }

  lemma PickHolds(s: State, a: Step)
    requires Inv(s) && Enabled(s, a) && Decides(a) && PickOf(a).Some?
    ensures Holds(Next(s, a), PickOf(a).value)
  {
  }

  lemma HoldsOn(s: State, a: Step, g: Gid)
    requires Inv(s) && Enabled(s, a) && !Decides(a) && Holds(s, g)
    ensures Holds(Next(s, a), g)
  {
  }

  lemma HolderDecides(s: State, a: Step, g: Gid)
    requires Inv(s) && Enabled(s, a) && Decides(a) && Holds(s, g)
    ensures Decider(s, a) == g
  {
  }

  lemma {:induction false} HeldUntil(r: Run, i: nat, j: nat)
    requires IsRun(r) && i < j < |r.states| && Decides(r.steps[i]) && PickOf(r.steps[i]).Some?
    requires forall n :: i < n < j ==> !Decides(r.steps[n])
    ensures Holds(r.states[j], PickOf(r.steps[i]).value)
  {
    var m := j - 1;
    RunsKeepInv(r, m);
    assert Enabled(r.states[m], r.steps[m]) && r.states[m + 1] == Next(r.states[m], r.steps[m]);
    if m == i {
      PickHolds(r.states[i], r.steps[i]);
    } else {
      HeldUntil(r, i, m);
      HoldsOn(r.states[m], r.steps[m], PickOf(r.steps[i]).value);
    }
  }

  lemma {:induction false} TurnStays(r: Run, last: seq<nat>, i: nat, j: nat)
    requires IsRun(r) && ByTurn(r, last) && i <= j < |r.states| && forall n :: i <= n < j ==> !Decides(r.steps[n])
    ensures last[j] == last[i]
  {
    if i < j {
      TurnStays(r, last, i, j - 1);
      assert StepByTurn(r.states[j - 1], r.steps[j - 1], last[j - 1], last[j - 1 + 1]);
    }
  }

  // ------------------------------------------------------------------
  // A set of goroutines that stay able to run

  /** Nothing is decided between the k-th of these steps and the next. */
  ghost predicate NextDecision(r: Run, ds: seq<nat>, k: nat)
    requires k + 1 < |ds| && ds[k + 1] < |r.steps|
  {
    ds[k] < ds[k + 1] && forall n :: ds[k] < n < ds[k + 1] ==> !Decides(r.steps[n])
  }

  /** ds are the steps of some decisions of r, all those between the first and the last. */
  ghost predicate Consecutive(r: Run, ds: seq<nat>) {
    && |r.states| == |r.steps| + 1
    && (forall k :: 0 <= k < |ds| ==> ds[k] < |r.steps| && Decides(r.steps[ds[k]]))
    && (forall k :: 0 <= k < |ds| - 1 ==> NextDecision(r, ds, k))
  }

  /** At step a, which is not in a halting run, one of gs decides and all the others are the candidates. */
  ghost predicate AllOthersReady(s: State, a: Step, gs: seq<Gid>)
    requires Decides(a)
  {
    && !s.halting && Decider(s, a) in gs
    && forall g :: Candidate(DecisionState(s, a), Decider(s, a), g) <==> g in gs && g != Decider(s, a)
  }

  /** During these decisions exactly the goroutines gs can run. */
  ghost predicate Steady(r: Run, ds: seq<nat>, gs: seq<Gid>) {
    && |gs| >= 2 && Increasing(gs) && Consecutive(r, ds)
    && forall k {:trigger ds[k]} :: 0 <= k < |ds| ==> AllOthersReady(r.states[ds[k]], r.steps[ds[k]], gs)
  }

  // ------------------------------------------------------------------
  // Places

  /** The place, among all n, of the candidate at place l when the goroutine at place c is left out. */
  function PlaceAfter(l: nat, c: nat): nat {
    if l < c then l else l + 1
  }

  /** Decision k: the turn goes up, and the goroutine at the next place left becomes the caller. */
  predicate PlaceStep(ls: seq<nat>, cs: seq<nat>, n: nat, k: nat)
    requires n >= 2 && k + 1 < |ls| && k + 1 < |cs|
  {
    ls[k + 1] == Cycle(ls[k], n - 1) && cs[k + 1] == PlaceAfter(ls[k + 1], cs[k])
  }

  /** ls are the turns and cs the callers' places before each decision, and after the last. */
  ghost predicate Places(ls: seq<nat>, cs: seq<nat>, n: nat) {
    && n >= 2 && |ls| == |cs| && (forall k :: 0 <= k < |cs| ==> cs[k] < n)
    && (forall k :: 0 <= k < |cs| - 1 ==> PlaceStep(ls, cs, n, k))
  }

  /** The places that the decisions never leave. */
  predicate Trapped(l: nat, c: nat, n: nat) {
    (l == 0 && c == 0) || (1 <= l < n - 1 && c == l + 1)
  }

  lemma TrappedStays(l: nat, c: nat, n: nat)
    requires n >= 3 && Trapped(l, c, n)
    ensures var l' := Cycle(l, n - 1); Trapped(l', PlaceAfter(l', c), n) && PlaceAfter(l', c) != 1
  {
    CycleSteps(l, n - 1);
  }

  lemma PlacesClimb(ls: seq<nat>, cs: seq<nat>, n: nat, from: nat)
    requires Places(ls, cs, n) && from + n - 1 < |ls|
    ensures Climbing(ls, from + 1, from + n - 1, n - 1) && ls[from + 1] < n - 1
  {
    assert PlaceStep(ls, cs, n, from);
    forall j | from + 1 <= j < from + n - 1
      ensures ls[j] < n - 1 && ls[j + 1] == Up(ls[j], n - 1)
    {
      assert PlaceStep(ls, cs, n, j - 1) && PlaceStep(ls, cs, n, j);
      CycleSteps(ls[j], n - 1);
    }
  }

  lemma ZeroTraps(l: nat, c: nat, n: nat)
    requires n >= 3 && Cycle(l, n - 1) == 0
    ensures var c' := PlaceAfter(0, c); var l'' := Cycle(0, n - 1); Trapped(l'', PlaceAfter(l'', c'), n)
  {
    CycleSteps(0, n - 1);
  }

  /** From any start the turn is 0 within n - 1 decisions, and one later the trap has closed. */
  lemma TrapCloses(ls: seq<nat>, cs: seq<nat>, n: nat) returns (k: nat)
    requires Places(ls, cs, n) && n >= 3 && n < |ls|
    ensures 0 < k <= n && Trapped(ls[k], cs[k], n)
  {
    PlacesClimb(ls, cs, n, 0);
    var j := PlaceComes(ls, 0, n - 1, 0);
    assert PlaceStep(ls, cs, n, j - 1) && PlaceStep(ls, cs, n, j);
    ZeroTraps(ls[j - 1], cs[j - 1], n);
    k := j + 1;
  }

  lemma TrappedWithin(ls: seq<nat>, cs: seq<nat>, n: nat, k: nat)
    requires Places(ls, cs, n) && n >= 3 && n <= k < |ls|
    ensures Trapped(ls[k], cs[k], n)
  {
    var j := TrapCloses(ls, cs, n);
    TrappedFrom(ls, cs, n, j, k);
  }

  lemma {:induction false} TrappedFrom(ls: seq<nat>, cs: seq<nat>, n: nat, i: nat, k: nat)
    requires Places(ls, cs, n) && n >= 3 && i <= k < |ls| && Trapped(ls[i], cs[i], n)
    ensures Trapped(ls[k], cs[k], n) && (i < k ==> cs[k] != 1)
  {
    if i < k {
      TrappedFrom(ls, cs, n, i, k - 1);
      assert PlaceStep(ls, cs, n, k - 1);
      TrappedStays(ls[k - 1], cs[k - 1], n);
    }
  }

  lemma TrapSkips(ls: seq<nat>, cs: seq<nat>, n: nat, k: nat)
    requires Places(ls, cs, n) && n >= 3 && n <= k && k + 1 < |ls|
    ensures cs[k + 1] != 1
  {
    TrappedWithin(ls, cs, n, k);
    TrappedFrom(ls, cs, n, k, k + 1);
  }

  /** In the trap every place but 1 comes within n - 1 decisions. */
  lemma TrapGoesRound(ls: seq<nat>, cs: seq<nat>, n: nat, k: nat, p: nat) returns (j: nat)
    requires Places(ls, cs, n) && n >= 3 && k + n - 1 < |ls| && Trapped(ls[k], cs[k], n) && p < n && p != 1
    ensures k < j <= k + n - 1 && cs[j] == p
  {
    PlacesClimb(ls, cs, n, k);
    j := PlaceComes(ls, k, n - 1, if p == 0 then 0 else p - 1);
    TrappedFrom(ls, cs, n, k, j);
  }

  /** Two goroutines take turns. */
  lemma TwoAlternate(ls: seq<nat>, cs: seq<nat>, k: nat, p: nat) returns (j: nat)
    requires Places(ls, cs, 2) && k + 2 < |ls| && p < 2
    ensures k < j <= k + 2 && cs[j] == p
  {
    assert PlaceStep(ls, cs, 2, k) && PlaceStep(ls, cs, 2, k + 1);
    assert ls[k + 1] < 1 && ls[k + 2] < 1;
    assert cs[k] < 2;
    j := if cs[k + 1] == p then k + 1 else k + 2;
  }

  // ------------------------------------------------------------------
  // Runs walk the places

  /** Leaving one goroutine out of an increasing list. */
  function Without(gs: seq<Gid>, c: nat): seq<Gid>
    requires c < |gs|
  {
    gs[..c] + gs[c + 1..]
  }

  lemma WithoutIsCandList(s: State, self: Gid, gs: seq<Gid>, c: nat)
    requires CleanQueue(s) && Increasing(gs) && c < |gs| && gs[c] == self
    requires forall g :: Candidate(s, self, g) <==> g in gs && g != self
    ensures CandList(s, self) == Without(gs, c)
  {
    var cands := CandList(s, self);
    CandListIsIncreasing(s, self);
    CandListMembers(s, self, cands);
    forall g
      ensures g in Without(gs, c) <==> g in gs && g != self
    {
      if g in gs && g != self {
        var i :| 0 <= i < |gs| && gs[i] == g;
        assert g == Without(gs, c)[if i < c then i else i - 1];
      }
    }
    assert Elements(cands) == Elements(Without(gs, c));
    IncreasingUnique(cands, Without(gs, c));
  }

  /** What one decision does: the turn goes up, and it picks by place. */
  lemma DecisionPicks(r: Run, last: seq<nat>, n: nat, gs: seq<Gid>, c: nat)
    requires IsRun(r) && ByTurn(r, last) && n < |r.steps| && Decides(r.steps[n]) && |gs| >= 2 && Increasing(gs)
    requires AllOthersReady(r.states[n], r.steps[n], gs) && c < |gs| && gs[c] == Decider(r.states[n], r.steps[n])
    ensures last[n + 1] == Cycle(last[n], |gs| - 1) && PlaceAfter(last[n + 1], c) < |gs|
    ensures PickOf(r.steps[n]) == Some(gs[PlaceAfter(last[n + 1], c)])
  {
    var s, a := r.states[n], r.steps[n];
    RunsKeepInv(r, n);
    DecisionQueueIsClean(s, a);
    WithoutIsCandList(DecisionState(s, a), Decider(s, a), gs, c);
    assert StepByTurn(s, a, last[n], last[n + 1]);
  }

  /** The goroutine picked decides next, by the same turn. */
  lemma PickDecidesNext(r: Run, last: seq<nat>, i: nat, n: nat)
    requires IsRun(r) && ByTurn(r, last) && i < n < |r.steps| && Decides(r.steps[i]) && Decides(r.steps[n])
    requires PickOf(r.steps[i]).Some? && forall m :: i < m < n ==> !Decides(r.steps[m])
    ensures Decider(r.states[n], r.steps[n]) == PickOf(r.steps[i]).value && last[n] == last[i + 1]
  {
    HeldUntil(r, i, n);
    RunsKeepInv(r, n);
    assert Enabled(r.states[n], r.steps[n]);
    HolderDecides(r.states[n], r.steps[n], PickOf(r.steps[i]).value);
    TurnStays(r, last, i + 1, n);
  }

  lemma PlacesPush(ls: seq<nat>, cs: seq<nat>, n: nat)
    requires Places(ls, cs, n) && |ls| > 0
    ensures var k := |ls| - 1; var l := Cycle(ls[k], n - 1);
      PlaceAfter(l, cs[k]) < n ==> Places(ls + [l], cs + [PlaceAfter(l, cs[k])], n)
  {
    var m := |ls| - 1;
    var l := Cycle(ls[m], n - 1);
    var ls', cs' := ls + [l], cs + [PlaceAfter(l, cs[m])];
    forall k | 0 <= k < |cs'| - 1
      ensures PlaceAfter(l, cs[m]) < n ==> PlaceStep(ls', cs', n, k)
    {
      assert k < m ==> PlaceStep(ls, cs, n, k);
    }
  }

  /** The pick of decision k is at the place that decides next. */
  ghost predicate PicksPlace(r: Run, ds: seq<nat>, gs: seq<Gid>, cs: seq<nat>, k: nat) {
    && k < |ds| && ds[k] < |r.steps| && k + 1 < |cs| && cs[k + 1] < |gs|
    && PickOf(r.steps[ds[k]]) == Some(gs[cs[k + 1]])
  }

  /** ls and cs are the turns and callers' places of the first m decisions, and what the last leads to. */
  ghost predicate Walks(r: Run, last: seq<nat>, ds: seq<nat>, gs: seq<Gid>, m: nat, ls: seq<nat>, cs: seq<nat>)
    requires IsRun(r) && ByTurn(r, last) && Steady(r, ds, gs) && 0 < m <= |ds|
  {
    && Places(ls, cs, |gs|) && |cs| == m + 1
    && ls[0] == last[ds[0]] && gs[cs[0]] == Decider(r.states[ds[0]], r.steps[ds[0]])
    && ls[m] == last[ds[m - 1] + 1]
    && forall k :: 0 <= k < m ==> PicksPlace(r, ds, gs, cs, k)
  }

  lemma WalksFirst(r: Run, last: seq<nat>, ds: seq<nat>, gs: seq<Gid>) returns (ls: seq<nat>, cs: seq<nat>)
    requires IsRun(r) && ByTurn(r, last) && Steady(r, ds, gs) && |ds| > 0
    ensures Walks(r, last, ds, gs, 1, ls, cs)
  {
    var n := ds[0];
    assert AllOthersReady(r.states[n], r.steps[n], gs);
    var c :| 0 <= c < |gs| && gs[c] == Decider(r.states[n], r.steps[n]);
    DecisionPicks(r, last, n, gs, c);
    PlacesPush([last[n]], [c], |gs|);
    ls, cs := [last[n]] + [last[n + 1]], [c] + [PlaceAfter(last[n + 1], c)];
    assert PicksPlace(r, ds, gs, cs, 0);
  }

  lemma WalkedPicks(r: Run, last: seq<nat>, ds: seq<nat>, gs: seq<Gid>, m: nat, c: nat)
    requires IsRun(r) && ByTurn(r, last) && Steady(r, ds, gs) && 0 < m < |ds|
    requires c < |gs| && PickOf(r.steps[ds[m - 1]]) == Some(gs[c])
    ensures var l := last[ds[m] + 1];
      && l == Cycle(last[ds[m - 1] + 1], |gs| - 1) && PlaceAfter(l, c) < |gs|
      && PickOf(r.steps[ds[m]]) == Some(gs[PlaceAfter(l, c)])
  {
    assert NextDecision(r, ds, m - 1);
    PickDecidesNext(r, last, ds[m - 1], ds[m]);
    assert AllOthersReady(r.states[ds[m]], r.steps[ds[m]], gs);
    DecisionPicks(r, last, ds[m], gs, c);
  }

  lemma WalksOn(r: Run, last: seq<nat>, ds: seq<nat>, gs: seq<Gid>, m: nat, ls: seq<nat>, cs: seq<nat>)
    requires IsRun(r) && ByTurn(r, last) && Steady(r, ds, gs) && 0 < m < |ds| && Walks(r, last, ds, gs, m, ls, cs)
    ensures var l := last[ds[m] + 1]; Walks(r, last, ds, gs, m + 1, ls + [l], cs + [PlaceAfter(l, cs[m])])
  {
    assert PicksPlace(r, ds, gs, cs, m - 1);
    WalkedPicks(r, last, ds, gs, m, cs[m]);
    PlacesPush(ls, cs, |gs|);
    var cs' := cs + [PlaceAfter(last[ds[m] + 1], cs[m])];
    forall k | 0 <= k < m + 1
      ensures PicksPlace(r, ds, gs, cs', k)
    {
      assert k < m ==> PicksPlace(r, ds, gs, cs, k);
    }
  }

  lemma {:induction false} RunWalks(r: Run, last: seq<nat>, ds: seq<nat>, gs: seq<Gid>, m: nat) returns (ls: seq<nat>, cs: seq<nat>)
    requires IsRun(r) && ByTurn(r, last) && Steady(r, ds, gs) && 0 < m <= |ds|
    ensures Walks(r, last, ds, gs, m, ls, cs)
  {
    if m == 1 {
      ls, cs := WalksFirst(r, last, ds, gs);
    } else {
      ls, cs := RunWalks(r, last, ds, gs, m - 1);
      WalksOn(r, last, ds, gs, m - 1, ls, cs);
      var l := last[ds[m - 1] + 1];
      ls, cs := ls + [l], cs + [PlaceAfter(l, cs[m - 1])];
    }
  }

  // ------------------------------------------------------------------
  // Fairness

  /** Goroutine g is picked at one of the next n decisions from the k-th on. */
  ghost predicate PickedWithin(r: Run, ds: seq<nat>, k: nat, n: nat, g: Gid)
    requires Consecutive(r, ds)
  {
    exists j :: k <= j < k + n && j < |ds| && PickOf(r.steps[ds[j]]) == Some(g)
  }

  /** Two goroutines that alone stay able to run are each picked in any two decisions. */
  lemma TwoAreServed(r: Run, last: seq<nat>, ds: seq<nat>, gs: seq<Gid>, k: nat, g: Gid)
    requires IsRun(r) && ByTurn(r, last) && Steady(r, ds, gs) && |gs| == 2 && g in gs && k + 2 <= |ds|
    ensures PickedWithin(r, ds, k, 2, g)
  {
    var ls, cs := RunWalks(r, last, ds, gs, |ds|);
    var p :| 0 <= p < 2 && gs[p] == g;
    var j := TwoAlternate(ls, cs, k, p);
    assert PicksPlace(r, ds, gs, cs, j - 1);
  }

  /** Of three or more the second smallest is, after as many decisions as there are goroutines, never
      picked again. */
  lemma SecondSmallestStarves(r: Run, last: seq<nat>, ds: seq<nat>, gs: seq<Gid>, k: nat)
    requires IsRun(r) && ByTurn(r, last) && Steady(r, ds, gs) && |gs| >= 3 && |gs| <= k < |ds|
    ensures PickOf(r.steps[ds[k]]) != Some(gs[1])
  {
    var ls, cs := RunWalks(r, last, ds, gs, |ds|);
    TrapSkips(ls, cs, |gs|, k);
    assert PicksPlace(r, ds, gs, cs, k);
  }

  /** Every other one is then picked in each |gs| - 1 decisions. */
  lemma OthersAreServed(r: Run, last: seq<nat>, ds: seq<nat>, gs: seq<Gid>, k: nat, g: Gid)
    requires IsRun(r) && ByTurn(r, last) && Steady(r, ds, gs) && |gs| >= 3 && |gs| <= k && k + |gs| - 1 <= |ds|
    requires g in gs && g != gs[1]
    ensures PickedWithin(r, ds, k, |gs| - 1, g)
  {
    var ls, cs := RunWalks(r, last, ds, gs, |ds|);
    TrappedWithin(ls, cs, |gs|, k);
    var p :| 0 <= p < |gs| && gs[p] == g;
    var j := TrapGoesRound(ls, cs, |gs|, k, p);
    assert PicksPlace(r, ds, gs, cs, j - 1);
  }

  /** After as many decisions as there are goroutines, each is picked in every so many. */
  ghost predicate ServesAll(r: Run, ds: seq<nat>, gs: seq<Gid>)
    requires Consecutive(r, ds)
  {
    forall k, g :: |gs| <= k && k + |gs| <= |ds| && g in gs ==> PickedWithin(r, ds, k, |gs|, g)
  }

  /** Exactly when round robin is fair: of a set of goroutines that, and no others, stay able to run, all
      are served if and only if there are two of them. */
  lemma FairIffTwo(r: Run, last: seq<nat>, ds: seq<nat>, gs: seq<Gid>)
    requires IsRun(r) && ByTurn(r, last) && Steady(r, ds, gs) && |ds| >= 2 * |gs|
    ensures ServesAll(r, ds, gs) <==> |gs| == 2
  {
    if |gs| == 2 {
      forall k, g | |gs| <= k && k + |gs| <= |ds| && g in gs
        ensures PickedWithin(r, ds, k, |gs|, g)
      {
        TwoAreServed(r, last, ds, gs, k, g);
      }
    } else {
      forall j | |gs| <= j < 2 * |gs|
        ensures PickOf(r.steps[ds[j]]) != Some(gs[1])
      {
        SecondSmallestStarves(r, last, ds, gs, j);
      }
      assert gs[1] in gs && !PickedWithin(r, ds, |gs|, |gs|, gs[1]);
    }
  }

  // ------------------------------------------------------------------
  // Such runs exist

  /** ds are the decisions of r so far. */
  ghost predicate SteadySoFar(r: Run, last: seq<nat>, ds: seq<nat>, gs: seq<Gid>) {
    && IsRun(r) && ByTurn(r, last) && Steady(r, ds, gs)
    && forall n :: (if ds == [] then 0 else ds[|ds| - 1] + 1) <= n < |r.steps| ==> !Decides(r.steps[n])
  }

  function Extended(r: Run, a: Step, s: State): Run {
    Run(r.states + [s], r.steps + [a])
  }

  lemma ExtendByTurn(r: Run, last: seq<nat>, a: Step, last': nat)
    requires IsRun(r) && ByTurn(r, last) && Enabled(r.states[|r.steps|], a)
    requires StepByTurn(r.states[|r.steps|], a, last[|r.steps|], last')
    ensures var r' := Extended(r, a, Next(r.states[|r.steps|], a)); IsRun(r') && ByTurn(r', last + [last'])
  {
    var r', lasts := Extended(r, a, Next(r.states[|r.steps|], a)), last + [last'];
    forall n {:trigger r'.steps[n]} | 0 <= n < |r'.steps|
      ensures Enabled(r'.states[n], r'.steps[n]) && r'.states[n + 1] == Next(r'.states[n], r'.steps[n])
      ensures StepByTurn(r'.states[n], r'.steps[n], lasts[n], lasts[n + 1])
    {
      if n < |r.steps| {
        assert r'.steps[n] == r.steps[n] && r'.states[n] == r.states[n] && r'.states[n + 1] == r.states[n + 1];
      }
    }
  }

  lemma ExtendSteady(r: Run, ds: seq<nat>, gs: seq<Gid>, a: Step, s: State)
    requires Steady(r, ds, gs)
    ensures Steady(Extended(r, a, s), ds, gs)
  {
    var r' := Extended(r, a, s);
    forall k | 0 <= k < |ds| - 1
      ensures NextDecision(r', ds, k)
    {
      assert NextDecision(r, ds, k);
    }
    forall k | 0 <= k < |ds|
      ensures Decides(r'.steps[ds[k]]) && AllOthersReady(r'.states[ds[k]], r'.steps[ds[k]], gs)
    {
      assert AllOthersReady(r.states[ds[k]], r.steps[ds[k]], gs);
    }
  }

  lemma AppendDecision(r: Run, ds: seq<nat>, gs: seq<Gid>, n: nat)
    requires Steady(r, ds, gs) && n < |r.steps| && Decides(r.steps[n]) && AllOthersReady(r.states[n], r.steps[n], gs)
    requires ds != [] ==> ds[|ds| - 1] < n && forall m :: ds[|ds| - 1] < m < n ==> !Decides(r.steps[m])
    ensures Steady(r, ds + [n], gs)
  {
    var ds' := ds + [n];
    forall k | 0 <= k < |ds'| - 1
      ensures NextDecision(r, ds', k)
    {
      assert k < |ds| - 1 ==> NextDecision(r, ds, k);
    }
  }

  /** One step more, that decides nothing. */
  lemma QuietOn(r: Run, last: seq<nat>, ds: seq<nat>, gs: seq<Gid>, a: Step)
    requires SteadySoFar(r, last, ds, gs) && Enabled(r.states[|r.steps|], a) && !Decides(a)
    ensures SteadySoFar(Extended(r, a, Next(r.states[|r.steps|], a)), last + [last[|r.steps|]], ds, gs)
  {
    ExtendByTurn(r, last, a, last[|r.steps|]);
    ExtendSteady(r, ds, gs, a, Next(r.states[|r.steps|], a));
  }

  /** One decision more. */
  lemma DecideOn(r: Run, last: seq<nat>, ds: seq<nat>, gs: seq<Gid>, a: Step, last': nat)
    requires SteadySoFar(r, last, ds, gs) && Enabled(r.states[|r.steps|], a) && Decides(a)
    requires StepByTurn(r.states[|r.steps|], a, last[|r.steps|], last') && AllOthersReady(r.states[|r.steps|], a, gs)
    ensures SteadySoFar(Extended(r, a, Next(r.states[|r.steps|], a)), last + [last'], ds + [|r.steps|], gs)
  {
    var n := |r.steps|;
    var r' := Extended(r, a, Next(r.states[n], a));
    ExtendByTurn(r, last, a, last');
    ExtendSteady(r, ds, gs, a, Next(r.states[n], a));
    assert r'.steps[n] == a && r'.states[n] == r.states[n];
    AppendDecision(r', ds, gs, n);
  }

  /** Goroutine c runs, all other started ones of gs wait, and nothing else is going on. */
  ghost predicate Shape(s: State, gs: seq<Gid>, c: Gid) {
    && Inv(s) && !s.halting && s.aborted == {} && s.mail == map[] && At(s, c, Running) && c in gs
    && (forall g :: g in s.hosts && g != c ==> At(s, g, Parked))
    && (forall g :: g in gs <==> g in s.hosts || g in s.queue)
  }

  /** The work that makes every other wait end. */
  function Enable(c: Gid, gs: seq<Gid>): Step {
    Work(c, Elements(gs) - {c}, [], false)
  }

  lemma EnableKeepsShape(s: State, gs: seq<Gid>, c: Gid)
    requires Shape(s, gs, c)
    ensures Enabled(s, Enable(c, gs)) && Shape(Next(s, Enable(c, gs)), gs, c)
    ensures Next(s, Enable(c, gs)).ready == Elements(gs) - {c}
  {
    StepKeepsInv(s, Enable(c, gs));
    assert s.queue + [] == s.queue;
  }

  lemma ShapeIsReady(s: State, gs: seq<Gid>, c: Gid, pick: Option<Gid>, ids: seq<Gid>)
    requires Shape(s, gs, c) && s.ready == Elements(gs) - {c}
    ensures AllOthersReady(s, Block(c, pick, ids), gs)
  {
  }

  /** The block by turn, and the state after it. */
  lemma ShapeBlocks(s: State, gs: seq<Gid>, c: Gid, last: nat) returns (a: Step, last': nat)
    requires Shape(s, gs, c) && s.ready == Elements(gs) - {c} && |gs| >= 2 && Increasing(gs)
    ensures a.Block? && a.g == c && Enabled(s, a) && StepByTurn(s, a, last, last') && AllOthersReady(s, a, gs)
    ensures a.pick.Some? && a.pick.value in gs && a.pick.value != c
  {
    var ids := AbortList(s);
    var (pick, l) := PickByTurn(s, c, last);
    a, last' := Block(c, pick, ids), l;
    ShapeIsReady(s, gs, c, pick, ids);
    CandListMembers(s, c, CandList(s, c));
    var other := if gs[0] == c then gs[1] else gs[0];
    assert Candidate(s, c, other);
  }

  lemma StartedHasShape(s: State, gs: seq<Gid>, c: Gid, a: Step)
    requires Shape(s, gs, c) && a.Block? && a.g == c && Enabled(s, a) && a.pick.Some? && a.pick.value in s.queue
    ensures Shape(Next(s, a), gs, a.pick.value)
  {
    StepKeepsInv(s, a);
    var q := s.queue;
    var i := IndexOf(q, a.pick.value);
    TakeTaskRemovesOne(q, i);
    forall g
      ensures g in q <==> g in TakenFrom(q, i) || g == a.pick.value
    {
      assert g in q <==> g in multiset(q);
      assert g in TakenFrom(q, i) <==> g in multiset(TakenFrom(q, i));
    }
  }

  lemma WokenHasShape(s: State, gs: seq<Gid>, c: Gid, a: Step) returns (b: Step)
    requires Shape(s, gs, c) && a.Block? && a.g == c && Enabled(s, a) && a.pick.Some? && a.pick.value !in s.queue
    ensures b.Wake? && Enabled(Next(s, a), b) && Shape(Next(Next(s, a), b), gs, a.pick.value)
  {
    StepKeepsInv(s, a);
    var s1 := Next(s, a);
    var ids := AbortList(s1);
    b := Wake(a.pick.value, ids);
    StepKeepsInv(s1, b);
  }

  /** Every goroutine but the driver's is queued. */
  lemma SpawnHasShape(gs: seq<Gid>)
    requires |gs| >= 2 && Increasing(gs)
    ensures var a := Work(gs[0], {}, gs[1..], false); Enabled(Begin(gs[0]), a) && Shape(Next(Begin(gs[0]), a), gs, gs[0])
  {
    var s, a := Begin(gs[0]), Work(gs[0], {}, gs[1..], false);
    BeginInv(gs[0]);
    assert FreshIds(s.next, gs[1..]);
    StepKeepsInv(s, a);
    assert s.queue + gs[1..] == gs[1..];
    assert gs == [gs[0]] + gs[1..];
  }

  /** The first decision is the driver's, at turn 0. */
  ghost predicate DriverFirst(r: Run, last: seq<nat>, ds: seq<nat>, gs: seq<Gid>, c: Gid)
    requires SteadySoFar(r, last, ds, gs)
  {
    if ds == [] then c == gs[0] && last[|r.steps|] == 0
    else last[ds[0]] == 0 && Decider(r.states[ds[0]], r.steps[ds[0]]) == gs[0]
  }

  /** The running goroutine does the work that enables the others. */
  lemma EnableOn(r: Run, last: seq<nat>, ds: seq<nat>, gs: seq<Gid>, c: Gid) returns (r': Run, last': seq<nat>)
    requires SteadySoFar(r, last, ds, gs) && Shape(r.states[|r.steps|], gs, c) && DriverFirst(r, last, ds, gs, c)
    ensures SteadySoFar(r', last', ds, gs) && DriverFirst(r', last', ds, gs, c)
    ensures Shape(r'.states[|r'.steps|], gs, c) && r'.states[|r'.steps|].ready == Elements(gs) - {c}
  {
    var a := Enable(c, gs);
    EnableKeepsShape(r.states[|r.steps|], gs, c);
    QuietOn(r, last, ds, gs, a);
    r', last' := Extended(r, a, Next(r.states[|r.steps|], a)), last + [last[|r.steps|]];
  }

  /** Its decision. */
  lemma BlockOn(r: Run, last: seq<nat>, ds: seq<nat>, gs: seq<Gid>, a: Step, l: nat) returns (r': Run, last': seq<nat>, ds': seq<nat>)
    requires SteadySoFar(r, last, ds, gs) && Enabled(r.states[|r.steps|], a) && a.Block? && DriverFirst(r, last, ds, gs, a.g)
    requires StepByTurn(r.states[|r.steps|], a, last[|r.steps|], l) && AllOthersReady(r.states[|r.steps|], a, gs)
    ensures SteadySoFar(r', last', ds', gs) && |ds'| == |ds| + 1 && DriverFirst(r', last', ds', gs, a.g)
    ensures r'.states[|r'.steps|] == Next(r.states[|r.steps|], a)
  {
    DecideOn(r, last, ds, gs, a, l);
    r', last', ds' := Extended(r, a, Next(r.states[|r.steps|], a)), last + [l], ds + [|r.steps|];
  }

  /** The goroutine picked takes the baton. */
  lemma TakeOn(r: Run, last: seq<nat>, ds: seq<nat>, gs: seq<Gid>, s: State, a: Step) returns (r': Run, last': seq<nat>)
    requires a.Block? && Shape(s, gs, a.g) && Enabled(s, a) && a.pick.Some?
    requires SteadySoFar(r, last, ds, gs) && ds != [] && DriverFirst(r, last, ds, gs, a.g) && r.states[|r.steps|] == Next(s, a)
    ensures SteadySoFar(r', last', ds, gs) && Shape(r'.states[|r'.steps|], gs, a.pick.value)
    ensures DriverFirst(r', last', ds, gs, a.pick.value)
  {
    r', last' := r, last;
    if a.pick.value in s.queue {
      StartedHasShape(s, gs, a.g, a);
    } else {
      var b := WokenHasShape(s, gs, a.g, a);
      QuietOn(r, last, ds, gs, b);
      r', last' := Extended(r, b, Next(Next(s, a), b)), last + [last[|r.steps|]];
    }
  }

  /** One round: a decision, and the goroutine picked runs. */
  lemma OneRound(r0: Run, last0: seq<nat>, ds0: seq<nat>, gs: seq<Gid>, c0: Gid) returns (r: Run, last: seq<nat>, ds: seq<nat>, c: Gid)
    requires SteadySoFar(r0, last0, ds0, gs) && Shape(r0.states[|r0.steps|], gs, c0) && DriverFirst(r0, last0, ds0, gs, c0)
    ensures SteadySoFar(r, last, ds, gs) && |ds| == |ds0| + 1 && Shape(r.states[|r.steps|], gs, c) && DriverFirst(r, last, ds, gs, c)
  {
    var r1, last1 := EnableOn(r0, last0, ds0, gs, c0);
    var s := r1.states[|r1.steps|];
    var a, l := ShapeBlocks(s, gs, c0, last1[|r1.steps|]);
    r, last, ds := BlockOn(r1, last1, ds0, gs, a, l);
    r, last := TakeOn(r, last, ds, gs, s, a);
    c := a.pick.value;
  }

  /** For any two or more goroutines, with any ids, and any number of decisions there is a run in which
      they stay able to run for so many; the smallest is the driver's. */
  lemma {:induction false} SteadyRunsExist(gs: seq<Gid>, count: nat) returns (r: Run, last: seq<nat>, ds: seq<nat>, c: Gid)
    requires |gs| >= 2 && Increasing(gs)
    ensures SteadySoFar(r, last, ds, gs) && |ds| == count && Shape(r.states[|r.steps|], gs, c) && DriverFirst(r, last, ds, gs, c)
  {
    if count == 0 {
      r, last, ds, c := Run([Begin(gs[0])], []), [0], [], gs[0];
      SpawnHasShape(gs);
      var a := Work(gs[0], {}, gs[1..], false);
      QuietOn(r, last, ds, gs, a);
      r, last := Extended(r, a, Next(Begin(gs[0]), a)), last + [0];
    } else {
      var r0, last0, ds0, c0 := SteadyRunsExist(gs, count - 1);
      r, last, ds, c := OneRound(r0, last0, ds0, gs, c0);
    }
  }

  /** Round robin can starve a goroutine for ever: for any three or more goroutines and any number of
      decisions there is a run in which the second smallest could run at every one of them, and is never
      picked. */
  lemma RoundRobinCanStarve(gs: seq<Gid>, count: nat) returns (r: Run, last: seq<nat>, ds: seq<nat>)
    requires |gs| >= 3 && Increasing(gs)
    ensures IsRun(r) && ByTurn(r, last) && Steady(r, ds, gs) && |ds| == count
    ensures forall k :: 0 <= k < count ==>
      && Candidate(DecisionState(r.states[ds[k]], r.steps[ds[k]]), Decider(r.states[ds[k]], r.steps[ds[k]]), gs[1])
      && PickOf(r.steps[ds[k]]).Some? && PickOf(r.steps[ds[k]]) != Some(gs[1])
  {
    var c;
    r, last, ds, c := SteadyRunsExist(gs, count);
    if count > 0 {
      var ls, cs := RunWalks(r, last, ds, gs, count);
      forall k | 0 <= k < count
        ensures Candidate(DecisionState(r.states[ds[k]], r.steps[ds[k]]), Decider(r.states[ds[k]], r.steps[ds[k]]), gs[1])
        ensures PickOf(r.steps[ds[k]]).Some? && PickOf(r.steps[ds[k]]) != Some(gs[1])
      {
        WalkStarves(r, last, ds, gs, ls, cs, k);
      }
    }
  }

  /** A walk that starts at the driver and turn 0 is in the trap from the start. */
  lemma WalkStarves(r: Run, last: seq<nat>, ds: seq<nat>, gs: seq<Gid>, ls: seq<nat>, cs: seq<nat>, k: nat)
    requires IsRun(r) && ByTurn(r, last) && Steady(r, ds, gs) && |gs| >= 3 && k < |ds| && Walks(r, last, ds, gs, |ds|, ls, cs)
    requires last[ds[0]] == 0 && Decider(r.states[ds[0]], r.steps[ds[0]]) == gs[0]
    ensures Candidate(DecisionState(r.states[ds[k]], r.steps[ds[k]]), Decider(r.states[ds[k]], r.steps[ds[k]]), gs[1])
    ensures PickOf(r.steps[ds[k]]).Some? && PickOf(r.steps[ds[k]]) != Some(gs[1])
  {
    assert cs[0] == 0;
    TrappedFrom(ls, cs, |gs|, 0, k + 1);
    assert PicksPlace(r, ds, gs, cs, k);
    assert AllOthersReady(r.states[ds[k]], r.steps[ds[k]], gs);
    if k > 0 {
      TrappedFrom(ls, cs, |gs|, 0, k);
      assert PicksPlace(r, ds, gs, cs, k - 1) && NextDecision(r, ds, k - 1);
      PickDecidesNext(r, last, ds[k - 1], ds[k]);
    }
  }
}
