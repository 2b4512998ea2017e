/** The scheduling strategies (pkg/scheduler/scheduler.go) and pickNext, which offers them the
    runnable goroutines. draws gives the values the random generator returns during a call. */
module Scheduling {
  import Clock
  import opened Detector
  import opened Baton

  // ------------------------------------------------------------------
  // Sorting by goroutine id

  predicate Ordered(xs: seq<Gid>) {
    forall i, j :: 0 <= i < j < |xs| ==> xs[i] <= xs[j]
  }

  function Inserted(xs: seq<Gid>, x: Gid): seq<Gid> {
    if xs == [] then [x] else if x <= xs[0] then [x] + xs else [xs[0]] + Inserted(xs[1..], x)
  }

  function Sorted(xs: seq<Gid>): seq<Gid> {
    if xs == [] then [] else Inserted(Sorted(xs[1..]), xs[0])
  }

  lemma {:induction false} InsertedElements(xs: seq<Gid>, x: Gid)
    ensures multiset(Inserted(xs, x)) == multiset(xs) + multiset{x} && |Inserted(xs, x)| == |xs| + 1
  {
    if xs != [] && x > xs[0] {
      InsertedElements(xs[1..], x);
      assert xs == [xs[0]] + xs[1..];
    }
  }

  lemma {:induction false} InsertedIsOrdered(xs: seq<Gid>, x: Gid)
    requires Ordered(xs)
    ensures Ordered(Inserted(xs, x))
  {
    if xs != [] && x > xs[0] {
      InsertedIsOrdered(xs[1..], x);
      InsertedElements(xs[1..], x);
      var rest := Inserted(xs[1..], x);
      forall j | 0 <= j < |rest|
        ensures xs[0] <= rest[j]
      {
        assert rest[j] in multiset(rest);
      }
    }
  }

  /** An ordered list is determined by its elements. */
  lemma {:induction false} OrderedUnique(a: seq<Gid>, b: seq<Gid>)
    requires Ordered(a) && Ordered(b) && multiset(a) == multiset(b)
    ensures a == b
  {
    assert |a| == |multiset(a)| && |b| == |multiset(b)|;
    if a != [] {
      assert a[0] in multiset(b) && b[0] in multiset(a);
      assert a[0] == b[0];
      assert a == [a[0]] + a[1..] && b == [b[0]] + b[1..];
      assert multiset(a[1..]) == multiset(a) - multiset{a[0]};
      assert multiset(b[1..]) == multiset(b) - multiset{b[0]};
      OrderedUnique(a[1..], b[1..]);
    }
  }

  /** Sorting keeps the elements and puts them in order. */
  lemma {:induction false} SortedIsOrdered(xs: seq<Gid>)
    ensures Ordered(Sorted(xs)) && multiset(Sorted(xs)) == multiset(xs) && |Sorted(xs)| == |xs|
    ensures forall y :: y in Sorted(xs) <==> y in xs
  {
    if xs != [] {
      SortedIsOrdered(xs[1..]);
      InsertedIsOrdered(Sorted(xs[1..]), xs[0]);
      InsertedElements(Sorted(xs[1..]), xs[0]);
      assert xs == [xs[0]] + xs[1..];
    }
    SameElements(Sorted(xs), xs);
  }

  lemma SameElements(a: seq<Gid>, b: seq<Gid>)
    requires multiset(a) == multiset(b)
    ensures forall y :: y in a <==> y in b
  {
    forall y
      ensures y in a <==> y in b
    {
      assert y in a <==> y in multiset(a);
      assert y in b <==> y in multiset(b);
    }
  }

  // ------------------------------------------------------------------
  // Round robin

  function Cycle(i: nat, n: nat): (r: nat)
    requires n > 0
    ensures r < n
  {
    (i + 1) % n
  }

  class RoundRobin {
    var lastIdx: nat
    var decisions: nat

    constructor ()
      ensures lastIdx == 0 && decisions == 0
    {
      lastIdx, decisions := 0, 0;
    }

    method Next(runnable: seq<Gid>) returns (g: Gid)
      modifies this
      ensures runnable == [] ==> g == -1 && unchanged(this)
      ensures runnable != [] ==>
        g in runnable && decisions == old(decisions) + 1 && IsTurn(old(lastIdx), runnable, lastIdx, g)
    {
      if |runnable| == 0 {
        return -1;
      }
      var sorted := Sorted(runnable);
      SortedIsOrdered(runnable);
      lastIdx := (lastIdx + 1) % |runnable|;
      decisions := decisions + 1;
      return sorted[lastIdx];
    }
  }

  function Up(i: nat, n: nat): nat {
    if i + 1 < n then i + 1 else 0
  }

  lemma CycleSteps(i: nat, n: nat)
    requires i < n
    ensures Cycle(i, n) == Up(i, n)
  {
  }

  /** From decision at on, the places of n go up by one. */
  ghost predicate Climbing(last: seq<nat>, at: nat, upTo: nat, n: nat) {
    upTo < |last| && forall j :: at <= j < upTo ==> last[j] < n && last[j + 1] == Up(last[j], n)
  }

  lemma {:induction false} Climbs(last: seq<nat>, at: nat, upTo: nat, n: nat, p: nat)
    requires Climbing(last, at, upTo, n) && at <= upTo && last[at] <= p < n && at + p - last[at] <= upTo
    ensures last[at + p - last[at]] == p
    decreases p
  {
    if last[at] < p {
      Climbs(last, at, upTo, n, p - 1);
    }
  }

  /** Place p of n comes within n decisions. */
  lemma PlaceComes(last: seq<nat>, from: nat, n: nat, p: nat) returns (k: nat)
    requires p < n && Climbing(last, from + 1, from + n, n) && last[from + 1] < n
    ensures from < k <= from + n && last[k] == p
  {
    var i := last[from + 1];
    if i <= p {
      Climbs(last, from + 1, from + n, n, p);
      k := from + 1 + p - i;
    } else {
      Climbs(last, from + 1, from + n, n, n - 1);
      var top := from + n - i;
      assert last[top] == n - 1 && last[top + 1] == 0;
      Climbs(last, top + 1, from + n, n, p);
      k := top + 1 + p;
    }
  }

  /** One decision of Next: the place after the last one, in sorted order. */
  predicate IsTurn(last: nat, runnable: seq<Gid>, last': nat, g: Gid) {
    && runnable != [] && |Sorted(runnable)| == |runnable|
    && last' == Cycle(last, |runnable|) && g == Sorted(runnable)[last']
  }

  lemma TurnsClimb(last: seq<nat>, picks: seq<Gid>, from: nat, runnable: seq<Gid>)
    requires runnable != [] && from + |runnable| < |last| && from + |runnable| <= |picks|
    requires forall j :: from <= j < from + |runnable| ==> IsTurn(last[j], runnable, last[j + 1], picks[j])
    ensures Climbing(last, from + 1, from + |runnable|, |runnable|) && last[from + 1] < |runnable|
  {
    var n := |runnable|;
    assert IsTurn(last[from], runnable, last[from + 1], picks[from]);
    forall j | from + 1 <= j < from + n
      ensures last[j] < n && last[j + 1] == Up(last[j], n)
    {
      assert IsTurn(last[j - 1], runnable, last[j - 1 + 1], picks[j - 1]);
      assert IsTurn(last[j], runnable, last[j + 1], picks[j]);
      CycleSteps(last[j], n);
    }
  }

  /** A caller that offers Next the same n goroutines n times in a row has every one of them picked.
      pickNext is no such caller: it leaves out whoever calls it. */
  lemma UnchangedSetIsServed(last: seq<nat>, picks: seq<Gid>, from: nat, runnable: seq<Gid>, g: Gid)
    requires g in runnable && from + |runnable| < |last| && from + |runnable| <= |picks|
    requires forall j :: from <= j < from + |runnable| ==> IsTurn(last[j], runnable, last[j + 1], picks[j])
    ensures exists j :: from <= j < from + |runnable| && picks[j] == g
  {
    var n := |runnable|;
    SortedIsOrdered(runnable);
    var p :| 0 <= p < n && Sorted(runnable)[p] == g;
    TurnsClimb(last, picks, from, runnable);
    var k := PlaceComes(last, from, n, p);
    assert IsTurn(last[k - 1], runnable, last[k - 1 + 1], picks[k - 1]);
  }

  // ------------------------------------------------------------------
  // PCT

  class Pct {
    var priorities: map<Gid, int>
    var changePoints: seq<nat>
    var instructionN: nat

    constructor (changePoints: seq<nat>)
      ensures this.changePoints == changePoints && priorities == map[] && instructionN == 0
    {
      this.changePoints := changePoints;
      priorities, instructionN := map[], 0;
    }

    /** New goroutines get a drawn priority; others keep theirs. */
    method AssignPriorities(runnable: seq<Gid>, draws: nat -> nat) returns (used: nat)
      modifies this`priorities
      ensures forall g :: g in priorities && g !in old(priorities) ==> exists d: nat :: d < used && priorities[g] == draws(d)
      ensures forall g :: g in priorities <==> g in old(priorities) || g in runnable
      ensures forall g :: g in old(priorities) ==> g in priorities && priorities[g] == old(priorities)[g]
      ensures forall g :: g in priorities && g !in old(priorities) ==> priorities[g] >= 0
    {
      used := 0;
      for i := 0 to |runnable|
        invariant forall g :: g in priorities <==> g in old(priorities) || g in runnable[..i]
        invariant forall g :: g in old(priorities) ==> priorities[g] == old(priorities)[g]
        invariant forall g :: g in priorities && g !in old(priorities) ==> priorities[g] >= 0
        invariant forall g :: g in priorities && g !in old(priorities) ==> exists d: nat :: d < used && priorities[g] == draws(d)
      {
        if runnable[i] !in priorities {
          priorities := priorities[runnable[i] := draws(used)];
          used := used + 1;
        }
        assert runnable[..i + 1] == runnable[..i] + [runnable[i]];
      }
    }

    /** Lowers one runnable goroutine's priority at a change point. */
    method ChangePriority(runnable: seq<Gid>, draws: nat -> nat, used: nat)
      requires runnable != [] && forall g :: g in runnable ==> g in priorities
      modifies this`priorities
      ensures forall g :: g in priorities <==> g in old(priorities)
      ensures instructionN !in changePoints ==> priorities == old(priorities)
      ensures instructionN in changePoints ==>
        priorities == old(priorities)[runnable[draws(used) % |runnable|] := 0 - draws(used + 1)]
    {
      for i := 0 to |changePoints|
        invariant priorities == old(priorities) && instructionN !in changePoints[..i]
      {
        if changePoints[i] == instructionN {
          var t := runnable[draws(used) % |runnable|];
          priorities := priorities[t := 0 - draws(used + 1)];
          return;
        }
      }
    }

    /** The first runnable goroutine of highest priority. */
    method Highest(runnable: seq<Gid>) returns (best: Gid)
      requires runnable != [] && forall g :: g in runnable ==> g in priorities
      ensures exists b :: 0 <= b < |runnable| && best == runnable[b] && IsFirstHighest(priorities, runnable, b)
    {
      EachHasPriority(priorities, runnable);
      best := runnable[0];
      ghost var b := 0;
      for i := 1 to |runnable|
        invariant 0 <= b < i && best == runnable[b]
        invariant forall j :: 0 <= j < |runnable| ==> runnable[j] in priorities
        invariant forall j :: 0 <= j < i ==> priorities[runnable[j]] <= priorities[best]
        invariant forall j :: 0 <= j < b ==> priorities[runnable[j]] < priorities[best]
      {
        if priorities[runnable[i]] > priorities[best] {
          best, b := runnable[i], i;
        }
      }
    }

    method Next(runnable: seq<Gid>, draws: nat -> nat) returns (best: Gid)
      modifies this
      ensures runnable == [] ==> best == -1 && unchanged(this)
      ensures runnable != [] ==>
        && best in runnable && instructionN == old(instructionN) + 1 && changePoints == old(changePoints)
        && (forall g :: g in priorities <==> g in old(priorities) || g in runnable)
        && (exists b :: 0 <= b < |runnable| && best == runnable[b] && IsFirstHighest(priorities, runnable, b))
      ensures runnable != [] && instructionN !in changePoints ==>
        forall g :: g in old(priorities) ==> priorities[g] == old(priorities)[g]
    {
      if |runnable| == 0 {
        return -1;
      }
      instructionN := instructionN + 1;
      var used := AssignPriorities(runnable, draws);
      ChangePriority(runnable, draws, used);
      best := Highest(runnable);
    }

    method OnSpawn(child: Gid, draw: nat)
      modifies this`priorities
      ensures priorities == old(priorities)[child := draw]
    {
      priorities := priorities[child := draw];
    }

    method OnFinish(g: Gid)
      modifies this`priorities
      ensures priorities == old(priorities) - {g}
    {
      priorities := priorities - {g};
    }
  }

  lemma EachHasPriority(priorities: map<Gid, int>, runnable: seq<Gid>)
    requires forall g :: g in runnable ==> g in priorities
    ensures forall j :: 0 <= j < |runnable| ==> runnable[j] in priorities
  {
    forall j | 0 <= j < |runnable|
      ensures runnable[j] in priorities
    {
      var g := runnable[j];
      assert g in runnable;
    }
  }

  predicate IsFirstHighest(priorities: map<Gid, int>, runnable: seq<Gid>, b: nat)
    requires b < |runnable|
  {
    && (forall g :: g in runnable ==> g in priorities)
    && (forall j :: 0 <= j < |runnable| ==> priorities[runnable[j]] <= priorities[runnable[b]])
    && (forall j :: 0 <= j < b ==> priorities[runnable[j]] < priorities[runnable[b]])
  }

  // ------------------------------------------------------------------
  // pickNext

  /** The waiting goroutines whose wait is over, without the caller. */
  function ReadyOthers(s: State, self: Gid): set<Gid> {
    set g | g in s.hosts && g != self && WaitOver(s, g)
  }

  /** cands are the queued goroutines and those whose wait is over, in goroutine order. */
  ghost predicate IsCandList(s: State, self: Gid, cands: seq<Gid>) {
    Ordered(cands) && multiset(cands) == multiset(s.queue) + multiset(ReadyOthers(s, self))
  }

  lemma CandListMembers(s: State, self: Gid, cands: seq<Gid>)
    requires IsCandList(s, self, cands)
    ensures forall g :: g in cands <==> Candidate(s, self, g)
  {
    forall g
      ensures g in cands <==> Candidate(s, self, g)
    {
      assert g in cands <==> g in multiset(cands);
      assert g in s.queue <==> g in multiset(s.queue);
    }
  }

  lemma {:induction false} SetListed(xs: set<Gid>) returns (ids: seq<Gid>)
    ensures multiset(ids) == multiset(xs)
    decreases |xs|
  {
    if xs == {} {
      ids := [];
    } else {
      Clock.Inhabited(xs);
      var g :| g in xs;
      var rest := SetListed(xs - {g});
      ids := rest + [g];
      assert multiset(xs) == multiset(xs - {g}) + multiset{g};
    }
  }

  lemma CandListExists(s: State, self: Gid)
    ensures exists cands :: IsCandList(s, self, cands)
  {
    var ids := SetListed(ReadyOthers(s, self));
    SortedIsOrdered(s.queue + ids);
    assert IsCandList(s, self, Sorted(s.queue + ids));
  }

  /** The list pickNext offers the scheduler. */
  ghost function CandList(s: State, self: Gid): (cands: seq<Gid>)
    ensures IsCandList(s, self, cands)
  {
    CandListExists(s, self);
    var cands :| IsCandList(s, self, cands);
    cands
  }

  /** pickNext's two loops and its sort. */
  method Candidates(s: State, self: Gid) returns (cands: seq<Gid>)
    ensures cands == CandList(s, self)
    ensures forall g :: g in cands <==> Candidate(s, self, g)
  {
    cands := [];
    for i := 0 to |s.queue|
      invariant cands == s.queue[..i]
    {
      cands := cands + [s.queue[i]];
    }
    assert s.queue[..|s.queue|] == s.queue;
    var left := s.hosts;
    ghost var taken: set<Gid> := {};
    while left != {}
      invariant left <= s.hosts
      invariant multiset(cands) == multiset(s.queue) + multiset(taken)
      invariant taken == (set g | g in s.hosts && g != self && g !in left && WaitOver(s, g))
      decreases |left|
    {
      Clock.Inhabited(left);
      var id :| id in left;
      left := left - {id};
      if id != self && id in s.blocked && id !in s.aborted && id in s.ready {
        cands := cands + [id];
        assert multiset(taken + {id}) == multiset(taken) + multiset{id};
        taken := taken + {id};
      }
    }
    assert taken == ReadyOthers(s, self);
    SortedIsOrdered(cands);
    cands := Sorted(cands);
    OrderedUnique(cands, CandList(s, self));
    CandListMembers(s, self, cands);
  }

  /** What pickNext returns with the round robin strategy, and where its turn then is. */
  ghost function PickByTurn(s: State, self: Gid, last: nat): (Option<Gid>, nat) {
    var cands := CandList(s, self);
    if s.halting || cands == [] then (None, last)
    else (Some(cands[Cycle(last, |cands|)]), Cycle(last, |cands|))
  }

  lemma AloneHasNoCandidates(s: State, self: Gid)
    requires s.queue == [] && (s.hosts == {} || (|s.hosts| == 1 && self in s.hosts))
    ensures CandList(s, self) == [] && forall g :: !Candidate(s, self, g)
  {
    if |s.hosts| == 1 {
      assert |s.hosts - {self}| == 0;
      assert forall g :: g in s.hosts ==> g == self || g in s.hosts - {self};
    }
    assert ReadyOthers(s, self) == {};
    var cands := CandList(s, self);
    assert multiset(cands) == multiset{};
    assert |cands| == |multiset(cands)|;
  }

  /** pickNext with the round robin strategy: whose turn it is among the candidates. The pick is a
      candidate, and there is none only if there is no candidate or the run is halting. */
  method PickNext(s: State, self: Gid, sched: RoundRobin) returns (pick: Option<Gid>)
    modifies sched
    ensures MayPick(s, self, pick)
    ensures (pick, sched.lastIdx) == PickByTurn(s, self, old(sched.lastIdx))
  {
    if s.halting {
      return None;
    }
    if |s.queue| == 0 && (|s.hosts| == 0 || (|s.hosts| == 1 && self in s.hosts)) {
      AloneHasNoCandidates(s, self);
      return None;
    }
    var cands := Candidates(s, self);
    if |cands| == 0 {
      return None;
    }
    var g := sched.Next(cands);
    SortedIsOrdered(cands);
    OrderedUnique(Sorted(cands), cands);
    return Some(g);
  }

  /** pickNext with the PCT strategy: the first candidate of highest priority, once every candidate has
      one; the strategy is consulted exactly when the run is not halting and there is a candidate. */
  method PickNextPct(s: State, self: Gid, sched: Pct, draws: nat -> nat) returns (pick: Option<Gid>)
    modifies sched
    ensures MayPick(s, self, pick)
    ensures if s.halting || CandList(s, self) == [] then pick.None? && unchanged(sched)
            else
              && pick.Some? && sched.instructionN == old(sched.instructionN) + 1
              && exists b :: 0 <= b < |CandList(s, self)| && pick.value == CandList(s, self)[b]
                   && IsFirstHighest(sched.priorities, CandList(s, self), b)
    ensures sched.instructionN !in sched.changePoints ==>
      forall g :: g in old(sched.priorities) ==> g in sched.priorities && sched.priorities[g] == old(sched.priorities)[g]
  {
    if s.halting {
      return None;
    }
    if |s.queue| == 0 && (|s.hosts| == 0 || (|s.hosts| == 1 && self in s.hosts)) {
      AloneHasNoCandidates(s, self);
      return None;
    }
    var cands := Candidates(s, self);
    if |cands| == 0 {
      return None;
    }
    var g := sched.Next(cands, draws);
    return Some(g);
  }
}
