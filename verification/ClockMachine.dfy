/** The clock effects of the goroutine runtime, reduced to their primitives. Every channel, mutex,
    WaitGroup and go-statement operation is a short sequence of these steps; a token names one
    published clock by the event of The Go Memory Model that published it. */
module ClockMachine {
  import opened Clock

  type ChanId = int

  /** What a published clock stands for. */
  datatype Token =
    | OfferOf(sd: nat)             // a goroutine queued itself on an unbuffered channel
    | ReplyOf(sd: nat)             // a counterpart completed that waiting operation
    | SendOf(ch: ChanId, k: nat)   // the k-th send on a buffered channel
    | RecvOf(ch: ChanId, k: nat)   // the k-th receive from a buffered channel
    | CloseOf(ch: ChanId)
    | SyncOf(key: int, n: nat)     // Unlock number n of a primitive, with the Dones after it
    | RUnlocksOf(key: int)         // the join of every RUnlock

  /** A memory access of size bytes. */
  datatype Acc = Acc(alloc: int, off: int, size: int, write: bool, site: string)

  datatype Op =
    | Start(g: Gid)                // an entry goroutine: main, a test, a session call
    | Spawn(g: Gid, child: Gid)
    | Release(g: Gid, t: Token)    // publish a snapshot under a new name, then tick
    | JoinInto(g: Gid, t: Token)   // fold the clock into a published one, then tick
    | Acquire(g: Gid, t: Token)    // merge a published clock
    | TickOwn(g: Gid)
    | Access(g: Gid, acc: Acc)

  datatype Machine = Machine(next: Gid, live: map<Gid, VC>, pub: map<Token, VC>)

  const Init := Machine(1, map[], map[])

  predicate Enabled(s: Machine, op: Op) {
    match op
    case Start(g) => s.next <= g
    case Spawn(g, child) => g in s.live && s.next <= child
    case Release(g, t) => g in s.live && t !in s.pub
    case JoinInto(g, _) => g in s.live
    case Acquire(g, t) => g in s.live && t in s.pub
    case TickOwn(g) => g in s.live
    case Access(g, _) => g in s.live
  }

  function Ticked(s: Machine, g: Gid): map<Gid, VC>
    requires g in s.live
  {
    s.live[g := Tick(s.live[g], g)]
  }

  function Apply(s: Machine, op: Op): Machine
    requires Enabled(s, op)
  {
    match op
    case Start(g) => s.(next := g + 1, live := s.live[g := map[g := 1]])
    case Spawn(g, child) =>
      s.(next := child + 1, live := Ticked(s, g)[child := Join(map[child := 1], s.live[g])])
    case Release(g, t) => s.(live := Ticked(s, g), pub := s.pub[t := s.live[g]])
    case JoinInto(g, t) =>
      var joined := if t in s.pub then Join(s.pub[t], s.live[g]) else s.live[g];
      s.(live := Ticked(s, g), pub := s.pub[t := joined])
    case Acquire(g, t) => s.(live := s.live[g := Join(s.live[g], s.pub[t])])
    case TickOwn(g) => s.(live := Ticked(s, g))
    case Access(_, _) => s
  }

  /** A run: the steps taken and the states before, between and after them. */
  datatype Run = Run(ops: seq<Op>, states: seq<Machine>)

  const Empty := Run([], [Init])

  ghost predicate Valid(r: Run) {
    && |r.states| == |r.ops| + 1
    && r.states[0] == Init
    && forall n {:trigger r.ops[n]} :: 0 <= n < |r.ops| ==>
         Enabled(r.states[n], r.ops[n]) && r.states[n + 1] == Apply(r.states[n], r.ops[n])
  }

  function Last(r: Run): Machine
    requires |r.states| > 0
  {
    r.states[|r.states| - 1]
  }

  function Extend(r: Run, op: Op): Run
    requires |r.states| > 0 && Enabled(Last(r), op)
  {
    Run(r.ops + [op], r.states + [Apply(Last(r), op)])
  }

  lemma ExtendIsValid(r: Run, op: Op)
    requires Valid(r) && Enabled(Last(r), op)
    ensures Valid(Extend(r, op)) && Last(Extend(r, op)) == Apply(Last(r), op)
  {
    var r' := Extend(r, op);
    forall n {:trigger r'.ops[n]} | 0 <= n < |r'.ops|
      ensures Enabled(r'.states[n], r'.ops[n]) && r'.states[n + 1] == Apply(r'.states[n], r'.ops[n])
    {
      if n < |r.ops| {
        assert r'.ops[n] == r.ops[n];
      }
    }
  }

  /** A sequence of steps that can all be taken, and the run it gives. */
  ghost predicate Possible(tr: seq<Op>) {
    exists r :: Valid(r) && r.ops == tr
  }

  ghost function RunOf(tr: seq<Op>): (r: Run)
    requires Possible(tr)
    ensures Valid(r) && r.ops == tr
  {
    var r :| Valid(r) && r.ops == tr;
    r
  }

  ghost function After(tr: seq<Op>): Machine
    requires Possible(tr)
  {
    Last(RunOf(tr))
  }

  lemma {:induction false} RunIsUnique(r: Run, q: Run, n: nat)
    requires Valid(r) && Valid(q) && r.ops == q.ops && n < |r.states|
    ensures r.states[n] == q.states[n]
  {
    if n > 0 {
      RunIsUnique(r, q, n - 1);
      assert r.ops[n - 1] == q.ops[n - 1];
    }
  }

  lemma NothingIsPossible()
    ensures Possible([]) && After([]) == Init
  {
    assert Valid(Empty);
  }

  lemma PossibleExtends(tr: seq<Op>, op: Op)
    requires Possible(tr) && Enabled(After(tr), op)
    ensures Possible(tr + [op]) && After(tr + [op]) == Apply(After(tr), op)
  {
    var r := Extend(RunOf(tr), op);
    ExtendIsValid(RunOf(tr), op);
    assert r.ops == tr + [op];
    RunIsUnique(r, RunOf(tr + [op]), |tr| + 1);
  }

  // ------------------------------------------------------------------
  // A live goroutine's own component is ahead of everyone else's copy.

  /** c mentions only live goroutines, and is behind each one's own component, except perhaps g's. */
  ghost predicate BehindBut(live: map<Gid, VC>, c: VC, g: Gid) {
    forall h :: h in c && h != g ==> h in live && c[h] < At(live[h], h)
  }

  ghost predicate Behind(live: map<Gid, VC>, c: VC) {
    forall h :: h in c ==> h in live && c[h] < At(live[h], h)
  }

  /** Every live goroutine's own component is strictly above that component in every other
      goroutine's clock and in every published clock. */
  ghost predicate OwnAhead(s: Machine) {
    && (forall g :: g in s.live ==> g < s.next && g in s.live[g] && BehindBut(s.live, s.live[g], g))
    && (forall t :: t in s.pub ==> Behind(s.live, s.pub[t]))
  }

  /** Own components have not fallen, so clocks that were behind still are. */
  ghost predicate OwnGrows(live: map<Gid, VC>, live': map<Gid, VC>) {
    forall h :: h in live ==> h in live' && At(live[h], h) <= At(live'[h], h)
  }

  lemma StillBehind(live: map<Gid, VC>, live': map<Gid, VC>, c: VC, g: Gid)
    requires OwnGrows(live, live')
    ensures Behind(live, c) ==> Behind(live', c)
    ensures BehindBut(live, c, g) ==> BehindBut(live', c, g)
  {
  }

  /** Replacing or adding one clock keeps the property if the new clock is ahead on its own
      component and behind elsewhere. */
  lemma ReplaceKeepsOwnAhead(s: Machine, g: Gid, c: VC, next: Gid)
    requires OwnAhead(s) && s.next <= next && g < next
    requires g in c && BehindBut(s.live, c, g)
    requires g in s.live ==> At(s.live[g], g) <= At(c, g)
    ensures OwnAhead(s.(next := next, live := s.live[g := c]))
  {
    var live' := s.live[g := c];
    assert OwnGrows(s.live, live');
    forall h | h in live'
      ensures h in live'[h] && BehindBut(live', live'[h], h)
    {
      StillBehind(s.live, live', live'[h], h);
    }
    forall t | t in s.pub
      ensures Behind(live', s.pub[t])
    {
      StillBehind(s.live, live', s.pub[t], g);
    }
  }

  lemma PublishKeepsOwnAhead(s: Machine, t: Token, c: VC)
    requires OwnAhead(s) && Behind(s.live, c)
    ensures OwnAhead(s.(pub := s.pub[t := c]))
  {
  }

  lemma TickKeepsOwnAhead(s: Machine, g: Gid)
    requires OwnAhead(s) && g in s.live
    ensures OwnAhead(s.(live := Ticked(s, g)))
    ensures Behind(Ticked(s, g), s.live[g])
  {
    ReplaceKeepsOwnAhead(s, g, Tick(s.live[g], g), s.next);
  }

  lemma SpawnKeepsOwnAhead(s: Machine, g: Gid, child: Gid)
    requires OwnAhead(s) && g in s.live && s.next <= child
    ensures OwnAhead(Apply(s, Spawn(g, child)))
  {
    TickKeepsOwnAhead(s, g);
    var c := Join(map[child := 1], s.live[g]);
    ReplaceKeepsOwnAhead(s.(live := Ticked(s, g)), child, c, child + 1);
  }

  lemma JoinIntoKeepsOwnAhead(s: Machine, g: Gid, t: Token)
    requires OwnAhead(s) && g in s.live
    ensures OwnAhead(Apply(s, JoinInto(g, t)))
  {
    var ticked := s.(live := Ticked(s, g));
    TickKeepsOwnAhead(s, g);
    if t in s.pub {
      assert Behind(ticked.live, s.pub[t]);
      PublishKeepsOwnAhead(ticked, t, Join(s.pub[t], s.live[g]));
    } else {
      PublishKeepsOwnAhead(ticked, t, s.live[g]);
    }
  }

  lemma AcquireKeepsOwnAhead(s: Machine, g: Gid, t: Token)
    requires OwnAhead(s) && g in s.live && t in s.pub
    ensures OwnAhead(Apply(s, Acquire(g, t)))
  {
    var a, b := s.live[g], s.pub[t];
    assert Behind(s.live, b) && BehindBut(s.live, a, g);
    var c := Join(a, b);
    assert forall h :: h in c ==> c[h] == (if At(a, h) < At(b, h) then At(b, h) else At(a, h));
    ReplaceKeepsOwnAhead(s, g, c, s.next);
  }

  lemma ApplyKeepsOwnAhead(s: Machine, op: Op)
    requires OwnAhead(s) && Enabled(s, op)
    ensures OwnAhead(Apply(s, op))
  {
    match op
    case Start(g) => ReplaceKeepsOwnAhead(s, g, map[g := 1], g + 1);
    case Spawn(g, child) => SpawnKeepsOwnAhead(s, g, child);
    case Release(g, t) =>
      TickKeepsOwnAhead(s, g);
      PublishKeepsOwnAhead(s.(live := Ticked(s, g)), t, s.live[g]);
    case JoinInto(g, t) => JoinIntoKeepsOwnAhead(s, g, t);
    case Acquire(g, t) => AcquireKeepsOwnAhead(s, g, t);
    case TickOwn(g) => TickKeepsOwnAhead(s, g);
    case Access(_, _) =>
  }

  lemma {:induction false} OwnAheadAlways(r: Run, n: nat)
    requires Valid(r) && n < |r.states|
    ensures OwnAhead(r.states[n])
  {
    if n > 0 {
      OwnAheadAlways(r, n - 1);
      ApplyKeepsOwnAhead(r.states[n - 1], r.ops[n - 1]);
    }
  }

  /** Op ticks goroutine g's clock. */
  predicate TicksFor(op: Op, g: Gid) {
    op.g == g && (op.Spawn? || op.Release? || op.JoinInto? || op.TickOwn?)
  }

  function TicksIn(ops: seq<Op>, n: nat, g: Gid): nat
    requires n <= |ops|
  {
    if n == 0 then 0 else TicksIn(ops, n - 1, g) + if TicksFor(ops[n - 1], g) then 1 else 0
  }

  lemma OwnAfter(s: Machine, op: Op, g: Gid)
    requires OwnAhead(s) && Enabled(s, op) && g in Apply(s, op).live
    ensures At(Apply(s, op).live[g], g) == if g in s.live then At(s.live[g], g) + (if TicksFor(op, g) then 1 else 0) else 1
    ensures g !in s.live ==> !TicksFor(op, g)
  {
    match op
    case Spawn(p, child) => JoinIsLeastUpperBound(map[child := 1], s.live[p], map[]);
    case Acquire(h, t) => JoinIsLeastUpperBound(s.live[h], s.pub[t], map[]); assert Behind(s.live, s.pub[t]);
    case _ =>
  }

  /** A goroutine's own component counts its ticks: one at its start, and one each time it publishes. */
  lemma {:induction false} OwnCountsTicks(r: Run, n: nat, g: Gid)
    requires Valid(r) && n < |r.states|
    ensures g in r.states[n].live ==> At(r.states[n].live[g], g) == 1 + TicksIn(r.ops, n, g)
    ensures g !in r.states[n].live ==> TicksIn(r.ops, n, g) == 0
  {
    if n > 0 {
      var m := n - 1;
      OwnCountsTicks(r, m, g);
      OwnAheadAlways(r, m);
      assert Enabled(r.states[m], r.ops[m]) && r.states[m + 1] == Apply(r.states[m], r.ops[m]);
      if g in r.states[n].live {
        OwnAfter(r.states[m], r.ops[m], g);
      }
    }
  }

  /** Two live goroutines' clocks are never comparable. */
  lemma LiveClocksIncomparable(r: Run, n: nat, g: Gid, h: Gid)
    requires Valid(r) && n < |r.states|
    requires g in r.states[n].live && h in r.states[n].live && g != h
    ensures !Leq(r.states[n].live[g], r.states[n].live[h])
  {
    OwnAheadAlways(r, n);
    assert BehindBut(r.states[n].live, r.states[n].live[h], h);
  }

  // ------------------------------------------------------------------
  // Clocks only grow.

  ghost predicate Below(a: Machine, b: Machine) {
    && (forall g :: g in a.live ==> g in b.live && Leq(a.live[g], b.live[g]))
    && (forall t :: t in a.pub ==> t in b.pub && Leq(a.pub[t], b.pub[t]))
    && a.next <= b.next
  }

  lemma BelowTransitive(a: Machine, b: Machine, c: Machine)
    requires Below(a, b) && Below(b, c)
    ensures Below(a, c)
  {
    forall g | g in a.live
      ensures g in c.live && Leq(a.live[g], c.live[g])
    {
      LeqTransitive(a.live[g], b.live[g], c.live[g]);
    }
    forall t | t in a.pub
      ensures t in c.pub && Leq(a.pub[t], c.pub[t])
    {
      LeqTransitive(a.pub[t], b.pub[t], c.pub[t]);
    }
  }

  lemma JoinIntoGrows(s: Machine, g: Gid, t: Token)
    requires OwnAhead(s) && g in s.live
    ensures Below(s, Apply(s, JoinInto(g, t)))
  {
    if t in s.pub {
      JoinIsLeastUpperBound(s.pub[t], s.live[g], map[]);
    }
  }

  lemma ApplyGrows(s: Machine, op: Op)
    requires OwnAhead(s) && Enabled(s, op)
    ensures Below(s, Apply(s, op))
  {
    match op
    case Start(g) =>
    case Spawn(g, child) => assert Leq(s.live[g], Tick(s.live[g], g));
    case Release(g, t) =>
    case JoinInto(g, t) => JoinIntoGrows(s, g, t);
    case Acquire(g, t) => JoinIsLeastUpperBound(s.live[g], s.pub[t], map[]);
    case TickOwn(g) =>
    case Access(_, _) =>
  }

  lemma {:induction false} StatesGrow(r: Run, i: nat, j: nat)
    requires Valid(r) && i <= j < |r.states|
    ensures Below(r.states[i], r.states[j])
    decreases j
  {
    if i < j {
      StatesGrow(r, i, j - 1);
      OwnAheadAlways(r, j - 1);
      ApplyGrows(r.states[j - 1], r.ops[j - 1]);
      BelowTransitive(r.states[i], r.states[j - 1], r.states[j]);
    }
  }
}
