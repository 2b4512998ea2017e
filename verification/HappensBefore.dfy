/** Vector clocks characterise happens-before: an event's clock is below a later event's clock
    exactly when a chain of program-order, go-statement and synchronisation edges links them. */
module HappensBefore {
  import opened Clock
  import opened ClockMachine

  predicate Publishes(op: Op, t: Token) {
    (op.Release? || op.JoinInto?) && op.t == t
  }

  /** One synchronised-before edge between two events of a run, with no reference to clocks. */
  predicate Edge(tr: seq<Op>, i: nat, j: nat)
    requires i < j < |tr|
  {
    || tr[i].g == tr[j].g
    || (tr[i].Spawn? && tr[i].child == tr[j].g)
    || (tr[j].Acquire? && Publishes(tr[i], tr[j].t))
  }

  /** A chain of edges from i to j. */
  predicate HB(tr: seq<Op>, i: nat, j: nat)
    requires i < j < |tr|
    decreases j - i
  {
    Edge(tr, i, j) || exists k :: i < k < j && Edge(tr, i, k) && HB(tr, k, j)
  }

  /** The clock an event happens at: after what it acquires, before its own tick. */
  function ClockAt(r: Run, n: nat): VC
    requires Valid(r) && n < |r.ops|
  {
    var s := r.states[n];
    match r.ops[n]
    case Start(g) => map[g := 1]
    case Acquire(g, t) => Join(s.live[g], s.pub[t])
    case _ => s.live[r.ops[n].g]
  }

  /** The event's own component: the epoch of its goroutine. */
  function Epoch(r: Run, n: nat): nat
    requires Valid(r) && n < |r.ops|
  {
    At(ClockAt(r, n), r.ops[n].g)
  }

  // ------------------------------------------------------------------
  // Chains order clocks.

  lemma {:induction false} HBTransitive(tr: seq<Op>, i: nat, j: nat, k: nat)
    requires i < j < k < |tr| && HB(tr, i, j) && HB(tr, j, k)
    ensures HB(tr, i, k)
    decreases j - i
  {
    if !Edge(tr, i, j) {
      var m :| i < m < j && Edge(tr, i, m) && HB(tr, m, j);
      HBTransitive(tr, m, j, k);
    }
  }

  /** i is j, or a chain leads from i to j. */
  ghost predicate OrBefore(tr: seq<Op>, i: nat, j: nat)
    requires j < |tr|
  {
    i == j || (i < j && HB(tr, i, j))
  }

  /** A chain ends with an edge into its last event. */
  lemma {:induction false} LastEdge(tr: seq<Op>, i: nat, j: nat)
    requires i < j < |tr|
    ensures HB(tr, i, j) <==> exists k :: i <= k < j && Edge(tr, k, j) && OrBefore(tr, i, k)
    decreases j - i
  {
    if HB(tr, i, j) {
      if Edge(tr, i, j) {
        assert OrBefore(tr, i, i);
      } else {
        var m :| i < m < j && Edge(tr, i, m) && HB(tr, m, j);
        LastEdge(tr, m, j);
        var k :| m <= k < j && Edge(tr, k, j) && OrBefore(tr, m, k);
        if m < k {
          HBTransitive(tr, i, m, k);
        }
        assert OrBefore(tr, i, k);
      }
    }
    if k :| i <= k < j && Edge(tr, k, j) && OrBefore(tr, i, k) {
      if i < k {
        HBTransitive(tr, i, k, j);
      }
    }
  }

  /** What an event's clock flows into as the event completes. */
  lemma EventFlows(r: Run, n: nat)
    requires Valid(r) && n < |r.ops|
    ensures var s' := r.states[n + 1];
      && r.ops[n].g in s'.live && Leq(ClockAt(r, n), s'.live[r.ops[n].g])
      && (r.ops[n].Spawn? ==> Leq(ClockAt(r, n), s'.live[r.ops[n].child]))
      && (forall t :: Publishes(r.ops[n], t) ==> t in s'.pub && Leq(ClockAt(r, n), s'.pub[t]))
  {
    var s := r.states[n];
    OwnAheadAlways(r, n);
    ApplyFlows(s, r.ops[n], ClockAt(r, n));
  }

  lemma ApplyFlows(s: Machine, op: Op, c: VC)
    requires OwnAhead(s) && Enabled(s, op)
    requires match op
             case Start(g) => c == map[g := 1]
             case Acquire(g, t) => c == Join(s.live[g], s.pub[t])
             case _ => c == s.live[op.g]
    ensures var s' := Apply(s, op);
      && op.g in s'.live && Leq(c, s'.live[op.g])
      && (op.Spawn? ==> Leq(c, s'.live[op.child]))
      && (forall t :: Publishes(op, t) ==> t in s'.pub && Leq(c, s'.pub[t]))
  {
    match op
    case JoinInto(g, t) =>
      if t in s.pub {
        JoinIsLeastUpperBound(s.pub[t], c, map[]);
      }
    case Spawn(g, child) => JoinIsLeastUpperBound(map[child := 1], c, map[]);
    case _ =>
  }

  /** A goroutine that already exists is not started again. */
  lemma NotRestarted(r: Run, i: nat, j: nat)
    requires i < j < |r.ops| && Valid(r) && r.ops[j].g in r.states[i + 1].live
    ensures !r.ops[j].Start? && r.ops[j].g in r.states[j].live
  {
    StatesGrow(r, i + 1, j);
    OwnAheadAlways(r, j);
    var s, g := r.states[j], r.ops[j].g;
    assert g in s.live && g < s.next;
    assert Enabled(s, r.ops[j]);
  }

  lemma EdgeOrdersClocks(r: Run, i: nat, j: nat)
    requires i < j < |r.ops| && Valid(r) && Edge(r.ops, i, j)
    ensures Leq(ClockAt(r, i), ClockAt(r, j))
  {
    EventFlows(r, i);
    StatesGrow(r, i + 1, j);
    var s, s' := r.states[j], r.states[i + 1];
    if Feeds(r.ops[i], r.ops[j].g) {
      var g := r.ops[j].g;
      NotRestarted(r, i, j);
      LeqTransitive(ClockAt(r, i), s'.live[g], s.live[g]);
      LeqTransitive(ClockAt(r, i), s.live[g], ClockAt(r, j));
    } else {
      var t := r.ops[j].t;
      LeqTransitive(ClockAt(r, i), s'.pub[t], s.pub[t]);
      LeqTransitive(ClockAt(r, i), s.pub[t], ClockAt(r, j));
    }
  }

  lemma {:induction false} ChainOrdersClocks(r: Run, i: nat, j: nat)
    requires i < j < |r.ops| && Valid(r) && HB(r.ops, i, j)
    ensures Leq(ClockAt(r, i), ClockAt(r, j))
    decreases j - i
  {
    if Edge(r.ops, i, j) {
      EdgeOrdersClocks(r, i, j);
    } else {
      var k :| i < k < j && Edge(r.ops, i, k) && HB(r.ops, k, j);
      EdgeOrdersClocks(r, i, k);
      ChainOrdersClocks(r, k, j);
      LeqTransitive(ClockAt(r, i), ClockAt(r, k), ClockAt(r, j));
    }
  }

  // ------------------------------------------------------------------
  // Known epochs come from chains.

  predicate HBEq(tr: seq<Op>, e: nat, f: nat)
    requires e <= f < |tr|
  {
    e == f || HB(tr, e, f)
  }

  /** f is an event after which goroutine h has everything f had. */
  predicate Feeds(op: Op, h: Gid) {
    op.g == h || (op.Spawn? && op.child == h)
  }

  ghost predicate Reaches(tr: seq<Op>, n: nat, e: nat, h: Gid)
    requires n <= |tr|
  {
    exists f :: e <= f < n && HBEq(tr, e, f) && Feeds(tr[f], h)
  }

  ghost predicate ReachesToken(tr: seq<Op>, n: nat, e: nat, t: Token)
    requires n <= |tr|
  {
    exists f :: e <= f < n && HBEq(tr, e, f) && Publishes(tr[f], t)
  }

  lemma ReachesExtends(tr: seq<Op>, n: nat, e: nat)
    requires e < n < |tr| && Reaches(tr, n, e, tr[n].g)
    ensures HB(tr, e, n)
  {
    var f :| e <= f < n && HBEq(tr, e, f) && Feeds(tr[f], tr[n].g);
    assert Edge(tr, f, n);
    if e < f {
      HBTransitive(tr, e, f, n);
    }
  }

  lemma TokenExtends(tr: seq<Op>, n: nat, e: nat)
    requires e < n < |tr| && tr[n].Acquire? && ReachesToken(tr, n, e, tr[n].t)
    ensures HB(tr, e, n)
  {
    var f :| e <= f < n && HBEq(tr, e, f) && Publishes(tr[f], tr[n].t);
    assert Edge(tr, f, n);
    if e < f {
      HBTransitive(tr, e, f, n);
    }
  }

  lemma ReachesStays(tr: seq<Op>, n: nat, e: nat)
    requires e < n < |tr|
    ensures forall h :: Reaches(tr, n, e, h) ==> Reaches(tr, n + 1, e, h)
    ensures forall t :: ReachesToken(tr, n, e, t) ==> ReachesToken(tr, n + 1, e, t)
    ensures HB(tr, e, n) ==> Reaches(tr, n + 1, e, tr[n].g)
    ensures HB(tr, e, n) && tr[n].Spawn? ==> Reaches(tr, n + 1, e, tr[n].child)
    ensures HB(tr, e, n) ==> forall t :: Publishes(tr[n], t) ==> ReachesToken(tr, n + 1, e, t)
  {
  }

  /** Whoever's clock has reached event e's epoch is reached from e by a chain. */
  ghost predicate KnownByChain(r: Run, n: nat, e: nat)
    requires Valid(r) && e < n <= |r.ops|
  {
    var s := r.states[n];
    && (forall h :: h in s.live && Epoch(r, e) <= At(s.live[h], r.ops[e].g) ==> Reaches(r.ops, n, e, h))
    && (forall t :: t in s.pub && Epoch(r, e) <= At(s.pub[t], r.ops[e].g) ==> ReachesToken(r.ops, n, e, t))
  }

  lemma EpochIsOwn(r: Run, n: nat)
    requires Valid(r) && n < |r.ops|
    ensures Epoch(r, n) > 0
    ensures !r.ops[n].Start? ==> Epoch(r, n) == At(r.states[n].live[r.ops[n].g], r.ops[n].g)
  {
    OwnAheadAlways(r, n);
    if r.ops[n].Acquire? {
      var s := r.states[n];
      assert Behind(s.live, s.pub[r.ops[n].t]);
    }
  }

  /** At state s only g itself has reached epoch k of g. */
  ghost predicate OnlyOwner(s: Machine, g: Gid, k: nat) {
    && (forall h :: h in s.live && k <= At(s.live[h], g) ==> h == g)
    && (forall t :: t in s.pub ==> At(s.pub[t], g) < k)
  }

  lemma EventIsNews(r: Run, e: nat)
    requires Valid(r) && e < |r.ops|
    ensures OnlyOwner(r.states[e], r.ops[e].g, Epoch(r, e))
  {
    var s, g := r.states[e], r.ops[e].g;
    OwnAheadAlways(r, e);
    EpochIsOwn(r, e);
    forall t | t in s.pub
      ensures At(s.pub[t], g) < Epoch(r, e)
    {
      assert Behind(s.live, s.pub[t]);
    }
    forall h | h in s.live && Epoch(r, e) <= At(s.live[h], g)
      ensures h == g
    {
      assert BehindBut(s.live, s.live[h], h);
    }
  }

  /** Where a step can have made goroutine h or token t know epoch k of g. */
  lemma ApplyLearns(s: Machine, op: Op, g: Gid, k: nat)
    requires OwnAhead(s) && Enabled(s, op) && k > 0
    ensures var s' := Apply(s, op);
      && (forall h :: h in s'.live && k <= At(s'.live[h], g) ==>
            || (h in s.live && k <= At(s.live[h], g))
            || (h == op.g == g)
            || (op.Spawn? && h == op.child == g)
            || (op.Spawn? && h == op.child && k <= At(s.live[op.g], g))
            || (op.Acquire? && h == op.g && k <= At(s.pub[op.t], g)))
      && (forall t :: t in s'.pub && k <= At(s'.pub[t], g) ==>
            || (t in s.pub && k <= At(s.pub[t], g))
            || (Publishes(op, t) && k <= At(s.live[op.g], g)))
  {
    match op
    case Start(_) =>
    case Spawn(_, _) =>
    case Release(_, _) =>
    case JoinInto(_, _) =>
    case Acquire(_, _) =>
    case TickOwn(_) =>
    case Access(_, _) =>
  }

  lemma KnownByChainStarts(r: Run, e: nat)
    requires Valid(r) && e < |r.ops|
    ensures KnownByChain(r, e + 1, e)
  {
    var s', g, k := r.states[e + 1], r.ops[e].g, Epoch(r, e);
    OwnAheadAlways(r, e);
    EpochIsOwn(r, e);
    EventIsNews(r, e);
    ApplyLearns(r.states[e], r.ops[e], g, k);
    forall h | h in s'.live && k <= At(s'.live[h], g)
      ensures Reaches(r.ops, e + 1, e, h)
    {
      assert Feeds(r.ops[e], h) && HBEq(r.ops, e, e);
    }
    forall t | t in s'.pub && k <= At(s'.pub[t], g)
      ensures ReachesToken(r.ops, e + 1, e, t)
    {
      assert Publishes(r.ops[e], t) && HBEq(r.ops, e, e);
    }
  }

  lemma KnownByChainStep(r: Run, n: nat, e: nat)
    requires e < n < |r.ops| && Valid(r) && KnownByChain(r, n, e)
    ensures KnownByChain(r, n + 1, e)
  {
    assert Enabled(r.states[n], r.ops[n]);
    var s, s', g, k := r.states[n], r.states[n + 1], r.ops[e].g, Epoch(r, e);
    OwnAheadAlways(r, n);
    EpochIsOwn(r, e);
    ApplyLearns(s, r.ops[n], g, k);
    ReachesStays(r.ops, n, e);
    if Reaches(r.ops, n, e, r.ops[n].g) {
      ReachesExtends(r.ops, n, e);
    }
    if r.ops[n].Acquire? && k <= At(s.pub[r.ops[n].t], g) {
      TokenExtends(r.ops, n, e);
    }
    forall h | h in s'.live && k <= At(s'.live[h], g)
      ensures Reaches(r.ops, n + 1, e, h)
    {
      if h == g {
        assert Feeds(r.ops[e], h) && HBEq(r.ops, e, e);
      }
    }
    forall t | t in s'.pub && k <= At(s'.pub[t], g)
      ensures ReachesToken(r.ops, n + 1, e, t)
    {
    }
  }

  lemma {:induction false} KnownByChainAlways(r: Run, n: nat, e: nat)
    requires e < n <= |r.ops| && Valid(r)
    ensures KnownByChain(r, n, e)
    decreases n
  {
    var m := n - 1;
    if m == e {
      KnownByChainStarts(r, e);
      assert n == e + 1;
    } else {
      KnownByChainAlways(r, m, e);
      KnownByChainStep(r, m, e);
      assert n == m + 1;
    }
  }

  lemma KnownEpochHasChain(r: Run, i: nat, j: nat)
    requires i < j < |r.ops| && Valid(r)
    requires Epoch(r, i) <= At(ClockAt(r, j), r.ops[i].g)
    ensures HB(r.ops, i, j)
  {
    KnownByChainAlways(r, j, i);
    EpochIsOwn(r, i);
    EventFlows(r, i);
    if r.ops[j].Start? && r.ops[j].g == r.ops[i].g {
      NotRestarted(r, i, j);
    } else if r.ops[j].Acquire? && Epoch(r, i) <= At(r.states[j].pub[r.ops[j].t], r.ops[i].g) {
      TokenExtends(r.ops, j, i);
    } else {
      ReachesExtends(r.ops, j, i);
    }
  }

  /** For any two events of any run, in order: comparing whole clocks, comparing the earlier
      event's own component, and the existence of a chain of edges all agree. */
  lemma ClocksCharacteriseHappensBefore(r: Run, i: nat, j: nat)
    requires i < j < |r.ops| && Valid(r)
    ensures Leq(ClockAt(r, i), ClockAt(r, j)) <==> HB(r.ops, i, j)
    ensures Epoch(r, i) <= At(ClockAt(r, j), r.ops[i].g) <==> HB(r.ops, i, j)
  {
    EpochIsOwn(r, i);
    if HB(r.ops, i, j) {
      ChainOrdersClocks(r, i, j);
    }
    if Epoch(r, i) <= At(ClockAt(r, j), r.ops[i].g) {
      KnownEpochHasChain(r, i, j);
    }
  }

  /** A later event of another goroutine is never clock-ordered before an earlier one. */
  lemma LaterNeverBelow(r: Run, i: nat, j: nat)
    requires i < j < |r.ops| && Valid(r) && r.ops[i].g != r.ops[j].g
    ensures !Leq(ClockAt(r, j), ClockAt(r, i))
  {
    var g := r.ops[j].g;
    EpochIsOwn(r, j);
    OwnAheadAlways(r, i);
    OwnAheadAlways(r, j);
    StatesGrow(r, i, j);
    var s := r.states[i];
    if g in s.live {
      if r.ops[i].Acquire? {
        assert Behind(s.live, s.pub[r.ops[i].t]);
      }
      if !r.ops[i].Start? {
        assert BehindBut(s.live, s.live[r.ops[i].g], r.ops[i].g);
      }
      assert At(ClockAt(r, i), g) < At(s.live[g], g);
    } else {
      assert g !in ClockAt(r, i);
    }
  }
}
