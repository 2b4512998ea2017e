/** The instrumented session (pkg/interpreter/session.go): the instruction prologue with its step
    accounting and value cache, and one call under a budget. */
module Session {
  import opened Detector
  import opened Ssa

  /** The cache is keyed by instruction and operand values. */
  type Key = (Instr, seq<Value>)

  /** limit is the absolute step count at which to stop, 0 for none. */
  datatype State<R> = State(
    core: Core<R>, steps: nat, classes: seq<nat>, limit: nat, exhausted: bool,
    hits: nat, executed: nat, cache: map<Key, (Value, nat)>)

  function Sum(s: seq<nat>): nat {
    if s == [] then 0 else Sum(s[..|s| - 1]) + s[|s| - 1]
  }

  lemma {:induction false} SumUpdate(s: seq<nat>, i: nat, v: nat)
    requires i < |s|
    ensures Sum(s[i := v]) == Sum(s) - s[i] + v
  {
    var n := |s| - 1;
    if i < n {
      SumUpdate(s[..n], i, v);
      assert s[i := v][..n] == s[..n][i := v];
    } else {
      assert s[i := v][..n] == s[..n];
    }
  }

  lemma {:induction false} SumZeros(n: nat)
    ensures Sum(seq(n, _ => 0)) == 0
  {
    if n > 0 {
      assert seq(n, _ => 0)[..n - 1] == seq(n - 1, _ => 0);
      SumZeros(n - 1);
    }
  }

  // ------------------------------------------------------------------
  // One instruction

  /** The next instruction, if the call goes on: none runs while the goroutine has stopped or a panic
      is unwinding. */
  function Next<R>(sem: Semantics<R>, core: Core<R>): Option<(Core<R>, Instr)> {
    if core.halted then None
    else
      var (c, i) := sem.control(core);
      if i.None? || c.halted || c.panicking then None else Some((c, i.value))
  }

  /** Where a call that does not go on is left. */
  function End<R>(sem: Semantics<R>, core: Core<R>): Core<R> {
    if core.halted then core else sem.control(core).0
  }

  predicate AtLimit<R>(s: State<R>) {
    s.limit > 0 && s.steps >= s.limit
  }

  function Stopped<R>(s: State<R>): State<R> {
    s.(exhausted := true, core := s.core.(halted := true))
  }

  function Counted<R>(s: State<R>, cls: nat, n: nat): State<R>
    requires cls < |s.classes|
  {
    s.(steps := s.steps + n, classes := s.classes[cls := s.classes[cls] + n])
  }

  /** The instruction without a cache. */
  function PlainStep<R>(sem: Semantics<R>, s: State<R>, i: Instr): State<R>
    requires |s.classes| == NUM_CLASSES
  {
    if AtLimit(s) then Stopped(s)
    else Counted(s, Classify(sem, s.core, i), 1).(core := Executed(sem, s.core, i))
  }

  /** The instruction is one the cache is asked about. */
  predicate Cacheable<R>(core: Core<R>, i: Instr) {
    IsPure(i) && AllScalar(Operands(core, i))
  }

  /** A hit: the result is bound and recorded; a call's safepoint is still checked. */
  function Hit<R>(sem: Semantics<R>, s: State<R>, i: Instr, entry: (Value, nat)): State<R>
    requires IsPure(i) && |s.classes| == NUM_CLASSES
  {
    var done := Computed(entry.0, Safepoint(sem, s.core.rest, i), false);
    Counted(s, Classify(sem, s.core, i), entry.1).(core := Bound(s.core, i, s.core.rest, done), hits := s.hits + 1)
  }

  /** The result is stored if nothing was reported, nothing panicked and the result is a scalar. */
  predicate Storable<R>(before: Core<R>, after: Core<R>, i: Instr)
    requires IsPure(i)
  {
    && |after.reports| == |before.reports| && !after.halted && !after.panicking
    && i.dst in after.locals && IsScalarValue(after.locals[i.dst])
  }

  function Remembered<R>(s: State<R>, i: Instr, after: Core<R>): map<Key, (Value, nat)>
    requires IsPure(i)
  {
    if Storable(s.core, after, i) then s.cache[(i, Operands(s.core, i)) := (after.locals[i.dst], 1)] else s.cache
  }

  /** A cacheable instruction that the cache does not have. */
  function Missed<R>(sem: Semantics<R>, s: State<R>, i: Instr): State<R>
    requires IsPure(i) && |s.classes| == NUM_CLASSES && !AtLimit(s)
  {
    var s1 := PlainStep(sem, s, i);
    s1.(executed := s.executed + 1, cache := Remembered(s, i, s1.core))
  }

  /** The instruction with a cache that has lost what is in forgotten: execInstructionSession. */
  function CachedStep<R>(sem: Semantics<R>, s: State<R>, i: Instr, forgotten: set<Key>): State<R>
    requires |s.classes| == NUM_CLASSES
  {
    if AtLimit(s) then Stopped(s)
    else
      var s0 := s.(cache := s.cache - forgotten);
      if !Cacheable(s.core, i) then PlainStep(sem, s0, i)
      else
        var key := (i, Operands(s.core, i));
        if key in s0.cache then Hit(sem, s0, i, s0.cache[key]) else Missed(sem, s0, i)
  }

  // ------------------------------------------------------------------
  // Transparency

  /** The entry is right wherever the call may be: executing the instruction on those operands, in any
      state of memory, gives that value and nothing else but what a safepoint finds. */
  ghost predicate Right<R(!new)>(sem: Semantics<R>, key: Key, entry: (Value, nat)) {
    && IsPure(key.0) && entry.1 == 1
    && forall c: Core<R> :: Operands(c, key.0) == key.1 ==>
         Executed(sem, c, key.0) == Bound(c, key.0, c.rest, Computed(entry.0, Safepoint(sem, c.rest, key.0), false))
  }

  ghost predicate Faithful<R(!new)>(sem: Semantics<R>, cache: map<Key, (Value, nat)>) {
    forall key :: key in cache ==> Right(sem, key, cache[key])
  }

  /** All that a caller can see of a run, except how often the cache was used. */
  predicate SameRun<R(==)>(s: State<R>, t: State<R>) {
    s.core == t.core && s.steps == t.steps && s.classes == t.classes && s.limit == t.limit && s.exhausted == t.exhausted
  }

  lemma HitIsExecution<R(!new)>(sem: Semantics<R>, s: State<R>, i: Instr)
    requires |s.classes| == NUM_CLASSES && !AtLimit(s)
    requires (i, Operands(s.core, i)) in s.cache && Faithful(sem, s.cache)
    ensures IsPure(i) && SameRun(Hit(sem, s, i, s.cache[(i, Operands(s.core, i))]), PlainStep(sem, s, i))
  {
    assert Right(sem, (i, Operands(s.core, i)), s.cache[(i, Operands(s.core, i))]);
  }

  /** What is not stored: an execution that panicked or reported anything of its own. */
  lemma StoredIsQuiet<R>(sem: Semantics<R>, c: Core<R>, i: Instr)
    requires IsPure(i) && BindsValue(i) && Storable(c, Executed(sem, c, i), i)
    ensures var e := Perform(sem, c, i).done; e.reports == [] && !e.panics
  {
    var e := Perform(sem, c, i).done;
    assert |Executed(sem, c, i).reports| == |c.reports| + |e.reports|;
  }

  /** No entry is ever stored for an integer division by zero or a negative shift count, so a hit never
      hides one. */
  lemma StoredNeverPanics<R>(sem: Semantics<R>, c: Core<R>, i: Instr)
    requires IsPure(i) && i.BinOp? && Storable(c, Executed(sem, c, i), i)
    ensures var y := Operands(c, i)[1]; !DividesByZero(i.tok, y, TypeOf(i.x)) && !ShiftsByNegative(i.tok, y, TypeOf(i.y))
  {
    StoredIsQuiet(sem, c, i);
    PanicsIff(sem, c, i);
  }

  /** What one execution stored is right for every later one. */
  lemma StoredIsRight<R(!new)>(sem: Semantics<R>, c: Core<R>, i: Instr)
    requires IsPure(i) && BindsValue(i) && !Disguised(i, Operands(c, i)) && Storable(c, Executed(sem, c, i), i)
    ensures Right(sem, (i, Operands(c, i)), (Executed(sem, c, i).locals[i.dst], 1))
  {
    StoredIsQuiet(sem, c, i);
    forall d: Core<R> | Operands(d, i) == Operands(c, i)
      ensures Executed(sem, d, i) == Bound(d, i, d.rest, Computed(Executed(sem, c, i).locals[i.dst], Safepoint(sem, d.rest, i), false))
    {
      PureIsFunctional(sem, c, sem, d, i);
      var own :| Perform(sem, c, i).done.reports == Safepoint(sem, c.rest, i) + own
        && Perform(sem, d, i).done.reports == Safepoint(sem, d.rest, i) + own;
      assert |own| == 0 && own == [];
      assert Safepoint(sem, d.rest, i) + [] == Safepoint(sem, d.rest, i);
    }
  }

  /** A conversion of a scalar other than an integer from a type named like uintptr to one named like
      unsafe.Pointer: it clears what is pinned and its result is stored. */
  predicate Masquerades<R>(core: Core<R>, i: Instr) {
    Cacheable(core, i) && Disguised(i, Operands(core, i)) && !Operands(core, i)[0].raw.IntV?
  }

  /** On an integer such a conversion is never stored: the result is a pointer or nil. */
  lemma DisguisedIntegerIsNotStored<R>(sem: Semantics<R>, c: Core<R>, i: Instr)
    requires Cacheable(c, i) && Disguised(i, Operands(c, i)) && Operands(c, i)[0].raw.IntV?
    ensures !Storable(c, Executed(sem, c, i), i)
  {
    PureInputs(sem, c, i);
    assert IsScalarValue(Operands(c, i)[0]);
  }

  lemma StoredIsNotDisguised<R>(sem: Semantics<R>, c: Core<R>, i: Instr)
    requires Cacheable(c, i) && !Masquerades(c, i) && Storable(c, Executed(sem, c, i), i)
    ensures !Disguised(i, Operands(c, i))
  {
    if Disguised(i, Operands(c, i)) {
      DisguisedIntegerIsNotStored(sem, c, i);
    }
  }

  lemma PlainAgrees<R(!new)>(sem: Semantics<R>, s: State<R>, t: State<R>, i: Instr)
    requires SameRun(s, t) && |s.classes| == NUM_CLASSES
    ensures SameRun(PlainStep(sem, s, i), PlainStep(sem, t, i)) && PlainStep(sem, s, i).cache == s.cache
  {
  }

  lemma MissAgrees<R(!new)>(sem: Semantics<R>, s: State<R>, i: Instr)
    requires |s.classes| == NUM_CLASSES && !AtLimit(s) && Faithful(sem, s.cache)
    requires Cacheable(s.core, i) && !Masquerades(s.core, i)
    ensures SameRun(Missed(sem, s, i), PlainStep(sem, s, i)) && Faithful(sem, Missed(sem, s, i).cache)
  {
    if Storable(s.core, Executed(sem, s.core, i), i) {
      PureInputs(sem, s.core, i);
      StoredIsNotDisguised(sem, s.core, i);
      StoredIsRight(sem, s.core, i);
    }
  }

  /** One step with the cache does what the step without it does, whatever the cache has lost, and the
      cache stays faithful. */
  lemma CachedStepAgrees<R(!new)>(sem: Semantics<R>, s: State<R>, t: State<R>, i: Instr, forgotten: set<Key>)
    requires SameRun(s, t) && |s.classes| == NUM_CLASSES && Faithful(sem, s.cache) && !Masquerades(s.core, i)
    ensures SameRun(CachedStep(sem, s, i, forgotten), PlainStep(sem, t, i))
    ensures Faithful(sem, CachedStep(sem, s, i, forgotten).cache)
  {
    var s0 := s.(cache := s.cache - forgotten);
    if Cacheable(s.core, i) && !AtLimit(s) {
      if (i, Operands(s.core, i)) in s0.cache {
        HitIsExecution(sem, s0, i);
      } else {
        MissAgrees(sem, s0, i);
      }
    }
    PlainAgrees(sem, s0, t, i);
  }

  /** A run: one instruction after another. */
  ghost predicate IsRun<R(!new)>(sem: Semantics<R>, states: seq<State<R>>, cached: bool, forgotten: seq<set<Key>>) {
    && |states| > 0 && |forgotten| == |states| - 1 && |states[0].classes| == NUM_CLASSES
    && forall n {:trigger forgotten[n]} :: 0 <= n < |forgotten| ==> RunStep(sem, states[n], states[n + 1], cached, forgotten[n])
  }

  ghost predicate RunStep<R(!new)>(sem: Semantics<R>, s: State<R>, s': State<R>, cached: bool, forgotten: set<Key>) {
    && |s.classes| == NUM_CLASSES && Next(sem, s.core).Some?
    && var (c, i) := Next(sem, s.core).value;
    s' == if cached then CachedStep(sem, s.(core := c), i, forgotten) else PlainStep(sem, s.(core := c), i)
  }

  /** The next instruction from here is such a conversion. */
  ghost predicate MasqueradesNext<R(!new)>(sem: Semantics<R>, core: Core<R>) {
    Next(sem, core).Some? && Masquerades(Next(sem, core).value.0, Next(sem, core).value.1)
  }

  ghost predicate Unmasked<R(!new)>(sem: Semantics<R>, states: seq<State<R>>) {
    forall n :: 0 <= n < |states| ==> !MasqueradesNext(sem, states[n].core)
  }

  /** A cached run and an uncached run from the same state have the same values, memory, reports
      (those of safepoints included), trace, step counts and exhaustion at every point, whatever the
      cache holds that is faithful and whenever it forgets; so neither can go on where the other
      stops. The uncached run must not come to a conversion that masquerades. */
  lemma {:induction false} CacheIsTransparent<R(!new)>(
    sem: Semantics<R>, plain: seq<State<R>>, cached: seq<State<R>>, lost: seq<set<Key>>, none: seq<set<Key>>, n: nat)
    requires IsRun(sem, plain, false, none) && IsRun(sem, cached, true, lost) && Unmasked(sem, plain)
    requires SameRun(cached[0], plain[0]) && Faithful(sem, cached[0].cache)
    requires n < |plain| && n < |cached|
    ensures SameRun(cached[n], plain[n]) && Faithful(sem, cached[n].cache)
    ensures Next(sem, cached[n].core) == Next(sem, plain[n].core)
  {
    if n > 0 {
      var m := n - 1;
      CacheIsTransparent(sem, plain, cached, lost, none, m);
      assert RunStep(sem, plain[m], plain[m + 1], false, none[m]) && RunStep(sem, cached[m], cached[m + 1], true, lost[m]);
      var (c, i) := Next(sem, cached[m].core).value;
      assert !MasqueradesNext(sem, plain[m].core);
      CachedStepAgrees(sem, cached[m].(core := c), plain[m].(core := c), i, lost[m]);
    }
  }

  lemma GoesOn<R(!new)>(sem: Semantics<R>, states: seq<State<R>>, cached: bool, forgotten: seq<set<Key>>, n: nat)
    requires IsRun(sem, states, cached, forgotten) && n < |states|
    ensures n < |states| - 1 ==> Next(sem, states[n].core).Some?
  {
    if n < |states| - 1 {
      assert RunStep(sem, states[n], states[n + 1], cached, forgotten[n]);
    }
  }

  /** Two complete runs, cached and uncached, take the same number of steps and end alike. */
  lemma CompleteRunsAgree<R(!new)>(
    sem: Semantics<R>, plain: seq<State<R>>, cached: seq<State<R>>, lost: seq<set<Key>>, none: seq<set<Key>>)
    requires IsRun(sem, plain, false, none) && IsRun(sem, cached, true, lost) && Unmasked(sem, plain)
    requires SameRun(cached[0], plain[0]) && Faithful(sem, cached[0].cache)
    requires Next(sem, plain[|plain| - 1].core).None? && Next(sem, cached[|cached| - 1].core).None?
    ensures |plain| == |cached| && SameRun(cached[|cached| - 1], plain[|plain| - 1])
    ensures End(sem, cached[|cached| - 1].core) == End(sem, plain[|plain| - 1].core)
  {
    var n := if |plain| < |cached| then |plain| - 1 else |cached| - 1;
    CacheIsTransparent(sem, plain, cached, lost, none, n);
    GoesOn(sem, plain, false, none, n);
    GoesOn(sem, cached, true, lost, n);
  }

  // ------------------------------------------------------------------
  // What the cache is asked and remembers

  /** An instruction runs only while the goroutine has not stopped and no panic is unwinding. */
  lemma NothingRunsWhilePanicking<R(!new)>(sem: Semantics<R>, states: seq<State<R>>, cached: bool, forgotten: seq<set<Key>>, n: nat)
    requires IsRun(sem, states, cached, forgotten) && n < |states| - 1
    ensures !states[n].core.halted
    ensures var (c, i) := sem.control(states[n].core); i.Some? && !c.halted && !c.panicking
  {
    assert RunStep(sem, states[n], states[n + 1], cached, forgotten[n]);
  }

  /** A pure instruction on scalars that was not in the cache is afterwards exactly when it reported
      nothing, did not panic and gave a scalar. */
  lemma RemembersIff<R(!new)>(sem: Semantics<R>, s: State<R>, i: Instr)
    requires |s.classes| == NUM_CLASSES && !AtLimit(s) && !s.core.halted && !s.core.panicking
    requires IsPure(i) && BindsValue(i) && AllScalar(Operands(s.core, i)) && (i, Operands(s.core, i)) !in s.cache
    ensures var s', e := CachedStep(sem, s, i, {}), Perform(sem, s.core, i).done;
      && ((i, Operands(s.core, i)) in s'.cache <==> e.reports == [] && !e.panics && IsScalarValue(e.v))
      && s'.executed == s.executed + 1 && s'.hits == s.hits
  {
    assert s.(cache := s.cache - {}) == s;
    var e := Perform(sem, s.core, i).done;
    assert |Executed(sem, s.core, i).reports| == |s.core.reports| + |e.reports|;
  }

  /** What is in the cache is answered from it: the instruction is not executed again. */
  lemma RememberedIsHit<R(!new)>(sem: Semantics<R>, s: State<R>, i: Instr)
    requires |s.classes| == NUM_CLASSES && !AtLimit(s) && IsPure(i) && AllScalar(Operands(s.core, i))
    requires (i, Operands(s.core, i)) in s.cache
    ensures var s', v := CachedStep(sem, s, i, {}), s.cache[(i, Operands(s.core, i))].0;
      && s'.hits == s.hits + 1 && s'.executed == s.executed && s'.cache == s.cache
      && i.dst in s'.core.locals && s'.core.locals[i.dst] == v
  {
    assert s.(cache := s.cache - {}) == s;
  }

  // ------------------------------------------------------------------
  // Where the cache shows

  /** For a disguised conversion that was stored, a hit agrees with an execution exactly when clearing
      the pinned pointers would change nothing. */
  lemma DisguisedHitIff<R(!new)>(sem: Semantics<R>, s: State<R>, i: Instr, entry: (Value, nat))
    requires Masquerades(s.core, i)
    requires |s.classes| == NUM_CLASSES && !AtLimit(s) && entry == (Operands(s.core, i)[0], 1)
    ensures SameRun(Hit(sem, s, i, entry), PlainStep(sem, s, i)) <==> (sem.tracked ==> sem.clearPins(s.core.rest) == s.core.rest)
  {
    PureInputs(sem, s.core, i);
    assert IsScalarValue(Operands(s.core, i)[0]);
  }

  /** A program that does i, pins a pointer and does i again, in a loop body run twice. Memory is whether
      anything is pinned. */
  function PinBetween(nv: Native, i: Instr): Semantics<bool> {
    Semantics(
      nv,
      (c: Core<bool>) => (c, if c.at == 0 || c.at == 2 then Some(i) else if c.at == 1 then Some(Other(1, 11)) else None),
      (c: Core<bool>, _: Instr) => c.(rest := true, at := c.at + 1),
      (c: Core<bool>, _: Instr) => false,
      (r: bool, id: nat) => (r, Plain(Nil)),
      (r: bool, v: Value, src: Type, dst: Type) => None,
      (r: bool) => [],
      true,
      (r: bool, id: nat, p) => true,
      (r: bool, alloc: nat) => false,
      (r: bool) => false,
      (r: bool, p) => [])
  }

  /** What executing such a conversion does: its operand becomes its result, and nothing stays pinned. */
  lemma MasqueradeRuns(sem: Semantics<bool>, c: Core<bool>, i: Instr)
    requires Masquerades(c, i) && sem.tracked && !sem.clearPins(c.rest)
    ensures var v := Operands(c, i)[0]; IsScalarValue(v) && Executed(sem, c, i) == Bound(c, i, false, Fine(v))
  {
    PureInputs(sem, c, i);
    assert IsScalarValue(Operands(c, i)[0]);
  }

  /** Afterwards it is the same conversion of the same operand. */
  lemma MasqueradesTwice(i: Instr, c: Core<bool>, d: Core<bool>)
    requires Masquerades(c, i) && d == Bound(c, i, false, Fine(Operands(c, i)[0])).(rest := true, at := 2)
    ensures Operands(d, i) == Operands(c, i) && Masquerades(d, i)
  {
    assert ValueOf(d.locals, i.x) == ValueOf(c.locals, i.x);
    assert Operands(d, i) == Operands(c, i);
  }

  /** The state is between two instructions of the program, with nothing in the way. */
  predicate Between(s: State<bool>, at: nat) {
    |s.classes| == NUM_CLASSES && s.limit == 0 && !s.core.halted && !s.core.panicking && s.core.at == at
  }

  lemma PlainMasquerade(nv: Native, i: Instr, s: State<bool>, at: nat) returns (s': State<bool>)
    requires Between(s, at) && (at == 0 || at == 2) && Masquerades(s.core, i)
    ensures RunStep(PinBetween(nv, i), s, s', false, {}) && Between(s', at + 1) && s'.cache == s.cache
    ensures s'.core == Bound(s.core, i, false, Fine(Operands(s.core, i)[0]))
  {
    s' := PlainStep(PinBetween(nv, i), s, i);
    MasqueradeRuns(PinBetween(nv, i), s.core, i);
  }

  lemma MissedMasquerade(nv: Native, i: Instr, s: State<bool>) returns (s': State<bool>)
    requires Between(s, 0) && s.cache == map[] && Masquerades(s.core, i)
    ensures RunStep(PinBetween(nv, i), s, s', true, {}) && Between(s', 1)
    ensures s'.core == Bound(s.core, i, false, Fine(Operands(s.core, i)[0]))
    ensures s'.cache == map[(i, Operands(s.core, i)) := (Operands(s.core, i)[0], 1)]
  {
    var sem := PinBetween(nv, i);
    s' := Missed(sem, s, i);
    MasqueradeRuns(sem, s.core, i);
    assert s.(cache := s.cache - {}) == s;
    assert s'.core.reports == s.core.reports;
    assert s' == CachedStep(sem, s, i, {});
  }

  lemma HitMasquerade(nv: Native, i: Instr, s: State<bool>) returns (s': State<bool>)
    requires Between(s, 2) && Masquerades(s.core, i) && (i, Operands(s.core, i)) in s.cache
    ensures RunStep(PinBetween(nv, i), s, s', true, {}) && s'.core.rest == s.core.rest
  {
    var sem := PinBetween(nv, i);
    s' := Hit(sem, s, i, s.cache[(i, Operands(s.core, i))]);
    assert s.(cache := s.cache - {}) == s;
    assert s' == CachedStep(sem, s, i, {});
  }

  lemma PinStep(nv: Native, i: Instr, s: State<bool>, cached: bool) returns (s': State<bool>)
    requires Between(s, 1)
    ensures RunStep(PinBetween(nv, i), s, s', cached, {}) && Between(s', 2) && s'.cache == s.cache
    ensures s'.core == s.core.(rest := true, at := 2)
  {
    var sem := PinBetween(nv, i);
    s' := PlainStep(sem, s, Other(1, 11));
    assert s.(cache := s.cache - {}) == s;
    assert s' == CachedStep(sem, s, Other(1, 11), {});
  }

  lemma ThreeSteps<R(!new)>(sem: Semantics<R>, a: State<R>, b: State<R>, c: State<R>, d: State<R>, cached: bool)
    requires RunStep(sem, a, b, cached, {}) && RunStep(sem, b, c, cached, {}) && RunStep(sem, c, d, cached, {})
    ensures IsRun(sem, [a, b, c, d], cached, [{}, {}, {}])
  {
    var states, none: seq<set<Key>> := [a, b, c, d], [{}, {}, {}];
    forall n | 0 <= n < |none| ensures RunStep(sem, states[n], states[n + 1], cached, none[n]) {
      assert n == 0 || n == 1 || n == 2;
    }
  }

  /** The restriction is needed of every conversion that masquerades, on every operand: there is a program
      in which it shows. The second conversion clears what was pinned, unless it is a hit. */
  lemma MasqueradeShows(nv: Native, i: Instr, s0: State<bool>) returns (plain: seq<State<bool>>, cached: seq<State<bool>>)
    requires Between(s0, 0) && Masquerades(s0.core, i) && s0.cache == map[]
    ensures var sem, none := PinBetween(nv, i), [{}, {}, {}];
      && IsRun(sem, plain, false, none) && IsRun(sem, cached, true, none) && |plain| == |cached| == 4
      && plain[0] == cached[0] == s0 && Faithful(sem, s0.cache)
      && cached[3].core.rest && !plain[3].core.rest
  {
    var sem := PinBetween(nv, i);
    var p1 := PlainMasquerade(nv, i, s0, 0);
    var p2 := PinStep(nv, i, p1, false);
    var c1 := MissedMasquerade(nv, i, s0);
    var c2 := PinStep(nv, i, c1, true);
    MasqueradesTwice(i, s0.core, p2.core);
    var p3 := PlainMasquerade(nv, i, p2, 2);
    var c3 := HitMasquerade(nv, i, c2);
    plain, cached := [s0, p1, p2, p3], [s0, c1, c2, c3];
    ThreeSteps(sem, s0, p1, p2, p3, false);
    ThreeSteps(sem, s0, c1, c2, c3, true);
  }

  // ------------------------------------------------------------------
  // Accounting

  /** Steps are the sum of the class counts, and with entries of one step each they never pass the
      limit. */
  ghost predicate Accounted<R(!new)>(s: State<R>) {
    && |s.classes| == NUM_CLASSES && s.steps == Sum(s.classes)
    && (s.limit > 0 ==> s.steps <= s.limit)
    && (s.exhausted ==> s.limit > 0 && s.steps == s.limit && s.core.halted)
    && (forall key :: key in s.cache ==> s.cache[key].1 == 1)
  }

  /** What a counted step keeps, whatever it does to the core. */
  lemma CountedIsAccounted<R(!new)>(s: State<R>, cls: nat, core: Core<R>)
    requires Accounted(s) && !s.core.halted && !AtLimit(s) && cls < NUM_CLASSES
    ensures var s' := Counted(s, cls, 1).(core := core);
      Accounted(s') && s'.steps == s.steps + 1 && !s'.exhausted && Grown(s.classes, s'.classes)
  {
    SumUpdate(s.classes, cls, s.classes[cls] + 1);
  }

  /** The accounts depend on nothing that remembering a result changes. */
  lemma RememberedIsAccounted<R(!new)>(s: State<R>, hits: nat, executed: nat, cache: map<Key, (Value, nat)>)
    requires Accounted(s) && forall key :: key in cache ==> cache[key].1 == 1
    ensures Accounted(s.(hits := hits, executed := executed, cache := cache))
  {
  }

  ghost predicate Advances<R(!new)>(s: State<R>, s': State<R>) {
    && Accounted(s') && s'.limit == s.limit
    && (s'.exhausted <==> AtLimit(s))
    && s'.steps == (if AtLimit(s) then s.steps else s.steps + 1)
    && s'.hits >= s.hits && s'.executed >= s.executed && Grown(s.classes, s'.classes)
  }

  lemma PlainAdvances<R(!new)>(sem: Semantics<R>, s: State<R>, i: Instr)
    requires Accounted(s) && !s.core.halted
    ensures Advances(s, PlainStep(sem, s, i))
  {
    if !AtLimit(s) {
      CountedIsAccounted(s, Classify(sem, s.core, i), Executed(sem, s.core, i));
    }
  }

  lemma HitAdvances<R(!new)>(sem: Semantics<R>, s: State<R>, i: Instr, v: Value)
    requires Accounted(s) && !s.core.halted && !AtLimit(s) && IsPure(i)
    ensures Advances(s, Hit(sem, s, i, (v, 1)))
  {
    var done := Computed(v, Safepoint(sem, s.core.rest, i), false);
    CountedIsAccounted(s, Classify(sem, s.core, i), Bound(s.core, i, s.core.rest, done));
    RememberedIsAccounted(Counted(s, Classify(sem, s.core, i), 1).(core := Bound(s.core, i, s.core.rest, done)), s.hits + 1, s.executed, s.cache);
  }

  lemma MissAdvances<R(!new)>(sem: Semantics<R>, s: State<R>, i: Instr)
    requires Accounted(s) && !s.core.halted && !AtLimit(s) && IsPure(i)
    ensures Advances(s, Missed(sem, s, i))
  {
    PlainAdvances(sem, s, i);
    var s1 := PlainStep(sem, s, i);
    RememberedIsAccounted(s1, s1.hits, s.executed + 1, Remembered(s, i, s1.core));
  }

  /** A step counts one, in one class, unless the budget is spent; then it only ends the call. */
  lemma StepIsAccounted<R(!new)>(sem: Semantics<R>, s: State<R>, i: Instr, forgotten: set<Key>)
    requires Accounted(s) && !s.core.halted
    ensures Advances(s, CachedStep(sem, s, i, forgotten))
  {
    var s0 := s.(cache := s.cache - forgotten);
    if !AtLimit(s) {
      RememberedIsAccounted(s, s.hits, s.executed, s.cache - forgotten);
      var key := (i, Operands(s.core, i));
      if !Cacheable(s.core, i) {
        PlainAdvances(sem, s0, i);
      } else if key in s0.cache {
        assert s0.cache[key] == (s0.cache[key].0, 1);
        HitAdvances(sem, s0, i, s0.cache[key].0);
      } else {
        MissAdvances(sem, s0, i);
      }
    }
  }

  /** One round of a call's loop. */
  function Round<R>(sem: Semantics<R>, caching: bool, s: State<R>): State<R>
    requires |s.classes| == NUM_CLASSES && Next(sem, s.core).Some?
  {
    var (c, i) := Next(sem, s.core).value;
    if caching then CachedStep(sem, s.(core := c), i, {}) else PlainStep(sem, s.(core := c), i)
  }

  lemma RoundIsAccounted<R(!new)>(sem: Semantics<R>, caching: bool, s: State<R>)
    requires Accounted(s) && Next(sem, s.core).Some? && (!caching ==> s.cache == map[])
    ensures var s' := Round(sem, caching, s); Advances(s, s') && (!caching ==> s'.cache == map[])
  {
    var (c, i) := Next(sem, s.core).value;
    if caching {
      StepIsAccounted(sem, s.(core := c), i, {});
    } else {
      PlainAdvances(sem, s.(core := c), i);
    }
  }

  /** The call ends within n rounds. */
  ghost predicate EndsWithin<R(!new)>(sem: Semantics<R>, caching: bool, s: State<R>, n: nat)
    requires |s.classes| == NUM_CLASSES
    decreases n
  {
    Next(sem, s.core).None? || (n > 0 && EndsWithin(sem, caching, Round(sem, caching, s), n - 1))
  }

  lemma EndsOneLater<R(!new)>(sem: Semantics<R>, caching: bool, s: State<R>, n: nat)
    requires |s.classes| == NUM_CLASSES && Next(sem, s.core).Some? && n > 0
    requires |Round(sem, caching, s).classes| == NUM_CLASSES && EndsWithin(sem, caching, Round(sem, caching, s), n - 1)
    ensures EndsWithin(sem, caching, s, n)
  {
  }

  /** With a budget it always does. */
  lemma {:induction false} BudgetEnds<R(!new)>(sem: Semantics<R>, caching: bool, s: State<R>, n: nat)
    requires Accounted(s) && s.limit > 0 && (!caching ==> s.cache == map[]) && n == s.limit - s.steps + 1
    ensures EndsWithin(sem, caching, s, n)
    decreases n
  {
    if Next(sem, s.core).Some? {
      var s1 := Round(sem, caching, s);
      RoundIsAccounted(sem, caching, s);
      if !AtLimit(s) {
        BudgetEnds(sem, caching, s1, n - 1);
      }
      EndsOneLater(sem, caching, s, n);
    }
  }

  /** How many of the first n instructions of a run were of class cls; the one that meets the limit is not
      executed. */
  ghost function OfClass<R(!new)>(sem: Semantics<R>, states: seq<State<R>>, n: nat, cls: nat): nat
    requires n < |states|
  {
    if n == 0 then 0
    else
      var s := states[n - 1];
      OfClass(sem, states, n - 1, cls) +
        (if !AtLimit(s) && Next(sem, s.core).Some? && Classify(sem, Next(sem, s.core).value.0, Next(sem, s.core).value.1) == cls then 1 else 0)
  }

  lemma StepCountsClass<R(!new)>(sem: Semantics<R>, s: State<R>, i: Instr, cached: bool, forgotten: set<Key>, cls: nat)
    requires Accounted(s) && cls < NUM_CLASSES
    ensures var s' := if cached then CachedStep(sem, s, i, forgotten) else PlainStep(sem, s, i);
      |s'.classes| == NUM_CLASSES && s'.classes[cls] == s.classes[cls] + if !AtLimit(s) && Classify(sem, s.core, i) == cls then 1 else 0
  {
  }

  /** In every run, cached or not, each class counts exactly the instructions of that class. */
  lemma {:induction false} ClassesCount<R(!new)>(
    sem: Semantics<R>, states: seq<State<R>>, cached: bool, forgotten: seq<set<Key>>, n: nat, cls: nat)
    requires IsRun(sem, states, cached, forgotten) && n < |states| && cls < NUM_CLASSES && Accounted(states[0])
    ensures Accounted(states[n]) && states[n].classes[cls] == states[0].classes[cls] + OfClass(sem, states, n, cls)
  {
    if n > 0 {
      var m := n - 1;
      ClassesCount(sem, states, cached, forgotten, m, cls);
      assert RunStep(sem, states[m], states[m + 1], cached, forgotten[m]);
      var (c, i) := Next(sem, states[m].core).value;
      var s := states[m].(core := c);
      StepCountsClass(sem, s, i, cached, forgotten[m], cls);
      if cached {
        StepIsAccounted(sem, s, i, forgotten[m]);
      } else {
        PlainAdvances(sem, s, i);
      }
    }
  }

  // ------------------------------------------------------------------
  // Whole calls

  datatype CallOutcome = CallOutcome(panicked: bool, exhausted: bool, steps: nat, classes: seq<nat>, hits: nat, executed: nat)

  /** A session's state when a call starts. */
  function Started<R>(s: State<R>, entry: Core<R>, limit: nat): State<R> {
    s.(core := entry, exhausted := false, limit := limit)
  }

  /** The state after at most n rounds. */
  ghost function Finish<R(!new)>(sem: Semantics<R>, caching: bool, s: State<R>, n: nat): State<R>
    requires |s.classes| == NUM_CLASSES
    decreases n
  {
    if Next(sem, s.core).None? || n == 0 then s else Finish(sem, caching, Round(sem, caching, s), n - 1)
  }

  /** What any number of rounds keeps. */
  ghost predicate Settled<R(!new)>(s: State<R>, t: State<R>) {
    && Accounted(t) && t.steps >= s.steps && t.hits >= s.hits && t.executed >= s.executed && Grown(s.classes, t.classes)
  }

  lemma SettledStep<R(!new)>(s: State<R>, s1: State<R>, t: State<R>)
    requires Advances(s, s1) && Settled(s1, t)
    ensures Settled(s, t)
  {
    GrownStep(s.classes, s1.classes, t.classes);
  }

  lemma FinishUnfolds<R(!new)>(sem: Semantics<R>, caching: bool, s: State<R>, n: nat)
    requires |s.classes| == NUM_CLASSES && Next(sem, s.core).Some? && n > 0
    requires |Round(sem, caching, s).classes| == NUM_CLASSES
    ensures Finish(sem, caching, s, n) == Finish(sem, caching, Round(sem, caching, s), n - 1)
  {
  }

  lemma {:induction false} FinishSettles<R(!new)>(sem: Semantics<R>, caching: bool, s: State<R>, n: nat)
    requires Accounted(s) && (!caching ==> s.cache == map[])
    ensures var t := Finish(sem, caching, s, n); Settled(s, t) && t.limit == s.limit && (!caching ==> t.cache == map[])
    decreases n
  {
    if Next(sem, s.core).Some? && n > 0 {
      var s1 := Round(sem, caching, s);
      RoundIsAccounted(sem, caching, s);
      FinishSettles(sem, caching, s1, n - 1);
      SettledStep(s, s1, Finish(sem, caching, s1, n - 1));
      FinishUnfolds(sem, caching, s, n);
    }
  }

  /** states is a whole run of a call, from s until nothing is left to run, with a cache that forgets
      nothing; then the call is left in t. */
  ghost predicate WholeRun<R(!new)>(
    sem: Semantics<R>, caching: bool, s: State<R>, t: State<R>, states: seq<State<R>>, forgotten: seq<set<Key>>)
  {
    && IsRun(sem, states, caching, forgotten) && states[0] == s && (forall k :: 0 <= k < |forgotten| ==> forgotten[k] == {})
    && Next(sem, states[|states| - 1].core).None? && t == Ended(sem, states[|states| - 1])
  }

  lemma PrependRound<R(!new)>(
    sem: Semantics<R>, caching: bool, s: State<R>, t: State<R>, states: seq<State<R>>, forgotten: seq<set<Key>>)
    requires |s.classes| == NUM_CLASSES && Next(sem, s.core).Some? && WholeRun(sem, caching, Round(sem, caching, s), t, states, forgotten)
    ensures WholeRun(sem, caching, s, t, [s] + states, [{}] + forgotten)
  {
    var states', forgotten' := [s] + states, [{}] + forgotten;
    assert states'[|states'| - 1] == states[|states| - 1];
    forall n {:trigger forgotten'[n]} | 0 <= n < |forgotten'|
      ensures RunStep(sem, states'[n], states'[n + 1], caching, forgotten'[n])
    {
      if n > 0 {
        assert forgotten'[n] == forgotten[n - 1] && states'[n] == states[n - 1] && states'[n + 1] == states[n - 1 + 1];
      }
    }
  }

  /** A call that ends has a whole run. */
  lemma {:induction false} FinishIsRun<R(!new)>(sem: Semantics<R>, caching: bool, s: State<R>, n: nat)
      returns (states: seq<State<R>>, forgotten: seq<set<Key>>)
    requires Accounted(s) && (!caching ==> s.cache == map[]) && EndsWithin(sem, caching, s, n)
    ensures WholeRun(sem, caching, s, Ended(sem, Finish(sem, caching, s, n)), states, forgotten)
    decreases n
  {
    if Next(sem, s.core).None? {
      states, forgotten := [s], [];
    } else {
      RoundIsAccounted(sem, caching, s);
      var states0, forgotten0 := FinishIsRun(sem, caching, Round(sem, caching, s), n - 1);
      FinishUnfolds(sem, caching, s, n);
      PrependRound(sem, caching, s, Ended(sem, Finish(sem, caching, s, n)), states0, forgotten0);
      states, forgotten := [s] + states0, [{}] + forgotten0;
    }
  }

  function OutcomeOfCall<R>(s: State<R>, t: State<R>): CallOutcome
    requires s.steps <= t.steps && s.hits <= t.hits && s.executed <= t.executed && Grown(s.classes, t.classes)
  {
    CallOutcome((t.core.halted || t.core.panicking) && !t.exhausted, t.exhausted, t.steps - s.steps,
                Minus(t.classes, s.classes), t.hits - s.hits, t.executed - s.executed)
  }

  function LimitOf(steps: nat, budget: nat): nat {
    if budget == 0 then 0 else steps + budget
  }

  function Ended<R>(sem: Semantics<R>, s: State<R>): State<R> {
    s.(core := End(sem, s.core))
  }

  lemma CallBound<R(!new)>(
    sem: Semantics<R>, caching: bool, s: State<R>, entry: Core<R>, budget: nat, rounds: nat) returns (bound: nat)
    requires Accounted(s) && (!caching ==> s.cache == map[])
    requires budget == 0 ==> EndsWithin(sem, caching, Started(s, entry, 0), rounds)
    ensures EndsWithin(sem, caching, Started(s, entry, LimitOf(s.steps, budget)), bound)
  {
    bound := rounds;
    if budget > 0 {
      bound := budget + 1;
      BudgetEnds(sem, caching, Started(s, entry, LimitOf(s.steps, budget)), bound);
    }
  }

  /** What a call from s that ends in t within n rounds reports: what it added to every count, never
      more steps than its budget, and no panic when the budget is spent. */
  ghost predicate Reports<R(!new)>(s: State<R>, t: State<R>, budget: nat, out: CallOutcome) {
    && Settled(s, t) && t.limit == LimitOf(s.steps, budget) && out == OutcomeOfCall(s, t)
    && t.steps == s.steps + out.steps && Sum(out.classes) == out.steps && (budget > 0 ==> out.steps <= budget)
    && (out.exhausted ==> budget > 0 && out.steps == budget && !out.panicked)
  }

  lemma CallAccounts<R(!new)>(sem: Semantics<R>, caching: bool, s: State<R>, entry: Core<R>, budget: nat, n: nat)
    requires Accounted(s) && (!caching ==> s.cache == map[])
    ensures var s0 := Started(s, entry, LimitOf(s.steps, budget));
      var t := Ended(sem, Finish(sem, caching, s0, n));
      && Accounted(s0) && Accounted(t) && (!caching ==> t.cache == map[])
      && Settled(s, t) && Reports(s, t, budget, OutcomeOfCall(s, t))
  {
    var s0 := Started(s, entry, LimitOf(s.steps, budget));
    FinishSettles(sem, caching, s0, n);
    SumMinus(Finish(sem, caching, s0, n).classes, s.classes);
  }

  /** The uncached call comes to no conversion that masquerades, in its first n rounds. */
  ghost predicate UnmaskedFor<R(!new)>(sem: Semantics<R>, t: State<R>, n: nat)
    requires |t.classes| == NUM_CLASSES
    decreases n
  {
    Next(sem, t.core).None? || n == 0 ||
    (!MasqueradesNext(sem, t.core) && UnmaskedFor(sem, Round(sem, false, t), n - 1))
  }

  /** A whole call ends with the cache exactly when it ends without, and then as it does without. */
  lemma {:induction false} CallsAgree<R(!new)>(sem: Semantics<R>, s: State<R>, t: State<R>, n: nat)
    requires SameRun(s, t) && |s.classes| == NUM_CLASSES && Faithful(sem, s.cache) && UnmaskedFor(sem, t, n)
    ensures EndsWithin(sem, true, s, n) <==> EndsWithin(sem, false, t, n)
    ensures var s', t' := Finish(sem, true, s, n), Finish(sem, false, t, n); SameRun(s', t') && Faithful(sem, s'.cache)
    decreases n
  {
    if Next(sem, s.core).Some? && n > 0 {
      var (c, i) := Next(sem, s.core).value;
      CachedStepAgrees(sem, s.(core := c), t.(core := c), i, {});
      CallsAgree(sem, Round(sem, true, s), Round(sem, false, t), n - 1);
    }
  }

  // ------------------------------------------------------------------
  // The session

  class Session<R(==, !new)> {
    const sem: Semantics<R>
    const caching: bool
    var core: Core<R>
    var steps: nat
    var classes: seq<nat>
    var limit: nat
    var exhausted: bool
    var hits: nat
    var executed: nat
    var cache: map<Key, (Value, nat)>

    function View(): State<R>
      reads this
    {
      State(core, steps, classes, limit, exhausted, hits, executed, cache)
    }

    ghost predicate Valid()
      reads this
    {
      Accounted(View()) && (!caching ==> cache == map[])
    }

    constructor (sem: Semantics<R>, core: Core<R>, caching: bool)
      ensures this.sem == sem && this.caching == caching && this.core == core && steps == 0 && cache == map[]
      ensures Valid()
    {
      this.sem, this.caching, this.core := sem, caching, core;
      steps, classes, limit, exhausted := 0, seq(NUM_CLASSES, _ => 0), 0, false;
      hits, executed, cache := 0, 0, map[];
      SumZeros(NUM_CLASSES);
    }

    /** pureOperands. */
    method ResolveOperands(i: Instr) returns (vs: seq<Value>)
      ensures vs == Operands(core, i)
    {
      vs := [];
      for k := 0 to |Inputs(i)|
        invariant vs == Operands(core, i)[..k]
      {
        vs := vs + [ValueOf(core.locals, Inputs(i)[k])];
      }
    }

    /** allScalarValues. */
    method AllScalarValues(vs: seq<Value>) returns (b: bool)
      ensures b == AllScalar(vs)
    {
      for k := 0 to |vs|
        invariant forall j :: 0 <= j < k ==> IsScalarValue(vs[j])
      {
        if !IsScalarValue(vs[k]) {
          return false;
        }
      }
      return true;
    }

    /** A cache hit: the result is installed, and a call's safepoint is still checked. */
    method Install(i: Instr, cls: nat, res: Value, n: nat)
      requires IsPure(i) && |classes| == NUM_CLASSES && cls == Classify(sem, core, i)
      modifies this`core, this`steps, this`classes, this`hits
      ensures View() == Hit(sem, old(View()), i, (res, n))
    {
      var found: seq<Report> := [];
      if i.Call? {
        found := sem.safepoint(core.rest);
      }
      steps := steps + n;
      classes := classes[cls := classes[cls] + n];
      hits := hits + 1;
      core := Bound(core, i, core.rest, Computed(res, found, false));
    }

    /** The instruction itself. */
    method Execute(i: Instr)
      requires |classes| == NUM_CLASSES && !AtLimit(View())
      modifies this`core, this`steps, this`classes
      ensures View() == PlainStep(sem, old(View()), i)
    {
      var cls := Classify(sem, core, i);
      steps := steps + 1;
      classes := classes[cls := classes[cls] + 1];
      core := Executed(sem, core, i);
    }

    /** A cacheable instruction that missed. */
    method ExecuteAndStore(i: Instr, operands: seq<Value>)
      requires |classes| == NUM_CLASSES && !AtLimit(View()) && IsPure(i) && operands == Operands(core, i)
      modifies this`core, this`steps, this`classes, this`executed, this`cache
      ensures View() == Missed(sem, old(View()), i)
    {
      var reported := |core.reports|;
      Execute(i);
      executed := executed + 1;
      if |core.reports| == reported && !core.halted && !core.panicking && i.dst in core.locals && IsScalarValue(core.locals[i.dst]) {
        cache := cache[(i, operands) := (core.locals[i.dst], 1)];
      }
    }

    /** execInstructionSession, once control has reached i. */
    method ExecInstruction(i: Instr)
      requires Valid()
      modifies this`core, this`steps, this`classes, this`exhausted, this`hits, this`executed, this`cache
      ensures View() == if caching then CachedStep(sem, old(View()), i, {}) else PlainStep(sem, old(View()), i)
    {
      if limit > 0 && steps >= limit {
        exhausted, core := true, core.(halted := true);
        return;
      }
      assert cache - {} == cache;
      var cacheable, operands := false, [];
      if caching && IsPure(i) {
        operands := ResolveOperands(i);
        cacheable := AllScalarValues(operands);
      }
      if !cacheable {
        Execute(i);
      } else if (i, operands) in cache {
        Install(i, Classify(sem, core, i), cache[(i, operands)].0, cache[(i, operands)].1);
      } else {
        ExecuteAndStore(i, operands);
      }
    }

    /** One round of the loop. */
    method RunRound()
      requires Valid() && Next(sem, core).Some?
      modifies this`core, this`steps, this`classes, this`exhausted, this`hits, this`executed, this`cache
      ensures View() == Round(sem, caching, old(View()))
    {
      var (c, i) := Next(sem, core).value;
      core := c;
      ExecInstruction(i);
    }

    /** The loop of a call that ends within some number of rounds. */
    method RunToEnd(ghost rounds: nat)
      requires Valid() && EndsWithin(sem, caching, View(), rounds)
      modifies this`core, this`steps, this`classes, this`exhausted, this`hits, this`executed, this`cache
      ensures View() == Finish(sem, caching, old(View()), rounds)
    {
      ghost var left := rounds;
      while Next(sem, core).Some?
        invariant Valid() && EndsWithin(sem, caching, View(), left)
        invariant Finish(sem, caching, View(), left) == Finish(sem, caching, old(View()), rounds)
        decreases left
      {
        RoundIsAccounted(sem, caching, View());
        RunRound();
        left := left - 1;
      }
    }

    /** The call's frame is in place; run it. */
    method RunFrom(entry: Core<R>, stop: nat, ghost rounds: nat)
      requires Accounted(Started(View(), entry, stop)) && (!caching ==> cache == map[])
      requires EndsWithin(sem, caching, Started(View(), entry, stop), rounds)
      modifies this
      ensures View() == Ended(sem, Finish(sem, caching, Started(old(View()), entry, stop), rounds))
    {
      core, exhausted, limit := entry, false, stop;
      RunToEnd(rounds);
      core := End(sem, core);
    }

    /** One call under a budget of its own, 0 for none; entry is the state with the call's frame in
        place. Without a budget the program has to end, within some number of rounds. */
    method Call(entry: Core<R>, budget: nat, ghost rounds: nat) returns (out: CallOutcome, ghost bound: nat)
      requires Valid()
      requires budget == 0 ==> EndsWithin(sem, caching, Started(View(), entry, 0), rounds)
      modifies this
      ensures Valid() && EndsWithin(sem, caching, Started(old(View()), entry, LimitOf(old(steps), budget)), bound)
      ensures View() == Ended(sem, Finish(sem, caching, Started(old(View()), entry, LimitOf(old(steps), budget)), bound))
      ensures Reports(old(View()), View(), budget, out)
    {
      var steps0, classes0, hits0, executed0 := steps, classes, hits, executed;
      bound := CallBound(sem, caching, View(), entry, budget, rounds);
      CallAccounts(sem, caching, View(), entry, budget, bound);
      RunFrom(entry, LimitOf(steps, budget), bound);
      out := CallOutcome((core.halted || core.panicking) && !exhausted, exhausted, steps - steps0,
                         Minus(classes, classes0), hits - hits0, executed - executed0);
    }
  }

  ghost predicate Grown(a: seq<nat>, b: seq<nat>) {
    |a| == |b| && forall k :: 0 <= k < |a| ==> a[k] <= b[k]
  }

  lemma GrownStep(a: seq<nat>, b: seq<nat>, c: seq<nat>)
    requires Grown(a, b) && Grown(b, c)
    ensures Grown(a, c)
  {
  }

  function Minus(b: seq<nat>, a: seq<nat>): seq<nat>
    requires Grown(a, b)
  {
    seq(|b|, k requires 0 <= k < |b| => b[k] - a[k])
  }

  lemma {:induction false} SumMinus(b: seq<nat>, a: seq<nat>)
    requires Grown(a, b)
    ensures Sum(Minus(b, a)) == Sum(b) - Sum(a)
  {
    if |b| > 0 {
      var n := |b| - 1;
      SumMinus(b[..n], a[..n]);
      assert Minus(b, a)[..n] == Minus(b[..n], a[..n]);
    }
  }
}
