/** The dormant detector: asleep until a second goroutine is spawned, it reports exactly what a
    detector awake from the start reports. */
module Dormancy {
  import opened Clock
  import opened ClockMachine
  import opened HappensBefore
  import opened Detector
  import opened Races

  /** The entry goroutine of the call that step n belongs to. */
  function EntryOf(r: Run, n: nat): Gid
    requires n <= |r.ops|
  {
    if n == 0 then 0 else if r.ops[n - 1].Start? then r.ops[n - 1].g else EntryOf(r, n - 1)
  }

  /** spawnGoroutine has woken the detector before step n, since the call began. */
  predicate Woken(r: Run, n: nat)
    requires n <= |r.ops|
  {
    n > 0 && !r.ops[n - 1].Start? && (r.ops[n - 1].Spawn? || Woken(r, n - 1))
  }

  /** A detector that forgets its history when a call begins. */
  ghost predicate WatchesCalls(r: Run, w: Watch)
    requires Valid(r)
  {
    && |w.hist| == |r.ops| + 1 && |w.reports| == |r.ops|
    && w.hist[0] == NoHistory
    && forall n {:trigger w.reports[n]} :: 0 <= n < |r.ops| ==>
         (w.hist[n + 1], w.reports[n]) == if r.ops[n].Start? then (NoHistory, None) else Observe(r, n, w.hist[n])
  }

  /** One that besides sleeps until the call's first go statement. */
  ghost predicate LazilyWatches(r: Run, z: Watch)
    requires Valid(r)
  {
    && |z.hist| == |r.ops| + 1 && |z.reports| == |r.ops|
    && z.hist[0] == NoHistory
    && forall n {:trigger z.reports[n]} :: 0 <= n < |r.ops| ==>
         (z.hist[n + 1], z.reports[n]) ==
           if r.ops[n].Start? then (NoHistory, None) else if Woken(r, n) then Observe(r, n, z.hist[n]) else (z.hist[n], None)
  }

  /** One call after another: the goroutines of a call are forgotten when the next begins. */
  ghost predicate OneAtATime(r: Run) {
    forall n :: 0 <= n < |r.ops| ==> r.ops[n].Start? || r.ops[n].g >= EntryOf(r, n)
  }

  /** One entry goroutine starts the run; every other goroutine is spawned by a go statement. */
  ghost predicate SingleEntry(r: Run) {
    forall n :: 0 <= n < |r.ops| ==> (r.ops[n].Start? <==> n == 0)
  }

  /** An access at e happens before everything the goroutines from lo on have still to do. */
  ghost predicate Ancient(s: Machine, lo: Gid, e: Entry) {
    |e.clock| != 0 && forall h :: h in s.live && h >= lo ==> Leq(e.clock, s.live[h])
  }

  /** The sleeping detector either has the same entry or lacks one that no longer matters. */
  ghost predicate SameOrAncient(s: Machine, lo: Gid, lazy: Option<Entry>, awake: Option<Entry>) {
    lazy == awake || (lazy.None? && Ancient(s, lo, awake.value))
  }

  ghost predicate Agree(s: Machine, lo: Gid, lazy: Byte, awake: Byte) {
    SameOrAncient(s, lo, lazy.w, awake.w) && SameOrAncient(s, lo, lazy.r, awake.r)
  }

  ghost predicate AgreeEverywhere(s: Machine, lo: Gid, z: History, h: History) {
    forall key :: Agree(s, lo, ByteAt(z, key), ByteAt(h, key))
  }

  lemma AgreeingBytesConflictAlike(s: Machine, lo: Gid, lazy: Byte, awake: Byte, acc: Acc, g: Gid)
    requires Agree(s, lo, lazy, awake) && g in s.live && g >= lo
    ensures Conflict(lazy, acc, g, s.live[g]) == Conflict(awake, acc, g, s.live[g])
  {
  }

  lemma AgreeingChecksAgree(s: Machine, lo: Gid, z: History, h: History, acc: Acc, g: Gid)
    requires AgreeEverywhere(s, lo, z, h) && g in s.live && g >= lo
    ensures Check(z, acc, g, s.live[g]).1 == Check(h, acc, g, s.live[g]).1
    ensures AgreeEverywhere(s, lo, Check(z, acc, g, s.live[g]).0, Check(h, acc, g, s.live[g]).0)
  {
    var clock := s.live[g];
    var k := CheckDecidesPerByte(z, acc, g, clock, 0);
    var l := CheckDecidesPerByte(h, acc, g, clock, 0);
    forall j
      ensures ConflictAt(z, acc, g, clock, j) == ConflictAt(h, acc, g, clock, j)
    {
      AgreeingBytesConflictAlike(s, lo, ByteAt(z, ByteOf(acc, j)), ByteAt(h, ByteOf(acc, j)), acc, g);
    }
    if k < acc.size || l < acc.size {
      assert k == l;
    }
    forall key
      ensures Agree(s, lo, ByteAt(Check(z, acc, g, clock).0, key), ByteAt(Check(h, acc, g, clock).0, key))
    {
      assert Agree(s, lo, ByteAt(z, key), ByteAt(h, key));
    }
  }

  lemma AncientStays(s: Machine, lo: Gid, op: Op, e: Entry)
    requires OwnAhead(s) && Enabled(s, op) && !op.Start? && op.g >= lo && Ancient(s, lo, e)
    ensures Ancient(Apply(s, op), lo, e)
  {
    var s' := Apply(s, op);
    ApplyGrows(s, op);
    forall h | h in s'.live && h >= lo
      ensures Leq(e.clock, s'.live[h])
    {
      if h in s.live {
        LeqTransitive(e.clock, s.live[h], s'.live[h]);
      } else {
        JoinIsLeastUpperBound(map[h := 1], s.live[op.g], map[]);
        LeqTransitive(e.clock, s.live[op.g], s'.live[h]);
      }
    }
  }

  lemma AgreementStays(s: Machine, lo: Gid, op: Op, z: History, h: History)
    requires OwnAhead(s) && Enabled(s, op) && !op.Start? && op.g >= lo && AgreeEverywhere(s, lo, z, h)
    ensures AgreeEverywhere(Apply(s, op), lo, z, h)
  {
    forall key
      ensures Agree(Apply(s, op), lo, ByteAt(z, key), ByteAt(h, key))
    {
      assert Agree(s, lo, ByteAt(z, key), ByteAt(h, key));
      forall e: Entry | Ancient(s, lo, e)
        ensures Ancient(Apply(s, op), lo, e)
      {
        AncientStays(s, lo, op, e);
      }
    }
  }

  /** Until the call is woken its entry goroutine is the only one it has. */
  lemma {:induction false} AloneUntilWoken(r: Run, n: nat)
    requires Valid(r) && 0 < n <= |r.ops| && !Woken(r, n)
    ensures forall h :: h in r.states[n].live && h >= EntryOf(r, n) ==> h == EntryOf(r, n)
  {
    var m := n - 1;
    OwnAheadAlways(r, m);
    assert r.states[m + 1] == Apply(r.states[m], r.ops[m]);
    if m > 0 && !r.ops[m].Start? {
      AloneUntilWoken(r, m);
    }
  }

  lemma DormantStepAgrees(r: Run, n: nat, z: History, h: History)
    requires Valid(r) && OneAtATime(r) && 0 < n < |r.ops| && !Woken(r, n)
    requires AgreeEverywhere(r.states[n], EntryOf(r, n), z, h) && z == NoHistory
    ensures Observe(r, n, h).1.None?
    ensures AgreeEverywhere(r.states[n], EntryOf(r, n), z, Observe(r, n, h).0)
  {
    var s, op, lo := r.states[n], r.ops[n], EntryOf(r, n);
    AloneUntilWoken(r, n);
    OwnAheadAlways(r, n);
    if op.Access? {
      assert op.g in s.live[op.g];
      AgreeingChecksAgree(s, lo, z, h, op.acc, op.g);
      var k := CheckDecidesPerByte(h, op.acc, op.g, s.live[op.g], 0);
      var l := CheckDecidesPerByte(z, op.acc, op.g, s.live[op.g], 0);
      assert forall j :: ConflictAt(z, op.acc, op.g, s.live[op.g], j).None?;
      var e := EntryAt(r, n);
      assert Ancient(s, lo, e);
      forall key
        ensures Agree(s, lo, ByteAt(z, key), ByteAt(Observe(r, n, h).0, key))
      {
        assert Agree(s, lo, ByteAt(z, key), ByteAt(h, key));
      }
    }
  }

  lemma AgreementStep(r: Run, w: Watch, z: Watch, m: nat)
    requires Valid(r) && OneAtATime(r) && WatchesCalls(r, w) && LazilyWatches(r, z) && m < |r.ops|
    requires AgreeEverywhere(r.states[m], EntryOf(r, m), z.hist[m], w.hist[m])
    requires !Woken(r, m) ==> z.hist[m] == NoHistory
    ensures z.reports[m] == w.reports[m]
    ensures AgreeEverywhere(r.states[m + 1], EntryOf(r, m + 1), z.hist[m + 1], w.hist[m + 1])
    ensures !Woken(r, m + 1) ==> z.hist[m + 1] == NoHistory
  {
    OwnAheadAlways(r, m);
    var s, op, lo := r.states[m], r.ops[m], EntryOf(r, m);
    assert (w.hist[m + 1], w.reports[m]) == if op.Start? then (NoHistory, None) else Observe(r, m, w.hist[m]);
    assert (z.hist[m + 1], z.reports[m]) ==
      if op.Start? then (NoHistory, None) else if Woken(r, m) then Observe(r, m, z.hist[m]) else (z.hist[m], None);
    if !op.Start? {
      if !Woken(r, m) {
        DormantStepAgrees(r, m, z.hist[m], w.hist[m]);
      } else if op.Access? {
        AgreeingChecksAgree(s, lo, z.hist[m], w.hist[m], op.acc, op.g);
      }
      AgreementStays(s, lo, op, z.hist[m + 1], w.hist[m + 1]);
    }
  }

  lemma {:induction false} DetectorsAgree(r: Run, w: Watch, z: Watch, n: nat)
    requires Valid(r) && OneAtATime(r) && WatchesCalls(r, w) && LazilyWatches(r, z) && n <= |r.ops|
    ensures AgreeEverywhere(r.states[n], EntryOf(r, n), z.hist[n], w.hist[n])
    ensures !Woken(r, n) ==> z.hist[n] == NoHistory
  {
    if n > 0 {
      DetectorsAgree(r, w, z, n - 1);
      AgreementStep(r, w, z, n - 1);
    }
  }

  /** In a session of any number of calls, sleeping until each call's first go statement changes no
      report at any access. */
  lemma DormancyIsInvisible(r: Run, w: Watch, z: Watch)
    requires Valid(r) && OneAtATime(r) && WatchesCalls(r, w) && LazilyWatches(r, z)
    ensures z.reports == w.reports
  {
    forall m | 0 <= m < |r.ops|
      ensures z.reports[m] == w.reports[m]
    {
      DetectorsAgree(r, w, z, m);
      AgreementStep(r, w, z, m);
    }
  }

  lemma {:induction false} EntryIsFirst(r: Run, n: nat)
    requires Valid(r) && SingleEntry(r) && 0 < n <= |r.ops|
    ensures EntryOf(r, n) == r.ops[0].g
    ensures forall h :: h in r.states[n].live ==> h >= r.ops[0].g
  {
    var m := n - 1;
    assert r.states[m + 1] == Apply(r.states[m], r.ops[m]);
    if m > 0 {
      EntryIsFirst(r, m);
      OwnAheadAlways(r, m);
    }
  }

  /** A run with one entry goroutine is a session of one call, and forgetting plays no part in it: a
      sleeping detector reports what the plain one does. */
  lemma DormancyIsInvisibleInOneRun(r: Run, w: Watch, z: Watch)
    requires Valid(r) && SingleEntry(r) && Watches(r, w) && LazilyWatches(r, z)
    ensures z.reports == w.reports
  {
    forall n | 0 <= n < |r.ops| && n != 0 ensures r.ops[n].g >= EntryOf(r, n) {
      EntryIsFirst(r, n);
    }
    forall n {:trigger w.reports[n]} | 0 <= n < |r.ops|
      ensures (w.hist[n + 1], w.reports[n]) == if r.ops[n].Start? then (NoHistory, None) else Observe(r, n, w.hist[n])
    {
      assert (w.hist[n + 1], w.reports[n]) == Observe(r, n, w.hist[n]);
    }
    DormancyIsInvisible(r, w, z);
  }

  /** Everything the detector remembers was done by a goroutine of the present call. */
  ghost predicate OfCall(h: History, lo: Gid) {
    forall key :: (key in h.lastWrite ==> h.lastWrite[key].g >= lo) && (key in h.lastRead ==> h.lastRead[key].g >= lo)
  }

  lemma {:induction false} CheckedIsOfCall(h: History, acc: Acc, g: Gid, clock: VC, i: nat, lo: Gid)
    requires OfCall(h, lo) && g >= lo
    ensures var (h', report) := CheckFrom(h, acc, g, clock, i);
      OfCall(h', lo) && (report.Some? ==> report.value.g1 >= lo && report.value.g2 == g)
    decreases acc.size - i
  {
    if i < acc.size && Conflict(ByteAt(h, ByteOf(acc, i)), acc, g, clock).None? {
      CheckedIsOfCall(Record(h, ByteOf(acc, i), Entry(acc.write, g, acc.site, clock)), acc, g, clock, i + 1, lo);
    }
  }

  lemma {:induction false} HistoryIsOfCall(r: Run, w: Watch, n: nat)
    requires Valid(r) && OneAtATime(r) && WatchesCalls(r, w) && n <= |r.ops|
    ensures OfCall(w.hist[n], EntryOf(r, n))
  {
    if n > 0 {
      var m := n - 1;
      HistoryIsOfCall(r, w, m);
      assert (w.hist[m + 1], w.reports[m]) == if r.ops[m].Start? then (NoHistory, None) else Observe(r, m, w.hist[m]);
      if r.ops[m].Access? {
        CheckedIsOfCall(w.hist[m], r.ops[m].acc, r.ops[m].g, ClockAt(r, m), 0, EntryOf(r, m));
      }
    }
  }

  /** Calls are sequential: although every call's clock starts afresh, no report is of a race with
      another call. */
  lemma NoRaceAcrossCalls(r: Run, w: Watch, n: nat)
    requires Valid(r) && OneAtATime(r) && WatchesCalls(r, w) && n < |r.ops| && w.reports[n].Some?
    ensures var race := w.reports[n].value; race.g1 >= EntryOf(r, n) && race.g2 == r.ops[n].g >= EntryOf(r, n)
  {
    HistoryIsOfCall(r, w, n);
    assert (w.hist[n + 1], w.reports[n]) == if r.ops[n].Start? then (NoHistory, None) else Observe(r, n, w.hist[n]);
    CheckedIsOfCall(w.hist[n], r.ops[n].acc, r.ops[n].g, ClockAt(r, n), 0, EntryOf(r, n));
  }
}
