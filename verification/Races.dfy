/** What the race detector reports over whole runs, measured against happens-before chains. */
module Races {
  import opened Clock
  import opened ClockMachine
  import opened HappensBefore
  import opened Detector

  predicate Touches(op: Op, key: Key) {
    op.Access? && Covers(op.acc, key)
  }

  predicate WritesTo(op: Op, key: Key) {
    Touches(op, key) && op.acc.write
  }

  function EntryAt(r: Run, n: nat): Entry
    requires Valid(r) && n < |r.ops| && r.ops[n].Access?
  {
    EntryFor(r.ops[n].acc, r.ops[n].g, ClockAt(r, n))
  }

  /** The detector's history before and after each step of a run, and its report at each step. */
  datatype Watch = Watch(hist: seq<History>, reports: seq<Option<Race>>)

  function Observe(r: Run, n: nat, h: History): (History, Option<Race>)
    requires Valid(r) && n < |r.ops|
  {
    if r.ops[n].Access? then Check(h, r.ops[n].acc, r.ops[n].g, ClockAt(r, n)) else (h, None)
  }

  ghost predicate Watches(r: Run, w: Watch)
    requires Valid(r)
  {
    && |w.hist| == |r.ops| + 1 && |w.reports| == |r.ops|
    && w.hist[0] == NoHistory
    && forall n {:trigger w.reports[n]} :: 0 <= n < |r.ops| ==>
         (w.hist[n + 1], w.reports[n]) == Observe(r, n, w.hist[n])
  }

  /** The detector's test on a recorded access decides the existence of a chain. */
  lemma ConcurrentIsUnordered(r: Run, i: nat, n: nat)
    requires Valid(r) && i < n < |r.ops| && r.ops[i].Access?
    ensures Concurrent(EntryAt(r, i), r.ops[n].g, ClockAt(r, n)) <==> !HB(r.ops, i, n)
  {
    ClocksCharacteriseHappensBefore(r, i, n);
    EpochIsOwn(r, i);
    assert r.ops[i].g in ClockAt(r, i);
    if r.ops[i].g == r.ops[n].g {
      assert Edge(r.ops, i, n);
    } else {
      LaterNeverBelow(r, i, n);
    }
  }

  /** What step n does to one byte. */
  lemma ByteStep(r: Run, w: Watch, n: nat, key: Key)
    requires Valid(r) && Watches(r, w) && n < |r.ops|
    ensures var b, b' := ByteAt(w.hist[n], key), ByteAt(w.hist[n + 1], key);
      && (!Touches(r.ops[n], key) ==> b' == b)
      && (Touches(r.ops[n], key) ==> b' == b || b' == Recorded(b, EntryAt(r, n)))
      && (Touches(r.ops[n], key) && w.reports[n].None? ==>
            && b' == Recorded(b, EntryAt(r, n))
            && Conflict(b, r.ops[n].acc, r.ops[n].g, ClockAt(r, n)).None?)
  {
    var op := r.ops[n];
    assert (w.hist[n + 1], w.reports[n]) == Observe(r, n, w.hist[n]);
    if op.Access? {
      var k := CheckDecidesPerByte(w.hist[n], op.acc, op.g, ClockAt(r, n), 0);
      if Touches(op, key) {
        var j := key.off - op.acc.off;
        assert key == ByteOf(op.acc, j);
        if j < k {
          assert ConflictAt(w.hist[n], op.acc, op.g, ClockAt(r, n), j).None?;
        }
      }
    }
  }

  /** A report names a byte of the access and the recorded access it conflicts with. */
  lemma ReportIsConflict(r: Run, w: Watch, n: nat)
    requires Valid(r) && Watches(r, w) && n < |r.ops| && w.reports[n].Some?
    ensures var key := w.reports[n].value.key;
      && Touches(r.ops[n], key)
      && var c := Conflict(ByteAt(w.hist[n], key), r.ops[n].acc, r.ops[n].g, ClockAt(r, n));
      && c.Some? && w.reports[n].value == RaceOf(key, c.value, EntryAt(r, n))
  {
    var op := r.ops[n];
    assert (w.hist[n + 1], w.reports[n]) == Observe(r, n, w.hist[n]);
    var k := CheckDecidesPerByte(w.hist[n], op.acc, op.g, ClockAt(r, n), 0);
  }

  // ------------------------------------------------------------------
  // Soundness: every report is a real race.

  /** e was recorded by the access at step i. */
  predicate RecordedBy(r: Run, i: nat, key: Key, e: Entry)
    requires Valid(r) && i < |r.ops|
  {
    Touches(r.ops[i], key) && e == EntryAt(r, i)
  }

  ghost predicate FromHistory(r: Run, n: nat, key: Key, e: Option<Entry>, write: bool)
    requires Valid(r) && n <= |r.ops|
  {
    e.Some? ==> exists i :: 0 <= i < n && RecordedBy(r, i, key, e.value) && r.ops[i].acc.write == write
  }

  lemma {:induction false} EntriesComeFromAccesses(r: Run, w: Watch, n: nat, key: Key)
    requires Valid(r) && Watches(r, w) && n <= |r.ops|
    ensures FromHistory(r, n, key, ByteAt(w.hist[n], key).w, true)
    ensures FromHistory(r, n, key, ByteAt(w.hist[n], key).r, false)
  {
    if n > 0 {
      EntriesComeFromAccesses(r, w, n - 1, key);
      ByteStep(r, w, n - 1, key);
      assert Touches(r.ops[n - 1], key) ==> RecordedBy(r, n - 1, key, EntryAt(r, n - 1));
    }
  }

  /** Two accesses that race: they share a byte, one writes it, and no chain orders them. */
  predicate IsRace(r: Run, i: nat, j: nat, key: Key)
    requires i < j < |r.ops|
  {
    && Touches(r.ops[i], key) && Touches(r.ops[j], key)
    && (r.ops[i].acc.write || r.ops[j].acc.write)
    && !HB(r.ops, i, j)
  }

  /** Every report is a pair of conflicting accesses to one byte, by two goroutines, that no chain
      orders; it names both sites and goroutines. */
  lemma ReportsAreRaces(r: Run, w: Watch, n: nat)
    requires Valid(r) && Watches(r, w) && n < |r.ops| && w.reports[n].Some?
    ensures var race := w.reports[n].value;
      exists i :: 0 <= i < n && IsRace(r, i, n, race.key) && r.ops[i].g != r.ops[n].g
        && race == Race(race.key, r.ops[i].acc.site, r.ops[i].g, r.ops[n].acc.site, r.ops[n].g)
  {
    var race, op := w.reports[n].value, r.ops[n];
    ReportIsConflict(r, w, n);
    EntriesComeFromAccesses(r, w, n, race.key);
    var b := ByteAt(w.hist[n], race.key);
    var last := Conflict(b, op.acc, op.g, ClockAt(r, n)).value;
    var fromWrite := b.w.Some? && Concurrent(b.w.value, op.g, ClockAt(r, n));
    var i :| 0 <= i < n && RecordedBy(r, i, race.key, last) && r.ops[i].acc.write == fromWrite;
    ConcurrentIsUnordered(r, i, n);
  }

  // ------------------------------------------------------------------
  // Completeness: what silence means.

  /** No access to the byte before step n was reported. */
  ghost predicate Quiet(r: Run, w: Watch, n: nat, key: Key)
    requires n <= |r.ops| == |w.reports|
  {
    forall m :: 0 <= m < n && Touches(r.ops[m], key) ==> w.reports[m].None?
  }

  predicate LastWriteIs(r: Run, n: nat, key: Key, i: nat)
    requires i < n <= |r.ops|
  {
    WritesTo(r.ops[i], key) && forall j :: i < j < n ==> !WritesTo(r.ops[j], key)
  }

  predicate LastTouchIs(r: Run, n: nat, key: Key, i: nat)
    requires i < n <= |r.ops|
  {
    Touches(r.ops[i], key) && forall j :: i < j < n ==> !Touches(r.ops[j], key)
  }

  /** The recorded write is the last write; the recorded read is the last access, if a read. */
  ghost predicate Tracks(r: Run, n: nat, key: Key, b: Byte)
    requires Valid(r) && n <= |r.ops|
  {
    && (b.w.Some? ==> exists i :: 0 <= i < n && LastWriteIs(r, n, key, i) && b.w.value == EntryAt(r, i))
    && (b.w.None? ==> forall i :: 0 <= i < n ==> !WritesTo(r.ops[i], key))
    && (b.r.Some? ==> exists i :: 0 <= i < n && LastTouchIs(r, n, key, i) && !r.ops[i].acc.write
                                  && b.r.value == EntryAt(r, i))
    && (b.r.None? ==> forall i :: 0 <= i < n && LastTouchIs(r, n, key, i) ==> r.ops[i].acc.write)
  }

  lemma TracksStep(r: Run, n: nat, key: Key, b: Byte)
    requires Valid(r) && n < |r.ops| && Tracks(r, n, key, b)
    ensures Tracks(r, n + 1, key, if Touches(r.ops[n], key) then Recorded(b, EntryAt(r, n)) else b)
  {
    if Touches(r.ops[n], key) {
      assert LastTouchIs(r, n + 1, key, n);
      if r.ops[n].acc.write {
        assert LastWriteIs(r, n + 1, key, n);
      } else if b.w.Some? {
        var i :| 0 <= i < n && LastWriteIs(r, n, key, i) && b.w.value == EntryAt(r, i);
        assert LastWriteIs(r, n + 1, key, i);
      }
    } else {
      if b.w.Some? {
        var i :| 0 <= i < n && LastWriteIs(r, n, key, i) && b.w.value == EntryAt(r, i);
        assert LastWriteIs(r, n + 1, key, i);
      }
      if b.r.Some? {
        var i :| 0 <= i < n && LastTouchIs(r, n, key, i) && !r.ops[i].acc.write && b.r.value == EntryAt(r, i);
        assert LastTouchIs(r, n + 1, key, i);
      }
      forall i | 0 <= i < n + 1 && LastTouchIs(r, n + 1, key, i)
        ensures i < n && LastTouchIs(r, n, key, i)
      {
      }
    }
  }

  lemma {:induction false} QuietByteTracks(r: Run, w: Watch, n: nat, key: Key)
    requires Valid(r) && Watches(r, w) && n <= |r.ops| && Quiet(r, w, n, key)
    ensures Tracks(r, n, key, ByteAt(w.hist[n], key))
  {
    if n > 0 {
      var m := n - 1;
      QuietByteTracks(r, w, m, key);
      ByteStep(r, w, m, key);
      var b := ByteAt(w.hist[m], key);
      TracksStep(r, m, key, b);
      assert ByteAt(w.hist[n], key) == if Touches(r.ops[m], key) then Recorded(b, EntryAt(r, m)) else b;
    }
  }

  /** While quiet, the recorded write is the last one, and the test on it decides a chain from it. */
  lemma RecordedWriteDecides(r: Run, w: Watch, n: nat, key: Key) returns (l: nat)
    requires Valid(r) && Watches(r, w) && n < |r.ops| && Quiet(r, w, n, key)
    ensures ByteAt(w.hist[n], key).w.None? ==> forall i :: 0 <= i < n ==> !WritesTo(r.ops[i], key)
    ensures ByteAt(w.hist[n], key).w.Some? ==>
      && l < n && LastWriteIs(r, n, key, l)
      && (Concurrent(ByteAt(w.hist[n], key).w.value, r.ops[n].g, ClockAt(r, n)) <==> !HB(r.ops, l, n))
  {
    QuietByteTracks(r, w, n, key);
    var b := ByteAt(w.hist[n], key);
    l := 0;
    if b.w.Some? {
      l :| 0 <= l < n && LastWriteIs(r, n, key, l) && b.w.value == EntryAt(r, l);
      ConcurrentIsUnordered(r, l, n);
    }
  }

  /** While no access to a byte has been reported, each of its writes happens before every later
      access to it: writes are totally ordered, and reads are ordered after earlier writes. */
  lemma {:induction false} QuietMeansOrderedAfterWrites(r: Run, w: Watch, n: nat, key: Key, i: nat, j: nat)
    requires Valid(r) && Watches(r, w) && n <= |r.ops| && Quiet(r, w, n, key)
    requires i < j < n && WritesTo(r.ops[i], key) && Touches(r.ops[j], key)
    ensures HB(r.ops, i, j)
    decreases j
  {
    var l := RecordedWriteDecides(r, w, j, key);
    ByteStep(r, w, j, key);
    if i < l {
      QuietMeansOrderedAfterWrites(r, w, n, key, i, l);
      HBTransitive(r.ops, i, l, j);
    }
  }

  /** Some earlier write of the byte is unordered with step n. */
  ghost predicate UnorderedWrite(r: Run, n: nat, key: Key)
    requires n < |r.ops|
  {
    exists i :: 0 <= i < n && WritesTo(r.ops[i], key) && !HB(r.ops, i, n)
  }

  /** The access just before step n on this byte is a read unordered with it. */
  ghost predicate UnorderedLastRead(r: Run, n: nat, key: Key)
    requires n < |r.ops|
  {
    exists i :: 0 <= i < n && LastTouchIs(r, n, key, i) && !r.ops[i].acc.write && !HB(r.ops, i, n)
  }

  predicate Reported(r: Run, w: Watch, n: nat, key: Key)
    requires Valid(r) && n < |r.ops| && n < |w.hist| && r.ops[n].Access?
  {
    Conflict(ByteAt(w.hist[n], key), r.ops[n].acc, r.ops[n].g, ClockAt(r, n)).Some?
  }

  lemma LastWriteStandsForAll(r: Run, w: Watch, n: nat, key: Key)
    requires Valid(r) && Watches(r, w) && n < |r.ops| && Quiet(r, w, n, key)
    ensures var b := ByteAt(w.hist[n], key);
            (b.w.Some? && Concurrent(b.w.value, r.ops[n].g, ClockAt(r, n))) <==> UnorderedWrite(r, n, key)
  {
    var l := RecordedWriteDecides(r, w, n, key);
    if ByteAt(w.hist[n], key).w.Some? && HB(r.ops, l, n) {
      forall i | 0 <= i < n && WritesTo(r.ops[i], key)
        ensures HB(r.ops, i, n)
      {
        if i < l {
          QuietMeansOrderedAfterWrites(r, w, n, key, i, l);
          HBTransitive(r.ops, i, l, n);
        }
      }
    }
  }

  lemma RecordedReadIsLastRead(r: Run, w: Watch, n: nat, key: Key)
    requires Valid(r) && Watches(r, w) && n < |r.ops| && Quiet(r, w, n, key)
    ensures var b := ByteAt(w.hist[n], key);
            (b.r.Some? && Concurrent(b.r.value, r.ops[n].g, ClockAt(r, n))) <==> UnorderedLastRead(r, n, key)
  {
    QuietByteTracks(r, w, n, key);
    var b := ByteAt(w.hist[n], key);
    if b.r.Some? {
      var l :| 0 <= l < n && LastTouchIs(r, n, key, l) && !r.ops[l].acc.write && b.r.value == EntryAt(r, l);
      ConcurrentIsUnordered(r, l, n);
      forall i | 0 <= i < n && LastTouchIs(r, n, key, i)
        ensures i == l
      {
      }
      assert UnorderedLastRead(r, n, key) <==> !HB(r.ops, l, n);
    } else {
      assert !UnorderedLastRead(r, n, key);
    }
  }

  /** Exactly what the detector finds at a byte: any unordered earlier write, and for a write also
      the last read if no write came after it. */
  lemma FirstReportIsExact(r: Run, w: Watch, n: nat, key: Key)
    requires Valid(r) && Watches(r, w) && n < |r.ops| && Quiet(r, w, n, key) && Touches(r.ops[n], key)
    ensures Reported(r, w, n, key) <==>
            UnorderedWrite(r, n, key) || (r.ops[n].acc.write && UnorderedLastRead(r, n, key))
  {
    LastWriteStandsForAll(r, w, n, key);
    RecordedReadIsLastRead(r, w, n, key);
  }

  /** Forgetting the last read at a write loses nothing: a later access unordered with that read
      is unordered with the write too. */
  lemma ForgottenReadIsCovered(r: Run, w: Watch, n: nat, key: Key, i: nat, j: nat)
    requires Valid(r) && Watches(r, w) && n < |r.ops| && i < j < n && Quiet(r, w, n, key)
    requires WritesTo(r.ops[j], key) && LastTouchIs(r, j, key, i) && !r.ops[i].acc.write
    requires Touches(r.ops[n], key) && !HB(r.ops, i, n)
    ensures !HB(r.ops, j, n) && Reported(r, w, n, key)
  {
    RecordedReadIsLastRead(r, w, j, key);
    ByteStep(r, w, j, key);
    assert HB(r.ops, i, j);
    if HB(r.ops, j, n) {
      HBTransitive(r.ops, i, j, n);
    }
    FirstReportIsExact(r, w, n, key);
  }

  // ------------------------------------------------------------------
  // Reads: only one is kept, so silence is race freedom exactly under a condition.

  /** No two conflicting accesses to the byte before step n are unordered. */
  ghost predicate RaceFree(r: Run, n: nat, key: Key)
    requires n <= |r.ops|
  {
    forall i, j :: 0 <= i < j < n ==> !IsRace(r, i, j, key)
  }

  /** j is the first write of the byte after the read i. */
  predicate NextWriteIs(r: Run, key: Key, i: nat, j: nat)
    requires i < j < |r.ops|
  {
    && Touches(r.ops[i], key) && !r.ops[i].acc.write
    && WritesTo(r.ops[j], key)
    && forall k :: i < k < j ==> !WritesTo(r.ops[k], key)
  }

  ghost predicate ReadsOrderedBeforeNextWrite(r: Run, n: nat, key: Key)
    requires n <= |r.ops|
  {
    forall i, j :: 0 <= i < j < n && NextWriteIs(r, key, i, j) ==> HB(r.ops, i, j)
  }

  lemma {:induction false} NextWriteExists(r: Run, key: Key, i: nat, k: nat) returns (j: nat)
    requires i < k < |r.ops|
    requires Touches(r.ops[i], key) && !r.ops[i].acc.write && WritesTo(r.ops[k], key)
    ensures i < j <= k && NextWriteIs(r, key, i, j)
    decreases k
  {
    if m :| i < m < k && WritesTo(r.ops[m], key) {
      j := NextWriteExists(r, key, i, m);
    } else {
      j := k;
    }
  }

  /** A quiet byte is free of races exactly when each of its reads, not only the last one, is
      ordered before the next write. */
  lemma QuietIsRaceFreeIff(r: Run, w: Watch, n: nat, key: Key)
    requires Valid(r) && Watches(r, w) && n <= |r.ops| && Quiet(r, w, n, key)
    ensures RaceFree(r, n, key) <==> ReadsOrderedBeforeNextWrite(r, n, key)
  {
    if RaceFree(r, n, key) {
      forall i, j | 0 <= i < j < n && NextWriteIs(r, key, i, j)
        ensures HB(r.ops, i, j)
      {
        assert !IsRace(r, i, j, key);
      }
    } else {
      var i, k :| 0 <= i < k < n && IsRace(r, i, k, key);
      if r.ops[i].acc.write {
        QuietMeansOrderedAfterWrites(r, w, n, key, i, k);
      } else {
        var j := NextWriteExists(r, key, i, k);
        if HB(r.ops, i, j) && j < k {
          QuietMeansOrderedAfterWrites(r, w, n, key, j, k);
          HBTransitive(r.ops, i, j, k);
        }
      }
    }
  }

  lemma {:induction false} WatchExists(r: Run, n: nat) returns (w: Watch)
    requires Valid(r) && n <= |r.ops|
    ensures |w.hist| == n + 1 && |w.reports| == n && w.hist[0] == NoHistory
    ensures forall m {:trigger w.reports[m]} :: 0 <= m < n ==>
              (w.hist[m + 1], w.reports[m]) == Observe(r, m, w.hist[m])
  {
    if n == 0 {
      w := Watch([NoHistory], []);
    } else {
      var v := WatchExists(r, n - 1);
      var (h, report) := Observe(r, n - 1, v.hist[n - 1]);
      w := Watch(v.hist + [h], v.reports + [report]);
      forall m {:trigger w.reports[m]} | 0 <= m < n
        ensures (w.hist[m + 1], w.reports[m]) == Observe(r, m, w.hist[m])
      {
        if m < n - 1 {
          assert w.reports[m] == v.reports[m];
        }
      }
    }
  }

  const Read := Acc(7, 0, 1, false, "read")
  const Write := Acc(7, 0, 1, true, "write")
  const TwoReadersOneWriter :=
    [Start(1), Spawn(1, 2), Spawn(1, 3), Access(2, Read), Access(3, Read), Access(3, Write)]

  lemma TwoReadersRun() returns (r: Run)
    ensures Valid(r) && r.ops == TwoReadersOneWriter
  {
    r := Empty;
    var i := 0;
    while i < 6
      invariant 0 <= i <= 6 && Valid(r) && r.ops == TwoReadersOneWriter[..i]
      invariant Last(r).next <= i + 1
      invariant i >= 1 ==> 1 in Last(r).live
      invariant i >= 2 ==> 2 in Last(r).live
      invariant i >= 3 ==> 3 in Last(r).live
    {
      ExtendIsValid(r, TwoReadersOneWriter[i]);
      r := Extend(r, TwoReadersOneWriter[i]);
      i := i + 1;
    }
  }

  lemma NothingReportedYet(r: Run, w: Watch, n: nat)
    requires Valid(r) && Watches(r, w) && r.ops == TwoReadersOneWriter && n < 6
    requires forall m :: 0 <= m < n ==> w.reports[m].None?
    ensures w.reports[n].None?
  {
    if w.reports[n].Some? {
      var key := w.reports[n].value.key;
      ReportIsConflict(r, w, n);
      FirstReportIsExact(r, w, n, key);
      assert n == 5 && LastTouchIs(r, 5, key, 4) && Edge(r.ops, 4, 5);
    }
  }

  /** Goroutines 2 and 3 both read a byte, then 3 writes it: the write is checked only against 3's
      own read, so its race with 2's read goes unreported. */
  lemma EarlierReadIsMissed() returns (r: Run, w: Watch)
    ensures Valid(r) && Watches(r, w) && |r.ops| == 6
    ensures forall n :: 0 <= n < |r.ops| ==> w.reports[n].None?
    ensures IsRace(r, 3, 5, Key(7, 0))
  {
    r := TwoReadersRun();
    w := WatchExists(r, 6);
    assert !Edge(r.ops, 3, 5) && !Edge(r.ops, 3, 4);
    var n := 0;
    while n < 6
      invariant 0 <= n <= 6 && forall m :: 0 <= m < n ==> w.reports[m].None?
    {
      NothingReportedYet(r, w, n);
      n := n + 1;
    }
  }
}
