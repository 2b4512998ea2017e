/** The race detector running beside the goroutine runtime: its reports over whole runs. */
module RuntimeRaces {
  import opened Clock
  import opened ClockMachine
  import opened HappensBefore
  import opened Detector
  import opened Races
  import opened Runtime
  import opened RuntimeInvariant
  import opened RuntimeRuns
  import opened RuntimeHistory

  /** The events of a whole run. */
  function TraceOf(e: Execution): seq<Op>
    requires |e.worlds| > 0
  {
    e.worlds[|e.worlds| - 1].trace
  }

  lemma TracePossible(e: Execution, n: nat)
    requires IsExecution(e) && n < |e.worlds|
    ensures Possible(e.worlds[n].trace) && Possible(TraceOf(e)) && e.worlds[n].trace <= TraceOf(e)
  {
    RunsKeepInv(e, n);
    RunsKeepInv(e, |e.worlds| - 1);
    SettledForever(e, n, |e.worlds| - 1);
  }

  lemma {:induction false} PrefixRunsAgree(r: Run, q: Run, n: nat)
    requires Valid(r) && Valid(q) && r.ops <= q.ops && n < |r.states|
    ensures r.states[n] == q.states[n]
  {
    if n > 0 {
      PrefixRunsAgree(r, q, n - 1);
      assert r.ops[n - 1] == q.ops[n - 1];
    }
  }

  /** An access step is the event at this place of the run, made with the goroutine's clock. */
  lemma AccessClock(e: Execution, m: nat)
    requires IsExecution(e) && m < |e.acts| && e.acts[m].DoAccess?
    ensures Possible(TraceOf(e))
    ensures var i, a := |e.worlds[m].trace|, e.acts[m];
      && i < |TraceOf(e)| && TraceOf(e)[i] == Access(a.g, a.acc) && a.g in e.worlds[m].gs
      && ClockAt(RunOf(TraceOf(e)), i) == e.worlds[m].gs[a.g].clock
  {
    var w, a := e.worlds[m], e.acts[m];
    var i := |w.trace|;
    assert e.worlds[m + 1] == Step(w, a).0;
    TracePossible(e, m);
    TracePossible(e, m + 1);
    assert e.worlds[m + 1].trace[i] == Access(a.g, a.acc);
    PrefixRunsAgree(RunOf(w.trace), RunOf(TraceOf(e)), i);
    RunsKeepInv(e, m);
  }

  /** In every run of the runtime, the clocks with which two accesses are checked are ordered
      exactly when a chain of program order, go statements, rendezvous, buffered sends and receives,
      closes, and sync operations orders the accesses. */
  lemma AccessClocksCharacteriseChains(e: Execution, m: nat, n: nat)
    requires IsExecution(e) && m < n < |e.acts| && e.acts[m].DoAccess? && e.acts[n].DoAccess?
    ensures var i, j := |e.worlds[m].trace|, |e.worlds[n].trace|;
      && i < j < |TraceOf(e)| && e.acts[m].g in e.worlds[m].gs && e.acts[n].g in e.worlds[n].gs
      && (Leq(e.worlds[m].gs[e.acts[m].g].clock, e.worlds[n].gs[e.acts[n].g].clock) <==> HB(TraceOf(e), i, j))
  {
    var i, j := |e.worlds[m].trace|, |e.worlds[n].trace|;
    assert |e.worlds[m + 1].trace| == i + 1 by {
      assert e.worlds[m + 1] == Step(e.worlds[m], e.acts[m]).0;
    }
    SettledForever(e, m + 1, n);
    AccessClock(e, m);
    AccessClock(e, n);
    ClocksCharacteriseHappensBefore(RunOf(TraceOf(e)), i, j);
  }

  // ------------------------------------------------------------------
  // The detector beside the runtime

  /** The detector's history before and after each step, and its report at each step. */
  datatype Detection = Detection(hist: seq<History>, reports: seq<Option<Race>>)

  function DetectStep(w: World, a: Action, h: History): (History, Option<Race>)
    requires Allowed(w, a)
  {
    if a.DoAccess? then Check(h, a.acc, a.g, w.gs[a.g].clock) else (h, None)
  }

  ghost predicate Detects(e: Execution, d: Detection)
    requires IsExecution(e)
  {
    && |d.hist| == |e.worlds| && |d.reports| == |e.acts|
    && d.hist[0] == NoHistory
    && forall n {:trigger d.reports[n]} :: 0 <= n < |e.acts| ==>
         Allowed(e.worlds[n], e.acts[n]) && (d.hist[n + 1], d.reports[n]) == DetectStep(e.worlds[n], e.acts[n], d.hist[n])
  }

  lemma {:induction false} HistoryStands(r: Run, w: Watch, i: nat, j: nat)
    requires Valid(r) && Watches(r, w) && i <= j <= |r.ops|
    requires forall k :: i <= k < j ==> !r.ops[k].Access?
    ensures w.hist[j] == w.hist[i]
  {
    if i < j {
      var k := j - 1;
      HistoryStands(r, w, i, k);
      assert (w.hist[k + 1], w.reports[k]) == Observe(r, k, w.hist[k]);
    }
  }

  lemma StepIsSilent(e: Execution, m: nat)
    requires IsExecution(e) && m < |e.acts| && !e.acts[m].DoAccess?
    ensures Silent(e.worlds[m], e.worlds[m + 1])
  {
    RunsKeepInv(e, m);
    assert e.worlds[m + 1] == Step(e.worlds[m], e.acts[m]).0;
    StepIsLater(e.worlds[m], e.acts[m], e.worlds[m + 1]);
  }

  lemma ReportMirrored(e: Execution, d: Detection, w: Watch, m: nat)
    requires IsExecution(e) && Detects(e, d) && m < |e.acts| && e.acts[m].DoAccess? && Possible(TraceOf(e))
    requires Watches(RunOf(TraceOf(e)), w) && |e.worlds[m].trace| < |w.reports|
    requires w.hist[|e.worlds[m].trace|] == d.hist[m]
    ensures |e.worlds[m].trace| + 1 < |w.hist| && w.hist[|e.worlds[m].trace| + 1] == d.hist[m + 1]
    ensures w.reports[|e.worlds[m].trace|] == d.reports[m]
  {
    var i := |e.worlds[m].trace|;
    AccessClock(e, m);
    assert (w.hist[i + 1], w.reports[i]) == Observe(RunOf(TraceOf(e)), i, w.hist[i]);
    assert (d.hist[m + 1], d.reports[m]) == DetectStep(e.worlds[m], e.acts[m], d.hist[m]);
  }

  /** The detector beside the runtime does what it does over the run's events. */
  lemma {:induction false} HistoryMirrored(e: Execution, d: Detection, w: Watch, n: nat)
    requires IsExecution(e) && Detects(e, d) && n < |e.worlds| && Possible(TraceOf(e))
    requires Watches(RunOf(TraceOf(e)), w)
    ensures |e.worlds[n].trace| < |w.hist| && w.hist[|e.worlds[n].trace|] == d.hist[n]
  {
    TracePossible(e, n);
    if n > 0 {
      var m := n - 1;
      HistoryMirrored(e, d, w, m);
      if e.acts[m].DoAccess? {
        AccessClock(e, m);
        assert e.worlds[m + 1] == Step(e.worlds[m], e.acts[m]).0;
        ReportMirrored(e, d, w, m);
      } else {
        StepIsSilent(e, m);
        assert (d.hist[m + 1], d.reports[m]) == DetectStep(e.worlds[m], e.acts[m], d.hist[m]);
        HistoryStands(RunOf(TraceOf(e)), w, |e.worlds[m].trace|, |e.worlds[n].trace|);
      }
    }
  }

  /** Every access event of a run is made by an access step. */
  lemma {:induction false} AccessHasStep(e: Execution, n: nat, i: nat) returns (m: nat)
    requires IsExecution(e) && n < |e.worlds| && i < |e.worlds[n].trace| && e.worlds[n].trace[i].Access?
    ensures m < n && e.acts[m] == DoAccess(e.worlds[n].trace[i].g, e.worlds[n].trace[i].acc)
    ensures |e.worlds[m].trace| == i
  {
    if n == 0 {
      assert false;
    } else {
      var k := n - 1;
      SettledForever(e, k, n);
      assert e.worlds[k + 1] == Step(e.worlds[k], e.acts[k]).0;
      if i < |e.worlds[k].trace| {
        m := AccessHasStep(e, k, i);
      } else {
        if !e.acts[k].DoAccess? {
          StepIsSilent(e, k);
        }
        m := k;
      }
    }
  }

  /** Steps m and n access byte key from two goroutines, one of them writes, and no chain orders
      the earlier before the later. */
  predicate IsStepRace(e: Execution, m: nat, n: nat, key: Key)
    requires |e.worlds| == |e.acts| + 1 && m < n < |e.acts|
  {
    var i, j := |e.worlds[m].trace|, |e.worlds[n].trace|;
    && e.acts[m].DoAccess? && e.acts[n].DoAccess? && e.acts[m].g != e.acts[n].g
    && Covers(e.acts[m].acc, key) && Covers(e.acts[n].acc, key)
    && (e.acts[m].acc.write || e.acts[n].acc.write)
    && i < j < |TraceOf(e)| && !HB(TraceOf(e), i, j)
  }

  /** A report at step n, over the run's events. */
  lemma ReportHasEvent(e: Execution, d: Detection, n: nat) returns (i: nat)
    requires IsExecution(e) && Detects(e, d) && n < |e.acts| && d.reports[n].Some?
    ensures e.acts[n].DoAccess? && Possible(TraceOf(e)) && i < |e.worlds[n].trace| < |TraceOf(e)|
    ensures var r, j, race := RunOf(TraceOf(e)), |e.worlds[n].trace|, d.reports[n].value;
      && IsRace(r, i, j, race.key) && r.ops[i].g != r.ops[j].g
      && r.ops[j] == Access(e.acts[n].g, e.acts[n].acc)
      && race == Race(race.key, r.ops[i].acc.site, r.ops[i].g, r.ops[j].acc.site, r.ops[j].g)
  {
    assert (d.hist[n + 1], d.reports[n]) == DetectStep(e.worlds[n], e.acts[n], d.hist[n]);
    TracePossible(e, n);
    var tr, j := TraceOf(e), |e.worlds[n].trace|;
    var r := RunOf(tr);
    var w := WatchExists(r, |tr|);
    AccessClock(e, n);
    HistoryMirrored(e, d, w, n);
    ReportMirrored(e, d, w, n);
    ReportsAreRaces(r, w, j);
    var race := d.reports[n].value;
    i :| 0 <= i < j && IsRace(r, i, j, race.key) && r.ops[i].g != r.ops[j].g
        && race == Race(race.key, r.ops[i].acc.site, r.ops[i].g, r.ops[j].acc.site, r.ops[j].g);
  }

  /** Every report in every run is a race between an earlier access step and this one, and names
      both sites and goroutines. */
  lemma RuntimeReportsAreRaces(e: Execution, d: Detection, n: nat)
    requires IsExecution(e) && Detects(e, d) && n < |e.acts| && d.reports[n].Some?
    ensures var race := d.reports[n].value;
      exists m :: 0 <= m < n && IsStepRace(e, m, n, race.key)
        && race == Race(race.key, e.acts[m].acc.site, e.acts[m].g, e.acts[n].acc.site, e.acts[n].g)
  {
    var i := ReportHasEvent(e, d, n);
    TracePossible(e, n);
    assert e.worlds[n].trace[i] == TraceOf(e)[i];
    var m := AccessHasStep(e, n, i);
    assert IsStepRace(e, m, n, d.reports[n].value.key);
  }

  /** The detector finds a conflict on byte key at access step n. */
  predicate ConflictsAt(e: Execution, d: Detection, n: nat, key: Key)
    requires n < |e.acts| && n < |d.hist| && n < |e.worlds| && e.acts[n].DoAccess? && e.acts[n].g in e.worlds[n].gs
  {
    Conflict(ByteAt(d.hist[n], key), e.acts[n].acc, e.acts[n].g, e.worlds[n].gs[e.acts[n].g].clock).Some?
  }

  /** Up to and including the first conflict on a byte, the detector reports exactly the accesses
      that are unordered with an earlier write, or are writes unordered with the last read. */
  lemma FirstRuntimeReportIsExact(e: Execution, d: Detection, n: nat, key: Key)
    requires IsExecution(e) && Detects(e, d) && n < |e.acts|
    requires e.acts[n].DoAccess? && Covers(e.acts[n].acc, key)
    requires forall m :: 0 <= m < n && e.acts[m].DoAccess? && Covers(e.acts[m].acc, key) ==> d.reports[m].None?
    ensures e.acts[n].g in e.worlds[n].gs && Possible(TraceOf(e)) && |e.worlds[n].trace| < |TraceOf(e)|
    ensures var r, j := RunOf(TraceOf(e)), |e.worlds[n].trace|;
      ConflictsAt(e, d, n, key) <==>
      UnorderedWrite(r, j, key) || (e.acts[n].acc.write && UnorderedLastRead(r, j, key))
  {
    TracePossible(e, n);
    var tr, j := TraceOf(e), |e.worlds[n].trace|;
    var r := RunOf(tr);
    var w := WatchExists(r, |tr|);
    AccessClock(e, n);
    HistoryMirrored(e, d, w, n);
    forall i | 0 <= i < j && Touches(r.ops[i], key)
      ensures w.reports[i].None?
    {
      assert e.worlds[n].trace[i] == tr[i];
      var m := AccessHasStep(e, n, i);
      HistoryMirrored(e, d, w, m);
      ReportMirrored(e, d, w, m);
    }
    FirstReportIsExact(r, w, j, key);
  }
}
