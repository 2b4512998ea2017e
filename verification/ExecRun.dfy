/** Running a function once per argument set under one shared budget (pkg/exec/exec.go). Marshalling
    an argument set into a call's frame and reading results back are parameters. */
module ExecRun {
  import opened Detector
  import opened Session
  import opened Ssa

  datatype Outcome = Returned | Panicked | Exhausted | Opaque

  /** Per-set results, in order; O is a set's results, or its slice arguments, as Go values. */
  datatype Result<+O> = Result(
    steps: nat, stepsPerSet: seq<nat>, stepsByClass: seq<nat>, outcomes: seq<Outcome>,
    outputs: seq<Option<O>>, argsAfter: seq<Option<O>>, traces: seq<Trace>, violations: seq<(nat, Report)>, exhausted: bool,
    hits: nat, executed: nat)

  type Trace = seq<(nat, Value)>

  const DEFAULT_MAX_STEPS: nat := 10_000_000

  /** What is promised of a whole run of count argument sets under budget. */
  predicate Accounts<O>(res: Result<O>, budget: nat, count: nat) {
    && |res.stepsPerSet| == |res.outcomes| <= count
    && res.steps == Sum(res.stepsPerSet) == Sum(res.stepsByClass)
    && res.steps <= budget
    && (res.exhausted <==> |res.outcomes| > 0 && res.outcomes[|res.outcomes| - 1] == Exhausted)
    && (forall k :: 0 <= k < |res.outcomes| - 1 ==> res.outcomes[k] != Exhausted)
    && (!res.exhausted ==> |res.outcomes| == count)
    && (res.exhausted ==> res.steps == budget)
  }

  /** One entry per set run everywhere, and values exactly where a set returned. */
  predicate Aligned<O>(res: Result<O>, tracing: bool) {
    && |res.outputs| == |res.argsAfter| == |res.outcomes| && |res.traces| == (if tracing then |res.outcomes| else 0)
    && forall k :: 0 <= k < |res.outcomes| ==>
         (res.outputs[k].Some? <==> res.outcomes[k] == Returned) && (res.argsAfter[k].Some? <==> res.outcomes[k] == Returned)
  }

  lemma SumAppend(s: seq<nat>, v: nat)
    ensures Sum(s + [v]) == Sum(s) + v
  {
    assert (s + [v])[..|s|] == s;
  }

  function Plus(a: seq<nat>, b: seq<nat>): seq<nat>
    requires |a| == |b|
  {
    seq(|a|, k requires 0 <= k < |a| => a[k] + b[k])
  }

  lemma {:induction false} SumPlus(a: seq<nat>, b: seq<nat>)
    requires |a| == |b|
    ensures Sum(Plus(a, b)) == Sum(a) + Sum(b)
  {
    if |a| > 0 {
      var n := |a| - 1;
      SumPlus(a[..n], b[..n]);
      assert Plus(a, b)[..n] == Plus(a[..n], b[..n]);
    }
  }

  /** What a call that began with the reports before and ended with after detected. */
  function Found(before: seq<Report>, after: seq<Report>): seq<Report> {
    if |after| > |before| then after[|before|..] else []
  }

  function Tagged(n: nat, found: seq<Report>): seq<(nat, Report)> {
    seq(|found|, k requires 0 <= k < |found| => (n, found[k]))
  }

  /** How a call is reported, and what is read back of it: nothing unless it returned and both its
      results and its slice arguments could be read. */
  function ReadBack<O>(out: CallOutcome, results: Option<O>, args: Option<O>): (Outcome, Option<O>, Option<O>) {
    if out.exhausted then (Exhausted, None, None)
    else if out.panicked then (Panicked, None, None)
    else if results.Some? && args.Some? then (Returned, results, args)
    else (Opaque, None, None)
  }

  function Recorded<O>(res: Result<O>, out: CallOutcome, read: (Outcome, Option<O>, Option<O>), traces: seq<Trace>, found: seq<Report>): Result<O>
    requires |res.stepsByClass| == |out.classes|
  {
    Result(res.steps + out.steps, res.stepsPerSet + [out.steps], Plus(res.stepsByClass, out.classes),
           res.outcomes + [read.0], res.outputs + [read.1], res.argsAfter + [read.2], res.traces + traces,
           res.violations + Tagged(|res.outcomes|, found), read.0 == Exhausted, res.hits + out.hits, res.executed + out.executed)
  }

  /** The sets so far have all ended before the budget did. */
  predicate Going<O>(res: Result<O>, budget: nat, n: nat) {
    && Accounts(res, budget, n) && |res.outcomes| == n && !res.exhausted
    && (forall k :: 0 <= k < |res.outcomes| ==> res.outcomes[k] != Exhausted)
  }

  lemma RecordedAccounts<O>(
    res: Result<O>, out: CallOutcome, read: (Outcome, Option<O>, Option<O>), traces: seq<Trace>, found: seq<Report>,
    budget: nat, n: nat)
    requires Going(res, budget, n) && |res.stepsByClass| == |out.classes| && Sum(out.classes) == out.steps
    requires res.steps + out.steps <= budget && (read.0 == Exhausted ==> res.steps + out.steps == budget)
    ensures Accounts(Recorded(res, out, read, traces, found), budget, n + 1)
    ensures read.0 != Exhausted ==> Going(Recorded(res, out, read, traces, found), budget, n + 1)
  {
    SumAppend(res.stepsPerSet, out.steps);
    SumPlus(res.stepsByClass, out.classes);
  }

  lemma RecordedAligned<O>(
    res: Result<O>, out: CallOutcome, results: Option<O>, args: Option<O>, traces: seq<Trace>, found: seq<Report>, tracing: bool)
    requires Aligned(res, tracing) && |res.stepsByClass| == |out.classes| && |traces| == if tracing then 1 else 0
    ensures Aligned(Recorded(res, out, ReadBack(out, results, args), traces, found), tracing)
  {
  }

  /** The entry of a set for which nothing remains. */
  function Spent<O>(res: Result<O>, traces: seq<Trace>): Result<O> {
    res.(outcomes := res.outcomes + [Exhausted], stepsPerSet := res.stepsPerSet + [0], outputs := res.outputs + [None],
         argsAfter := res.argsAfter + [None], traces := res.traces + traces, exhausted := true)
  }

  lemma SpentAccounts<O>(res: Result<O>, traces: seq<Trace>, tracing: bool, budget: nat, n: nat, count: nat)
    requires Going(res, budget, n) && Aligned(res, tracing) && res.steps == budget && n < count && |traces| == if tracing then 1 else 0
    ensures Accounts(Spent(res, traces), budget, count) && Aligned(Spent(res, traces), tracing)
  {
    SumAppend(res.stepsPerSet, 0);
  }

  /** The call that begins in s with entry in place, under limit, ends in t. */
  ghost predicate CallRuns<R(!new)>(sem: Semantics<R>, caching: bool, s: State<R>, entry: Core<R>, limit: nat, t: State<R>) {
    exists states, forgotten :: WholeRun(sem, caching, Started(s, entry, limit), t, states, forgotten)
  }

  lemma CallHasRun<R(!new)>(sem: Semantics<R>, caching: bool, s: State<R>, entry: Core<R>, budget: nat, t: State<R>, n: nat)
    requires Accounted(s) && (!caching ==> s.cache == map[]) && budget > 0
    requires EndsWithin(sem, caching, Started(s, entry, LimitOf(s.steps, budget)), n)
    requires t == Ended(sem, Finish(sem, caching, Started(s, entry, LimitOf(s.steps, budget)), n))
    ensures CallRuns(sem, caching, s, entry, s.steps + budget, t)
  {
    var states, forgotten := FinishIsRun(sem, caching, Started(s, entry, s.steps + budget), n);
  }

  /** One set's call. */
  method CallOnce<R(!new)>(sess: Session<R>, entry: Core<R>, remaining: nat) returns (out: CallOutcome)
    requires sess.Valid() && remaining > 0
    modifies sess
    ensures sess.Valid() && Reports(old(sess.View()), sess.View(), remaining, out)
    ensures CallRuns(sess.sem, sess.caching, old(sess.View()), entry, old(sess.steps) + remaining, sess.View())
  {
    ghost var s := sess.View();
    ghost var bound;
    out, bound := sess.Call(entry, remaining, 0);
    CallHasRun(sess.sem, sess.caching, s, entry, remaining, sess.View(), bound);
  }

  /** Argument v may be passed for parameter i: checkArg. */
  type Admits<!V> = (nat, V) -> bool

  predicate SetIsGood<V>(arg: seq<V>, params: nat, admits: Admits<V>) {
    |arg| == params && forall i :: 0 <= i < params ==> admits(i, arg[i])
  }

  /** The first thing wrong with the argument sets: a wrong count (at -1), or a value that does not match
      its parameter, in the first set that is not good. */
  predicate FirstFault<V>(args: seq<seq<V>>, params: nat, admits: Admits<V>, n: nat, at: int) {
    && n < |args| && (forall k :: 0 <= k < n ==> SetIsGood(args[k], params, admits))
    && if |args[n]| != params then at == -1
       else 0 <= at < params && !admits(at, args[n][at]) && forall i :: 0 <= i < at ==> admits(i, args[n][i])
  }

  /** The checks that Run makes before running anything. */
  method CheckArgs<V>(args: seq<seq<V>>, params: nat, admits: Admits<V>) returns (fault: Option<(nat, int)>)
    ensures fault.None? ==> forall k :: 0 <= k < |args| ==> SetIsGood(args[k], params, admits)
    ensures fault.Some? ==> FirstFault(args, params, admits, fault.value.0, fault.value.1)
  {
    for n := 0 to |args|
      invariant forall k :: 0 <= k < n ==> SetIsGood(args[k], params, admits)
    {
      if |args[n]| != params {
        return Some((n, -1));
      }
      for i := 0 to params
        invariant forall j :: 0 <= j < i ==> admits(j, args[n][j])
      {
        if !admits(i, args[n][i]) {
          return Some((n, i));
        }
      }
    }
    return None;
  }

  /** What the host does around a call: put the arguments in place, read the results and the slice
      arguments back. */
  datatype Host<!R, !V, O> = Host(
    marshal: (Core<R>, seq<V>) -> Core<R>, results: Core<R> -> Option<O>, args: (Core<R>, seq<V>) -> Option<O>)

  /** The core a set's call begins in: the host's, with a trace of its own. */
  function Entry<R, V, O>(host: Host<R, V, O>, core: Core<R>, arg: seq<V>): Core<R> {
    host.marshal(core, arg).(trace := [])
  }

  /** The n-th set's call led from s to t; everything recorded of it is of that call and that set. */
  ghost predicate IsSet<R(!new), V, O>(
    res: Result<O>, n: nat, host: Host<R, V, O>, arg: seq<V>, tracing: bool, s: State<R>, t: State<R>)
  {
    && n < |res.outcomes| && |res.outcomes| == |res.outputs| == |res.argsAfter| == |res.stepsPerSet|
    && (tracing ==> |res.traces| == |res.outcomes| && res.traces[n] == t.core.trace)
    && res.stepsPerSet[n] == t.steps - s.steps
    && (res.outcomes[n] == Exhausted <==> t.exhausted)
    && (res.outcomes[n] == Panicked <==> !t.exhausted && (t.core.halted || t.core.panicking))
    && (res.outcomes[n] == Returned ==>
          res.outputs[n] == host.results(t.core) && res.argsAfter[n] == host.args(t.core, arg))
    && (res.outcomes[n] == Opaque ==> host.results(t.core).None? || host.args(t.core, arg).None?)
  }

  /** The k-th call is of the k-th set. */
  ghost predicate SetRuns<R(!new), V, O>(
    sem: Semantics<R>, caching: bool, host: Host<R, V, O>, args: seq<seq<V>>, limit: nat, tracing: bool,
    states: seq<State<R>>, res: Result<O>, k: nat)
    requires k < |args| && k + 1 < |states|
  {
    && |states[k].classes| == NUM_CLASSES
    && CallRuns(sem, caching, states[k], Entry(host, states[k].core, args[k]), limit, states[k + 1])
    && IsSet(res, k, host, args[k], tracing, states[k], states[k + 1])
  }

  /** states are the session's before the first call and after each. */
  ghost predicate RanSets<R(!new), V, O>(
    sem: Semantics<R>, caching: bool, host: Host<R, V, O>, args: seq<seq<V>>, limit: nat, tracing: bool,
    states: seq<State<R>>, res: Result<O>)
  {
    && 0 < |states| <= |args| + 1 && |states| <= |res.outcomes| + 1
    && forall k :: 0 <= k < |states| - 1 ==> SetRuns(sem, caching, host, args, limit, tracing, states, res, k)
  }

  /** What the calls detected, each with the number of its set. */
  ghost function AllFound<R, V, O>(host: Host<R, V, O>, args: seq<seq<V>>, states: seq<State<R>>, n: nat): seq<(nat, Report)>
    requires n < |states| && n <= |args|
  {
    if n == 0 then []
    else
      AllFound(host, args, states, n - 1)
      + Tagged(n - 1, Found(Entry(host, states[n - 1].core, args[n - 1]).reports, states[n].core.reports))
  }

  lemma {:induction false} AllFoundGrows<R, V, O>(host: Host<R, V, O>, args: seq<seq<V>>, states: seq<State<R>>, t: State<R>, n: nat)
    requires n < |states| && n <= |args|
    ensures AllFound(host, args, states + [t], n) == AllFound(host, args, states, n)
  {
    if n > 0 {
      AllFoundGrows(host, args, states, t, n - 1);
    }
  }

  /** What is recorded of earlier sets stays. */
  ghost predicate Extends<O>(res: Result<O>, res': Result<O>, tracing: bool) {
    && res.outcomes <= res'.outcomes && res.outputs <= res'.outputs && res.argsAfter <= res'.argsAfter
    && res.stepsPerSet <= res'.stepsPerSet && res.traces <= res'.traces
    && Aligned(res, tracing) && Aligned(res', tracing)
    && |res.stepsPerSet| == |res.outcomes| && |res'.stepsPerSet| == |res'.outcomes|
  }

  lemma SetStays<R(!new), V, O>(
    res: Result<O>, res': Result<O>, k: nat, host: Host<R, V, O>, arg: seq<V>, tracing: bool, s: State<R>, t: State<R>)
    requires Extends(res, res', tracing) && IsSet(res, k, host, arg, tracing, s, t)
    ensures IsSet(res', k, host, arg, tracing, s, t)
  {
  }

  /** Recording another set changes nothing recorded of the sets before. */
  lemma RecordedKeepsSets<R(!new), V, O>(
    sem: Semantics<R>, caching: bool, host: Host<R, V, O>, args: seq<seq<V>>, limit: nat, tracing: bool,
    states: seq<State<R>>, res: Result<O>, res': Result<O>)
    requires RanSets(sem, caching, host, args, limit, tracing, states, res) && Extends(res, res', tracing)
    ensures RanSets(sem, caching, host, args, limit, tracing, states, res')
  {
    forall k | 0 <= k < |states| - 1
      ensures SetRuns(sem, caching, host, args, limit, tracing, states, res', k)
    {
      assert SetRuns(sem, caching, host, args, limit, tracing, states, res, k);
      SetStays(res, res', k, host, args[k], tracing, states[k], states[k + 1]);
    }
  }

  lemma RanOneMore<R(!new), V, O>(
    sem: Semantics<R>, caching: bool, host: Host<R, V, O>, args: seq<seq<V>>, limit: nat, tracing: bool,
    states: seq<State<R>>, res: Result<O>, t: State<R>)
    requires RanSets(sem, caching, host, args, limit, tracing, states, res) && |states| <= |args| && |states| <= |res.outcomes|
    requires SetRuns(sem, caching, host, args, limit, tracing, states + [t], res, |states| - 1)
    ensures RanSets(sem, caching, host, args, limit, tracing, states + [t], res)
  {
    forall k | 0 <= k < |states + [t]| - 1
      ensures SetRuns(sem, caching, host, args, limit, tracing, states + [t], res, k)
    {
      assert k < |states| - 1 ==> SetRuns(sem, caching, host, args, limit, tracing, states, res, k);
    }
  }

  /** The use of the cache recorded is that of the session. */
  predicate Uses<R, O>(s: State<R>, t: State<R>, res: Result<O>, res': Result<O>) {
    res'.hits - res.hits == t.hits - s.hits && res'.executed - res.executed == t.executed - s.executed
  }

  /** The n-th set's call took the session from s to t, and res' is res with that recorded. */
  ghost predicate SetDone<R(!new), V, O>(
    sem: Semantics<R>, caching: bool, host: Host<R, V, O>, arg: seq<V>, limit: nat, tracing: bool, n: nat,
    s: State<R>, t: State<R>, res: Result<O>, res': Result<O>)
  {
    && |s.classes| == NUM_CLASSES && CallRuns(sem, caching, s, Entry(host, s.core, arg), limit, t)
    && |res'.outcomes| == n + 1 && Extends(res, res', tracing) && IsSet(res', n, host, arg, tracing, s, t) && Uses(s, t, res, res')
    && res'.violations == res.violations + Tagged(n, Found(Entry(host, s.core, arg).reports, t.core.reports))
  }

  lemma RecordedIsSet<R(!new), V, O>(
    host: Host<R, V, O>, arg: seq<V>, tracing: bool, n: nat, s: State<R>, t: State<R>, res: Result<O>, traces: seq<Trace>, found: seq<Report>)
    requires Settled(s, t) && Aligned(res, tracing) && |res.outcomes| == |res.stepsPerSet| == n && |res.stepsByClass| == NUM_CLASSES == |s.classes|
    requires traces == if tracing then [t.core.trace] else []
    ensures var out := OutcomeOfCall(s, t);
      var res' := Recorded(res, out, ReadBack(out, host.results(t.core), host.args(t.core, arg)), traces, found);
      Extends(res, res', tracing) && IsSet(res', n, host, arg, tracing, s, t) && Uses(s, t, res, res')
  {
    var out := OutcomeOfCall(s, t);
    RecordedAligned(res, out, host.results(t.core), host.args(t.core, arg), traces, found, tracing);
  }

  /** What recording a call under the rest of the budget keeps. */
  lemma CallRecorded<R(!new), O>(
    s: State<R>, t: State<R>, out: CallOutcome, results: Option<O>, args: Option<O>, traces: seq<Trace>, found: seq<Report>,
    res: Result<O>, limit: nat, n: nat)
    requires Going(res, limit, n) && s.steps == res.steps < limit && |res.stepsByClass| == NUM_CLASSES == |s.classes|
    requires Reports(s, t, limit - res.steps, out)
    ensures |out.classes| == NUM_CLASSES
    ensures Tallied(Recorded(res, out, ReadBack(out, results, args), traces, found), t, limit, n + 1)
  {
    RecordedAccounts(res, out, ReadBack(out, results, args), traces, found, limit, n);
  }

  /** After n sets the accounts are those of the session. */
  ghost predicate Tallied<R(!new), O>(res: Result<O>, t: State<R>, limit: nat, n: nat) {
    && t.steps == res.steps && t.limit == limit && |res.stepsByClass| == NUM_CLASSES && |res.outcomes| == n
    && Accounts(res, limit, n) && (!res.exhausted ==> Going(res, limit, n))
  }

  lemma SetIsDone<R(!new), V, O>(
    sem: Semantics<R>, caching: bool, host: Host<R, V, O>, arg: seq<V>, limit: nat, tracing: bool, n: nat,
    s: State<R>, t: State<R>, res: Result<O>, out: CallOutcome, traces: seq<Trace>)
    requires Going(res, limit, n) && Aligned(res, tracing) && s.steps == res.steps < limit && |res.stepsByClass| == NUM_CLASSES == |s.classes|
    requires Reports(s, t, limit - res.steps, out) && CallRuns(sem, caching, s, Entry(host, s.core, arg), limit, t)
    requires traces == if tracing then [t.core.trace] else []
    ensures |out.classes| == NUM_CLASSES
    ensures var found := Found(Entry(host, s.core, arg).reports, t.core.reports);
      var res' := Recorded(res, out, ReadBack(out, host.results(t.core), host.args(t.core, arg)), traces, found);
      SetDone(sem, caching, host, arg, limit, tracing, n, s, t, res, res') && Tallied(res', t, limit, n + 1)
  {
    var found := Found(Entry(host, s.core, arg).reports, t.core.reports);
    CallRecorded(s, t, out, host.results(t.core), host.args(t.core, arg), traces, found, res, limit, n);
    RecordedIsSet(host, arg, tracing, n, s, t, res, traces, found);
  }

  /** One argument set. */
  method RunSet<R(!new), V, O>(
      sess: Session<R>, arg: seq<V>, tracing: bool, host: Host<R, V, O>, res: Result<O>, limit: nat, ghost n: nat)
      returns (res': Result<O>)
    requires sess.Valid() && sess.steps == res.steps < limit && |res.stepsByClass| == NUM_CLASSES
    requires Going(res, limit, n) && Aligned(res, tracing)
    modifies sess
    ensures sess.Valid() && Tallied(res', sess.View(), limit, n + 1)
    ensures SetDone(sess.sem, sess.caching, host, arg, limit, tracing, n, old(sess.View()), sess.View(), res, res')
  {
    ghost var s := sess.View();
    var entry := Entry(host, sess.core, arg);
    var out := CallOnce(sess, entry, limit - res.steps);
    var traces := if tracing then [sess.core.trace] else [];
    SetIsDone(sess.sem, sess.caching, host, arg, limit, tracing, n, s, sess.View(), res, out, traces);
    var read := ReadBack(out, host.results(sess.core), host.args(sess.core, arg));
    res' := Recorded(res, out, read, traces, Found(entry.reports, sess.core.reports));
  }

  /** All that is recorded of a run that led the session from s to t. One more set than was called is
      recorded exactly when nothing remained for it. */
  ghost predicate Ran<R(!new), V, O>(
    sem: Semantics<R>, caching: bool, host: Host<R, V, O>, args: seq<seq<V>>, limit: nat, tracing: bool,
    s: State<R>, t: State<R>, states: seq<State<R>>, res: Result<O>)
  {
    && RanSets(sem, caching, host, args, limit, tracing, states, res)
    && states[0] == s && states[|states| - 1] == t
    && (|states| == |res.outcomes| + 1 || (|states| == |res.outcomes| && res.outcomes[|states| - 1] == Exhausted))
    && res.violations == AllFound(host, args, states, |states| - 1)
    && res.hits == t.hits - s.hits && res.executed == t.executed - s.executed
  }

  lemma RanSpent<R(!new), V, O>(
    sem: Semantics<R>, caching: bool, host: Host<R, V, O>, args: seq<seq<V>>, limit: nat, tracing: bool,
    s: State<R>, t: State<R>, states: seq<State<R>>, res: Result<O>, traces: seq<Trace>)
    requires Ran(sem, caching, host, args, limit, tracing, s, t, states, res) && |states| == |res.outcomes| + 1
    requires Aligned(res, tracing) && |res.stepsPerSet| == |res.outcomes| && |traces| == if tracing then 1 else 0
    ensures Ran(sem, caching, host, args, limit, tracing, s, t, states, Spent(res, traces))
  {
    RecordedKeepsSets(sem, caching, host, args, limit, tracing, states, res, Spent(res, traces));
  }

  lemma FoundOn<R, V, O>(host: Host<R, V, O>, args: seq<seq<V>>, states: seq<State<R>>, t: State<R>)
    requires 0 < |states| <= |args|
    ensures var n := |states| - 1;
      AllFound(host, args, states + [t], n + 1) ==
        AllFound(host, args, states, n) + Tagged(n, Found(Entry(host, states[n].core, args[n]).reports, t.core.reports))
  {
    AllFoundGrows(host, args, states, t, |states| - 1);
  }

  lemma RanOn<R(!new), V, O>(
    sem: Semantics<R>, caching: bool, host: Host<R, V, O>, args: seq<seq<V>>, limit: nat, tracing: bool,
    s: State<R>, s0: State<R>, states: seq<State<R>>, res: Result<O>, res': Result<O>, t: State<R>)
    requires 0 < |states| <= |args| && |states| == |res.outcomes| + 1
    requires Ran(sem, caching, host, args, limit, tracing, s, s0, states, res)
    requires SetDone(sem, caching, host, args[|states| - 1], limit, tracing, |states| - 1, s0, t, res, res')
    ensures Ran(sem, caching, host, args, limit, tracing, s, t, states + [t], res')
  {
    RecordedKeepsSets(sem, caching, host, args, limit, tracing, states, res, res');
    RanOneMore(sem, caching, host, args, limit, tracing, states, res', t);
    FoundOn(host, args, states, t);
  }

  /** The first n sets have run, and the budget is not known to be spent. */
  ghost predicate Progress<R(!new), V, O>(
    sem: Semantics<R>, caching: bool, host: Host<R, V, O>, args: seq<seq<V>>, limit: nat, tracing: bool,
    s: State<R>, t: State<R>, states: seq<State<R>>, res: Result<O>, n: nat)
  {
    && Going(res, limit, n) && Aligned(res, tracing) && |res.stepsByClass| == NUM_CLASSES && t.steps == res.steps
    && |states| == n + 1 && Ran(sem, caching, host, args, limit, tracing, s, t, states, res)
  }

  /** What Run promises when it stops. */
  ghost predicate Promised<R(!new), V, O>(
    sem: Semantics<R>, caching: bool, host: Host<R, V, O>, args: seq<seq<V>>, limit: nat, tracing: bool,
    s: State<R>, t: State<R>, states: seq<State<R>>, res: Result<O>)
  {
    && Accounts(res, limit, |args|) && Aligned(res, tracing) && t.steps == res.steps
    && Ran(sem, caching, host, args, limit, tracing, s, t, states, res)
  }

  lemma ProgressBegins<R(!new), V, O>(
    sem: Semantics<R>, caching: bool, host: Host<R, V, O>, args: seq<seq<V>>, limit: nat, tracing: bool, s: State<R>, classes: seq<nat>)
    requires s.steps == 0 && |classes| == NUM_CLASSES && Sum(classes) == 0
    ensures Progress(sem, caching, host, args, limit, tracing, s, s, [s], Result(0, [], classes, [], [], [], [], [], false, 0, 0), 0)
  {
  }

  lemma ProgressSpent<R(!new), V, O>(
    sem: Semantics<R>, caching: bool, host: Host<R, V, O>, args: seq<seq<V>>, limit: nat, tracing: bool,
    s: State<R>, t: State<R>, states: seq<State<R>>, res: Result<O>, n: nat, traces: seq<Trace>)
    requires Progress(sem, caching, host, args, limit, tracing, s, t, states, res, n) && n < |args| && res.steps == limit
    requires |traces| == if tracing then 1 else 0
    ensures Standing(sem, caching, host, args, limit, tracing, s, t, states, Spent(res, traces), n + 1)
  {
    SpentAccounts(res, traces, tracing, limit, n, |args|);
    RanSpent(sem, caching, host, args, limit, tracing, s, t, states, res, traces);
  }

  /** The run has stopped, its budget spent, or n sets have run. */
  ghost predicate Standing<R(!new), V, O>(
    sem: Semantics<R>, caching: bool, host: Host<R, V, O>, args: seq<seq<V>>, limit: nat, tracing: bool,
    s: State<R>, t: State<R>, states: seq<State<R>>, res: Result<O>, n: nat)
  {
    if res.exhausted then Promised(sem, caching, host, args, limit, tracing, s, t, states, res)
    else Progress(sem, caching, host, args, limit, tracing, s, t, states, res, n)
  }

  lemma ProgressOn<R(!new), V, O>(
    sem: Semantics<R>, caching: bool, host: Host<R, V, O>, args: seq<seq<V>>, limit: nat, tracing: bool,
    s: State<R>, s0: State<R>, states: seq<State<R>>, res: Result<O>, res': Result<O>, t: State<R>, n: nat)
    requires Progress(sem, caching, host, args, limit, tracing, s, s0, states, res, n) && n < |args|
    requires SetDone(sem, caching, host, args[n], limit, tracing, n, s0, t, res, res') && Tallied(res', t, limit, n + 1)
    ensures Standing(sem, caching, host, args, limit, tracing, s, t, states + [t], res', n + 1)
  {
    RanOn(sem, caching, host, args, limit, tracing, s, s0, states, res, res', t);
  }

  lemma StandingEnds<R(!new), V, O>(
    sem: Semantics<R>, caching: bool, host: Host<R, V, O>, args: seq<seq<V>>, limit: nat, tracing: bool,
    s: State<R>, t: State<R>, states: seq<State<R>>, res: Result<O>, n: nat)
    requires Standing(sem, caching, host, args, limit, tracing, s, t, states, res, n) && (res.exhausted || n == |args|)
    ensures Promised(sem, caching, host, args, limit, tracing, s, t, states, res)
  {
  }

  /** One round of the loop: the next set is run if anything of the budget remains, with all that does; no
      call is made when nothing remains, so a spent budget is never passed on as the 0 that means
      unlimited. */
  method RunNext<R(!new), V, O>(
      sess: Session<R>, args: seq<seq<V>>, limit: nat, tracing: bool, host: Host<R, V, O>, res: Result<O>, n: nat,
      ghost s: State<R>, ghost states: seq<State<R>>)
      returns (res': Result<O>, ghost states': seq<State<R>>)
    requires sess.Valid() && n < |args|
    requires Progress(sess.sem, sess.caching, host, args, limit, tracing, s, sess.View(), states, res, n)
    modifies sess
    ensures sess.Valid()
    ensures Standing(sess.sem, sess.caching, host, args, limit, tracing, s, sess.View(), states', res', n + 1)
    ensures |states'| > |states| ==> sess.limit == limit
  {
    ghost var s0 := sess.View();
    if limit - res.steps == 0 {
      var traces := if tracing then [[]] else [];
      ProgressSpent(sess.sem, sess.caching, host, args, limit, tracing, s, s0, states, res, n, traces);
      res', states' := Spent(res, traces), states;
    } else {
      res' := RunSet(sess, args[n], tracing, host, res, limit, n);
      ProgressOn(sess.sem, sess.caching, host, args, limit, tracing, s, s0, states, res, res', sess.View(), n);
      states' := states + [sess.View()];
    }
  }

  /** The loop of Run. A session starts with no steps counted. Every call's absolute limit is the budget
      itself; limits records them. states are the session's before the first call and after each. */
  method RunSets<R(!new), V, O>(sess: Session<R>, args: seq<seq<V>>, limit: nat, tracing: bool, host: Host<R, V, O>)
      returns (res: Result<O>, ghost limits: seq<nat>, ghost states: seq<State<R>>)
    requires sess.Valid() && sess.steps == 0
    modifies sess
    ensures sess.Valid() && forall k :: 0 <= k < |limits| ==> limits[k] == limit
    ensures Promised(sess.sem, sess.caching, host, args, limit, tracing, old(sess.View()), sess.View(), states, res)
  {
    ghost var s := sess.View();
    var classes: seq<nat> := seq(NUM_CLASSES, _ => 0);
    SumZeros(NUM_CLASSES);
    res, limits, states := Result(0, [], classes, [], [], [], [], [], false, 0, 0), [], [s];
    ProgressBegins(sess.sem, sess.caching, host, args, limit, tracing, s, classes);
    var n := 0;
    while n < |args| && !res.exhausted
      invariant n <= |args| && sess.Valid() && forall k :: 0 <= k < |limits| ==> limits[k] == limit
      invariant Standing(sess.sem, sess.caching, host, args, limit, tracing, s, sess.View(), states, res, n)
      decreases |args| - n
    {
      ghost var before := |states|;
      res, states := RunNext(sess, args, limit, tracing, host, res, n, s, states);
      limits := if |states| > before then limits + [sess.limit] else limits;
      n := n + 1;
    }
    StandingEnds(sess.sem, sess.caching, host, args, limit, tracing, s, sess.View(), states, res, n);
  }

  datatype RunResult<+O> = BadArgument(n: nat, at: int) | Finished(res: Result<O>)

  /** Run: nothing is run if any argument set is not good; otherwise the sets are run in order under one
      budget. */
  method Run<R(!new), V, O>(
      sess: Session<R>, args: seq<seq<V>>, params: nat, admits: Admits<V>, maxSteps: nat, tracing: bool, host: Host<R, V, O>)
      returns (r: RunResult<O>, ghost budget: nat, ghost limits: seq<nat>, ghost states: seq<State<R>>)
    requires sess.Valid() && sess.steps == 0
    modifies sess
    ensures budget == (if maxSteps == 0 then DEFAULT_MAX_STEPS else maxSteps)
    ensures r.BadArgument? ==> FirstFault(args, params, admits, r.n, r.at) && unchanged(sess)
    ensures r.Finished? ==>
      && (forall k :: 0 <= k < |args| ==> SetIsGood(args[k], params, admits))
      && (forall k :: 0 <= k < |limits| ==> limits[k] == budget)
      && Promised(sess.sem, sess.caching, host, args, budget, tracing, old(sess.View()), sess.View(), states, r.res)
      && sess.Valid()
  {
    var limit := if maxSteps == 0 then DEFAULT_MAX_STEPS else maxSteps;
    budget, limits, states := limit, [], [];
    var fault := CheckArgs(args, params, admits);
    if fault.Some? {
      return BadArgument(fault.value.0, fault.value.1), budget, limits, states;
    }
    var res;
    res, limits, states := RunSets(sess, args, limit, tracing, host);
    r := Finished(res);
  }
}
