/** backend/app/comparison.py: comparing two runs of a suite task by task. */
module PairedRuns {
  import opened Json
  import opened TraceModel
  import opened Comparison

  datatype RunExecution = RunExecution(
    id: Id, taskId: string, passed: Option<bool>, latencyMs: Option<nat>, costUsd: Option<real>)

  datatype Disposition = REGRESSION | IMPROVEMENT | STABLE_PASS | STABLE_FAILURE | INDETERMINATE

  datatype Paired = Paired(
    taskId: string, disposition: Disposition, baseline: Id, candidate: Id,
    baselinePassed: Option<bool>, candidatePassed: Option<bool>,
    latencyDelta: Option<int>, costDelta: Option<real>, attribution: Option<Attribution>)

  datatype RunComparison = RunComparison(comparedTasks: nat, regressions: nat, improvements: nat, results: seq<Paired>)

  /** The comparison, or one of the two refusals. */
  datatype Answer = Compared(value: RunComparison) | DuplicateTask | NothingShared

  function DispositionOf(baseline: Option<bool>, candidate: Option<bool>): Disposition {
    if baseline == Some(true) && candidate == Some(false) then REGRESSION
    else if baseline == Some(false) && candidate == Some(true) then IMPROVEMENT
    else if baseline == Some(true) && candidate == Some(true) then STABLE_PASS
    else if baseline == Some(false) && candidate == Some(false) then STABLE_FAILURE
    else INDETERMINATE
  }

  function Delta(candidate: Option<nat>, baseline: Option<nat>): Option<int> {
    if candidate.None? || baseline.None? then None else Some(candidate.value - baseline.value)
  }

  /** The nearest integer, and of two equally near the even one. */
  function RoundHalfEven(x: real): int {
    var below, rest := x.Floor, x - x.Floor as real;
    if rest < 0.5 then below
    else if rest > 0.5 then below + 1
    else if below % 2 == 0 then below else below + 1
  }

  /** `round(x, 8)`, on exact reals. */
  function Round8(x: real): real {
    RoundHalfEven(x * 100000000.0) as real / 100000000.0
  }

  function CostDelta(candidate: Option<real>, baseline: Option<real>): Option<real> {
    if candidate.None? || baseline.None? then None else Some(Round8(candidate.value - baseline.value))
  }

  /** Rounding is symmetric, so a cost delta changes its sign with the order of the runs. */
  lemma RoundIsOdd(x: real)
    ensures RoundHalfEven(-x) == -RoundHalfEven(x)
  {
    var n := x.Floor;
    if x == n as real {
      assert (-x).Floor == -n;
    } else {
      assert (-x).Floor == -n - 1;
    }
  }

  lemma CostDeltaFlips(a: Option<real>, b: Option<real>)
    ensures a.Some? && b.Some? ==> CostDelta(a, b) == Some(-CostDelta(b, a).value)
    ensures CostDelta(a, b).Some? <==> a.Some? && b.Some?
  {
    if a.Some? && b.Some? {
      var x := (b.value - a.value) * 100000000.0;
      RoundIsOdd(x);
      assert (a.value - b.value) * 100000000.0 == -x;
    }
  }

  // ---------------------------------------------------------------- the order of task ids

  /** Python's order on strings. */
  predicate Less(a: string, b: string) {
    b != "" && (a == "" || a[0] < b[0] || (a[0] == b[0] && Less(a[1..], b[1..])))
  }

  lemma {:induction false} LessIsTotal(a: string, b: string)
    ensures Less(a, b) || Less(b, a) || a == b
    ensures !(Less(a, b) && Less(b, a)) && !Less(a, a)
  {
    if a != "" && b != "" {
      LessIsTotal(a[1..], b[1..]);
      assert a == [a[0]] + a[1..] && b == [b[0]] + b[1..];
    }
    if a != "" {
      LessIsTotal(a[1..], a[1..]);
    }
  }

  lemma {:induction false} LessIsTransitive(a: string, b: string, c: string)
    requires Less(a, b) && Less(b, c)
    ensures Less(a, c)
  {
    if a != "" && a[0] == b[0] == c[0] {
      LessIsTransitive(a[1..], b[1..], c[1..]);
    }
  }

  method LeastOf(ids: set<string>) returns (least: string)
    requires ids != {}
    ensures least in ids && forall id | id in ids && id != least :: Less(least, id)
  {
    least :| least in ids;
    var rest := ids - {least};
    while rest != {}
      invariant rest <= ids && least in ids && least !in rest
      invariant forall id | id in ids && id !in rest && id != least :: Less(least, id)
    {
      var id :| id in rest;
      LessIsTotal(least, id);
      if Less(id, least) {
        forall x | x in ids && x !in rest && x != least ensures Less(id, x) {
          LessIsTransitive(id, least, x);
        }
        least := id;
      }
      rest := rest - {id};
    }
  }

  // ---------------------------------------------------------------- one execution per task

  ghost predicate OnePerTask(executions: seq<RunExecution>) {
    forall i, j | 0 <= i < j < |executions| :: executions[i].taskId != executions[j].taskId
  }

  ghost predicate Indexes(m: map<string, RunExecution>, executions: seq<RunExecution>) {
    && (forall x | x in executions :: x.taskId in m && m[x.taskId] == x)
    && (forall id | id in m :: m[id] in executions && m[id].taskId == id)
  }

  /** `_by_task`: refuses a run with two executions of one task. */
  method ByTask(executions: seq<RunExecution>) returns (r: Option<map<string, RunExecution>>)
    ensures r.Some? <==> OnePerTask(executions)
    ensures r.Some? ==> Indexes(r.value, executions)
  {
    var m: map<string, RunExecution> := map[];
    for i := 0 to |executions|
      invariant OnePerTask(executions[..i])
      invariant Indexes(m, executions[..i])
    {
      var x := executions[i];
      if x.taskId in m {
        var j :| 0 <= j < i && executions[..i][j] == m[x.taskId];
        assert executions[j].taskId == executions[i].taskId;
        return None;
      }
      forall j | 0 <= j < i ensures executions[j].taskId != x.taskId {
        assert executions[..i][j] in executions[..i];
      }
      m := m[x.taskId := x];
      assert executions[..i + 1] == executions[..i] + [x];
    }
    assert executions[..|executions|] == executions;
    return Some(m);
  }

  // ---------------------------------------------------------------- the comparison

  ghost predicate Ascending(results: seq<Paired>) {
    forall i, j | 0 <= i < j < |results| :: Less(results[i].taskId, results[j].taskId)
  }

  /** A result pairs the two executions of its task, and attributes regressions only. */
  ghost predicate Pairs(p: Paired, left: RunExecution, right: RunExecution, traces: Id -> seq<Event>) {
    && p.taskId == left.taskId == right.taskId && p.baseline == left.id && p.candidate == right.id
    && p.disposition == DispositionOf(left.passed, right.passed)
    && p.baselinePassed == left.passed && p.candidatePassed == right.passed
    && p.latencyDelta == Delta(right.latencyMs, left.latencyMs)
    && p.costDelta == CostDelta(right.costUsd, left.costUsd)
    && if p.disposition.REGRESSION? then Attributes(p.attribution, traces(left.id), traces(right.id))
       else p.attribution.None?
  }

  ghost predicate PairsSome(p: Paired, baseline: seq<RunExecution>, candidate: seq<RunExecution>,
                            traces: Id -> seq<Event>) {
    exists l, r | l in baseline && r in candidate :: Pairs(p, l, r, traces)
  }

  function Tally(results: seq<Paired>, d: Disposition): nat {
    if results == [] then 0
    else Tally(results[..|results| - 1], d) + if results[|results| - 1].disposition == d then 1 else 0
  }

  ghost predicate Shared(id: string, baseline: seq<RunExecution>, candidate: seq<RunExecution>) {
    (exists x | x in baseline :: x.taskId == id) && (exists x | x in candidate :: x.taskId == id)
  }

  ghost predicate Listed(id: string, results: seq<Paired>) {
    exists k | 0 <= k < |results| :: results[k].taskId == id
  }

  /** What a comparison must be: one result for each shared task and no other, in the order
      of the task ids, and the regressions and improvements counted. */
  ghost predicate Compares(c: RunComparison, baseline: seq<RunExecution>, candidate: seq<RunExecution>,
                           traces: Id -> seq<Event>) {
    && Ascending(c.results)
    && (forall k | 0 <= k < |c.results| :: PairsSome(c.results[k], baseline, candidate, traces))
    && (forall id :: Shared(id, baseline, candidate) ==> Listed(id, c.results))
    && c.comparedTasks == |c.results|
    && c.regressions == Tally(c.results, REGRESSION) && c.improvements == Tally(c.results, IMPROVEMENT)
  }

  /** `compare_runs`, given the executions of both runs and the stored traces. */
  method CompareRuns(baseline: seq<RunExecution>, candidate: seq<RunExecution>, traces: Id -> seq<Event>)
    returns (answer: Answer)
    ensures answer.DuplicateTask? <==> !OnePerTask(baseline) || !OnePerTask(candidate)
    ensures answer.NothingShared? <==>
      OnePerTask(baseline) && OnePerTask(candidate) && forall id :: !Shared(id, baseline, candidate)
    ensures answer.Compared? ==> Compares(answer.value, baseline, candidate, traces)
  {
    hide Pairs, Less, Listed, Tally, PairsSome, Indexes, OnePerTask;
    var left := ByTask(baseline);
    if left.None? {
      return DuplicateTask;
    }
    var right := ByTask(candidate);
    if right.None? {
      return DuplicateTask;
    }
    var ids := left.value.Keys * right.value.Keys;
    SharedKeys(left.value, right.value, baseline, candidate);
    if ids == {} {
      forall id ensures !Shared(id, baseline, candidate) {
        assert id !in ids;
      }
      return NothingShared;
    }
    var results: seq<Paired> := [];
    while ids != {}
      invariant ids <= left.value.Keys * right.value.Keys
      invariant Ascending(results)
      invariant forall k, id | 0 <= k < |results| && id in ids :: Less(results[k].taskId, id)
      invariant forall k | 0 <= k < |results| :: PairsSome(results[k], baseline, candidate, traces)
      invariant forall id | id in left.value.Keys * right.value.Keys && id !in ids :: Listed(id, results)
    {
      var id := LeastOf(ids);
      SameTask(left.value, right.value, baseline, candidate, id);
      var p := PairUp(left.value[id], right.value[id], traces);
      ghost var before := results;
      FromIndexes(left.value, right.value, baseline, candidate, id, p, traces);
      results := results + [p];
      ListedStill(before, p);
      ids := ids - {id};
    }
    var regressions, improvements := CountBoth(results);
    return Compared(RunComparison(|results|, regressions, improvements, results));
  }

  lemma FromIndexes(left: map<string, RunExecution>, right: map<string, RunExecution>, baseline: seq<RunExecution>,
                    candidate: seq<RunExecution>, id: string, p: Paired, traces: Id -> seq<Event>)
    requires Indexes(left, baseline) && Indexes(right, candidate) && id in left && id in right
    requires Pairs(p, left[id], right[id], traces)
    ensures PairsSome(p, baseline, candidate, traces)
  {
    hide Pairs;
  }

  lemma ListedStill(before: seq<Paired>, p: Paired)
    ensures forall id | Listed(id, before) || id == p.taskId :: Listed(id, before + [p])
  {
    assert (before + [p])[|before|] == p;
    forall id | Listed(id, before) ensures Listed(id, before + [p]) {
      var k :| 0 <= k < |before| && before[k].taskId == id;
      assert (before + [p])[k].taskId == id;
    }
  }

  lemma SharedKeys(left: map<string, RunExecution>, right: map<string, RunExecution>,
                   baseline: seq<RunExecution>, candidate: seq<RunExecution>)
    requires Indexes(left, baseline) && Indexes(right, candidate)
    ensures forall id :: Shared(id, baseline, candidate) <==> id in left && id in right
  {
  }

  lemma SameTask(left: map<string, RunExecution>, right: map<string, RunExecution>, baseline: seq<RunExecution>,
                 candidate: seq<RunExecution>, id: string)
    requires Indexes(left, baseline) && Indexes(right, candidate) && id in left && id in right
    ensures left[id].taskId == right[id].taskId == id
  {
  }

  method PairUp(left: RunExecution, right: RunExecution, traces: Id -> seq<Event>) returns (p: Paired)
    requires left.taskId == right.taskId
    ensures Pairs(p, left, right, traces) && p.taskId == left.taskId
  {
    var disposition := DispositionOf(left.passed, right.passed);
    var attribution: Option<Attribution> := None;
    if disposition == REGRESSION {
      attribution := FirstDivergence(traces(left.id), traces(right.id));
    }
    return Paired(left.taskId, disposition, left.id, right.id, left.passed, right.passed,
                  Delta(right.latencyMs, left.latencyMs), CostDelta(right.costUsd, left.costUsd), attribution);
  }

  method CountBoth(results: seq<Paired>) returns (regressions: nat, improvements: nat)
    ensures regressions == Tally(results, REGRESSION) && improvements == Tally(results, IMPROVEMENT)
  {
    regressions, improvements := 0, 0;
    for i := 0 to |results|
      invariant regressions == Tally(results[..i], REGRESSION) && improvements == Tally(results[..i], IMPROVEMENT)
    {
      assert results[..i + 1][..i] == results[..i];
      if results[i].disposition == REGRESSION {
        regressions := regressions + 1;
      }
      if results[i].disposition == IMPROVEMENT {
        improvements := improvements + 1;
      }
    }
    assert results[..|results|] == results;
  }

  // ---------------------------------------------------------------- what a comparison says

  /** Python's order: the first character that differs decides, and a proper prefix comes
      first. */
  lemma {:induction false} LessMeans(a: string, b: string)
    ensures Less(a, b) <==> exists n: nat :: DiffersAt(a, b, n)
  {
    if a != [] && b != [] && a[0] == b[0] {
      LessMeans(a[1..], b[1..]);
      if n: nat :| DiffersAt(a[1..], b[1..], n) {
        assert forall i | 0 < i <= n :: a[i] == a[1..][i - 1] && b[i] == b[1..][i - 1];
        assert DiffersAt(a, b, n + 1);
      }
      if n: nat :| DiffersAt(a, b, n) {
        assert DiffersAt(a[1..], b[1..], n - 1);
      }
    } else {
      assert Less(a, b) ==> DiffersAt(a, b, 0);
    }
  }

  /** The strings agree in their first n characters, and then a ends or has the smaller one. */
  ghost predicate DiffersAt(a: string, b: string, n: nat) {
    n <= |a| && n < |b| && (forall i | 0 <= i < n :: a[i] == b[i]) && (n == |a| || a[n] < b[n])
  }

  /** Rounding to eight decimals gives the nearest multiple of 0.00000001, and of two equally
      near the even one. */
  lemma RoundsToEight(x: real, n: int)
    ensures Round8(x) == n as real / 100000000.0 <==>
      var off := x * 100000000.0 - n as real;
      -0.5 <= off <= 0.5 && (off == 0.5 || off == -0.5 ==> n % 2 == 0)
  {
    var y := x * 100000000.0;
    assert Round8(x) == n as real / 100000000.0 <==> RoundHalfEven(y) == n;
  }

  /** What is said of the two executions of one task. */
  ghost predicate Reports(p: Paired, l: RunExecution, r: RunExecution, traces: Id -> seq<Event>) {
    && p.taskId == l.taskId == r.taskId && p.baseline == l.id && p.candidate == r.id
    && p.baselinePassed == l.passed && p.candidatePassed == r.passed
    && (p.disposition == REGRESSION <==> l.passed == Some(true) && r.passed == Some(false))
    && (p.disposition == IMPROVEMENT <==> l.passed == Some(false) && r.passed == Some(true))
    && (p.disposition == STABLE_PASS <==> l.passed == Some(true) && r.passed == Some(true))
    && (p.disposition == STABLE_FAILURE <==> l.passed == Some(false) && r.passed == Some(false))
    && (p.disposition == INDETERMINATE <==> l.passed == None || r.passed == None)
    && (if l.passed == Some(true) && r.passed == Some(false)
        then Attributes(p.attribution, traces(l.id), traces(r.id)) else p.attribution == None)
    && (p.latencyDelta == if l.latencyMs.Some? && r.latencyMs.Some? then Some(r.latencyMs.value - l.latencyMs.value)
                          else None)
    && (p.costDelta.Some? <==> l.costUsd.Some? && r.costUsd.Some?)
    && (p.costDelta.Some? ==> IsRounded(p.costDelta.value, r.costUsd.value - l.costUsd.value))
  }

  /** c is the multiple of 0.00000001 nearest to x, the even one of two that are. */
  ghost predicate IsRounded(c: real, x: real) {
    exists n: int :: IsNearest(n, c, x)
  }

  ghost predicate IsNearest(n: int, c: real, x: real) {
    && c == n as real * 0.00000001 && -0.000000005 <= c - x <= 0.000000005
    && (c - x == 0.000000005 || c - x == -0.000000005 ==> n % 2 == 0)
  }

  lemma RoundedDelta(x: real)
    ensures IsRounded(Round8(x), x)
  {
    var n := RoundHalfEven(x * 100000000.0);
    RoundsToEight(x, n);
    assert IsNearest(n, Round8(x), x);
  }

  lemma ThreeAnswers(passed: Option<bool>)
    ensures passed == None || passed == Some(true) || passed == Some(false)
  {
    if passed.Some? {
      if passed.value {
        assert passed == Some(true);
      } else {
        assert passed == Some(false);
      }
    }
  }

  lemma PairReports(p: Paired, l: RunExecution, r: RunExecution, traces: Id -> seq<Event>)
    requires Pairs(p, l, r, traces)
    ensures Reports(p, l, r, traces)
  {
    hide Attributes, Round8, IsRounded;
    if l.costUsd.Some? && r.costUsd.Some? {
      RoundedDelta(r.costUsd.value - l.costUsd.value);
    }
    ThreeAnswers(l.passed);
    ThreeAnswers(r.passed);
  }

  /** The shared tasks whose executions passed and failed like this. */
  ghost function TasksThat(baseline: seq<RunExecution>, candidate: seq<RunExecution>, before: bool, after: bool)
    : set<string>
  {
    set l, r | l in baseline && r in candidate && l.taskId == r.taskId
               && l.passed == Some(before) && r.passed == Some(after) :: l.taskId
  }

  ghost function TasksWith(results: seq<Paired>, d: Disposition): set<string> {
    set p | p in results && p.disposition == d :: p.taskId
  }

  lemma {:induction false} TallyCounts(results: seq<Paired>, d: Disposition)
    requires Ascending(results)
    ensures Tally(results, d) == |TasksWith(results, d)|
  {
    if results != [] {
      hide Less;
      var front, last := results[..|results| - 1], results[|results| - 1];
      TallyCounts(front, d);
      LastIsNew(results, d);
      assert results == front + [last];
      hide TasksWith, Ascending;
      OneMoreTask(front, last, d);
    }
  }

  lemma OneMoreTask(front: seq<Paired>, last: Paired, d: Disposition)
    ensures TasksWith(front + [last], d) == TasksWith(front, d) + if last.disposition == d then {last.taskId} else {}
  {
  }

  lemma LastIsNew(results: seq<Paired>, d: Disposition)
    requires Ascending(results) && results != []
    ensures results[|results| - 1].taskId !in TasksWith(results[..|results| - 1], d)
  {
    hide Less;
    var front, last := results[..|results| - 1], results[|results| - 1];
    if last.taskId in TasksWith(front, d) {
      var p :| p in front && p.disposition == d && p.taskId == last.taskId;
      LessIsTotal(p.taskId, last.taskId);
    }
  }

  /** Main result: every result reports on the two executions of its task, every shared task
      has its result, and the two counts are the numbers of shared tasks that went from
      passed to failed and from failed to passed. */
  lemma ComparisonReports(c: RunComparison, baseline: seq<RunExecution>, candidate: seq<RunExecution>,
                          traces: Id -> seq<Event>)
    requires OnePerTask(baseline) && OnePerTask(candidate) && Compares(c, baseline, candidate, traces)
    ensures forall p | p in c.results :: exists l, r | l in baseline && r in candidate :: Reports(p, l, r, traces)
    ensures forall l, r | l in baseline && r in candidate && l.taskId == r.taskId ::
      exists p | p in c.results :: Reports(p, l, r, traces)
    ensures c.regressions == |TasksThat(baseline, candidate, true, false)|
    ensures c.improvements == |TasksThat(baseline, candidate, false, true)|
  {
    hide Less, Pairs, Reports;
    forall p | p in c.results ensures exists l, r | l in baseline && r in candidate :: Reports(p, l, r, traces) {
      var l, r :| l in baseline && r in candidate && Pairs(p, l, r, traces);
      PairReports(p, l, r, traces);
    }
    forall l, r | l in baseline && r in candidate && l.taskId == r.taskId
      ensures exists p | p in c.results :: Reports(p, l, r, traces)
    {
      var p := ResultOf(c, baseline, candidate, traces, l, r);
    }
    TallyCounts(c.results, REGRESSION);
    TallyCounts(c.results, IMPROVEMENT);
    SameTasks(c, baseline, candidate, traces, REGRESSION, true, false);
    SameTasks(c, baseline, candidate, traces, IMPROVEMENT, false, true);
  }

  lemma ResultOf(c: RunComparison, baseline: seq<RunExecution>, candidate: seq<RunExecution>,
                 traces: Id -> seq<Event>, l: RunExecution, r: RunExecution) returns (p: Paired)
    requires OnePerTask(baseline) && OnePerTask(candidate) && Compares(c, baseline, candidate, traces)
    requires l in baseline && r in candidate && l.taskId == r.taskId
    ensures p in c.results && Reports(p, l, r, traces)
  {
    hide Less, Pairs;
    assert Shared(l.taskId, baseline, candidate);
    var k :| 0 <= k < |c.results| && c.results[k].taskId == l.taskId;
    p := c.results[k];
    var m, n :| m in baseline && n in candidate && Pairs(p, m, n, traces);
    PairReports(p, m, n, traces);
    hide Attributes, IsRounded, DispositionOf;
    assert m == l && n == r;
  }

  lemma SameTasks(c: RunComparison, baseline: seq<RunExecution>, candidate: seq<RunExecution>,
                  traces: Id -> seq<Event>, d: Disposition, before: bool, after: bool)
    requires OnePerTask(baseline) && OnePerTask(candidate) && Compares(c, baseline, candidate, traces)
    requires (d, before, after) == (REGRESSION, true, false) || (d, before, after) == (IMPROVEMENT, false, true)
    ensures TasksWith(c.results, d) == TasksThat(baseline, candidate, before, after)
  {
    hide Less, Pairs, Attributes, IsRounded, Compares;
    forall id | id in TasksWith(c.results, d) ensures id in TasksThat(baseline, candidate, before, after) {
      var p :| p in c.results && p.disposition == d && p.taskId == id;
      var l, r := PairOf(c, baseline, candidate, traces, p);
    }
    forall id | id in TasksThat(baseline, candidate, before, after) ensures id in TasksWith(c.results, d) {
      var l, r :| l in baseline && r in candidate && l.taskId == r.taskId == id
                  && l.passed == Some(before) && r.passed == Some(after);
      var p := ResultOf(c, baseline, candidate, traces, l, r);
    }
  }

  lemma PairOf(c: RunComparison, baseline: seq<RunExecution>, candidate: seq<RunExecution>,
               traces: Id -> seq<Event>, p: Paired) returns (l: RunExecution, r: RunExecution)
    requires Compares(c, baseline, candidate, traces) && p in c.results
    ensures l in baseline && r in candidate && Reports(p, l, r, traces)
  {
    hide Less, Pairs, Reports;
    l, r :| l in baseline && r in candidate && Pairs(p, l, r, traces);
    PairReports(p, l, r, traces);
  }

  // ---------------------------------------------------------------- comparing the other way round

  function Opposite(d: Disposition): Disposition {
    match d
    case REGRESSION => IMPROVEMENT
    case IMPROVEMENT => REGRESSION
    case _ => d
  }

  lemma ListedIffShared(c: RunComparison, a: seq<RunExecution>, b: seq<RunExecution>, traces: Id -> seq<Event>,
                        id: string)
    requires Compares(c, a, b, traces)
    ensures Listed(id, c.results) <==> Shared(id, a, b)
  {
    if Listed(id, c.results) {
      var k :| 0 <= k < |c.results| && c.results[k].taskId == id;
      var l, r :| l in a && r in b && Pairs(c.results[k], l, r, traces);
    }
  }

  /** Two lists in strictly ascending order of task id that list the same tasks list them
      at the same places. */
  lemma {:induction false} SamePlaces(r: seq<Paired>, s: seq<Paired>)
    requires Ascending(r) && Ascending(s) && forall id :: Listed(id, r) <==> Listed(id, s)
    ensures |r| == |s| && forall k | 0 <= k < |r| :: r[k].taskId == s[k].taskId
  {
    hide Less;
    if r == [] {
      assert s == [] || Listed(s[0].taskId, s);
    } else {
      assert Listed(r[0].taskId, r);
      var j :| 0 <= j < |s| && s[j].taskId == r[0].taskId;
      assert Listed(s[0].taskId, s);
      var i :| 0 <= i < |r| && r[i].taskId == s[0].taskId;
      LessIsTotal(r[0].taskId, s[0].taskId);
      assert r[0].taskId == s[0].taskId;
      TailLists(r);
      TailLists(s);
      SamePlaces(r[1..], s[1..]);
    }
  }

  lemma TailLists(r: seq<Paired>)
    requires r != [] && Ascending(r)
    ensures forall id :: Listed(id, r[1..]) <==> Listed(id, r) && id != r[0].taskId
  {
    hide Less;
    forall id ensures Listed(id, r[1..]) <==> Listed(id, r) && id != r[0].taskId {
      if Listed(id, r[1..]) {
        var k :| 0 <= k < |r[1..]| && r[1..][k].taskId == id;
        assert r[k + 1].taskId == id;
        LessIsTotal(r[0].taskId, id);
      }
      if Listed(id, r) && id != r[0].taskId {
        var k :| 0 <= k < |r| && r[k].taskId == id;
        assert r[1..][k - 1].taskId == id;
      }
    }
  }

  lemma {:induction false} TallyOpposite(r: seq<Paired>, s: seq<Paired>, d: Disposition)
    requires |r| == |s| && forall k | 0 <= k < |r| :: s[k].disposition == Opposite(r[k].disposition)
    ensures Tally(s, Opposite(d)) == Tally(r, d)
  {
    if r != [] {
      TallyOpposite(r[..|r| - 1], s[..|s| - 1], d);
    }
  }

  /** q is p seen from the other side. */
  ghost predicate Flips(p: Paired, q: Paired) {
    && q.taskId == p.taskId && q.disposition == Opposite(p.disposition)
    && q.baseline == p.candidate && q.candidate == p.baseline
    && q.baselinePassed == p.candidatePassed && q.candidatePassed == p.baselinePassed
    && q.latencyDelta == (if p.latencyDelta.Some? then Some(-p.latencyDelta.value) else None)
    && q.costDelta == (if p.costDelta.Some? then Some(-p.costDelta.value) else None)
  }

  lemma PairFlips(p: Paired, q: Paired, l: RunExecution, r: RunExecution, traces: Id -> seq<Event>)
    requires Pairs(p, l, r, traces) && Pairs(q, r, l, traces)
    ensures Flips(p, q)
  {
    hide CostDelta, Attributes;
    CostDeltaFlips(l.costUsd, r.costUsd);
    CostDeltaFlips(r.costUsd, l.costUsd);
  }

  /** Main result: comparing the other way round lists the same tasks, turns every
      regression into an improvement and the reverse, and negates the deltas. */
  lemma SwapRuns(c: RunComparison, d: RunComparison, a: seq<RunExecution>, b: seq<RunExecution>,
                 traces: Id -> seq<Event>)
    requires OnePerTask(a) && OnePerTask(b) && Compares(c, a, b, traces) && Compares(d, b, a, traces)
    ensures c.regressions == d.improvements && c.improvements == d.regressions && |c.results| == |d.results|
    ensures forall k | 0 <= k < |c.results| :: Flips(c.results[k], d.results[k])
  {
    forall id ensures Listed(id, c.results) <==> Listed(id, d.results) {
      ListedIffShared(c, a, b, traces, id);
      ListedIffShared(d, b, a, traces, id);
    }
    SamePlaces(c.results, d.results);
    forall k | 0 <= k < |c.results| ensures Flips(c.results[k], d.results[k]) {
      var l, r :| l in a && r in b && Pairs(c.results[k], l, r, traces);
      var m, n :| m in b && n in a && Pairs(d.results[k], m, n, traces);
      assert l == n && r == m by {
        hide Attributes, CostDelta, Delta;
      }
      hide Pairs, Flips;
      PairFlips(c.results[k], d.results[k], l, r, traces);
    }
    TallyOpposite(c.results, d.results, REGRESSION);
    TallyOpposite(c.results, d.results, IMPROVEMENT);
  }
}
