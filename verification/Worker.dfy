/** runner/worker.py: one worker, processing jobs until the queue is empty. */
module Worker {
  import opened Json
  import opened Schema
  import opened TraceModel
  import opened Runner
  import opened Store
  import opened StorageRoundTrip
  import opened JobQueue
  import opened Scoring
  import Conversation
  import Oracle
  import RunProperties
  import Services

  const DEFAULT_MAX_STEPS := 20
  const DEFAULT_MAX_MODEL_RETRIES := 2

  /** What the surroundings decide about one attempt at a job: the identifiers, durations
      and error texts of its run, and what the judges do. */
  datatype Choices = Choices(
    ids: nat -> Id, clock: nat -> nat, describe: (ToolCall, Services.ToolError) -> string, judges: Judges)

  /** No judges are configured; or one of them raises, before any verdict is stored; or they
      all answer. */
  datatype Judges = NoJudges | JudgesRaise | JudgesSay(verdicts: seq<JudgeVerdict>)

  /** The verdicts that get stored: those before the first that its schema rejects. */
  function Storable(verdicts: seq<JudgeVerdict>): seq<JudgeVerdict> {
    if verdicts == [] || !IsVerdict(verdicts[0]) then [] else [verdicts[0]] + Storable(verdicts[1..])
  }

  /** They are the longest prefix of verdicts within the bounds of the schema. */
  lemma {:induction false} StorablePrefix(verdicts: seq<JudgeVerdict>)
    ensures var n := |Storable(verdicts)|;
      && Storable(verdicts) <= verdicts
      && (forall i | 0 <= i < n :: WithinBounds(verdicts[i]))
      && (n < |verdicts| ==> !WithinBounds(verdicts[n]))
  {
    if verdicts != [] {
      StorablePrefix(verdicts[1..]);
    }
  }

  /** A named judge and rubric of at most 120 and 40 characters, a confidence from 0 to 1, and
      a reason. */
  ghost predicate WithinBounds(v: JudgeVerdict) {
    && v.judgeName != "" && |v.judgeName| < 121 && v.rubricVersion != "" && |v.rubricVersion| < 41
    && !(v.confidence < 0.0) && !(v.confidence > 1.0) && |v.rationale| > 0
  }

  function StoredVerdicts(judges: Judges): seq<JudgeVerdict> {
    if judges.JudgesSay? then Storable(judges.verdicts) else []
  }

  predicate JudgesSucceed(judges: Judges) {
    judges.NoJudges? || (judges.JudgesSay? && forall v | v in judges.verdicts :: IsVerdict(v))
  }

  /** Judging succeeds exactly when there are no judges, or they all answer within the bounds;
      what is stored of their answers is the prefix above, and nothing when one raises. */
  lemma JudgingMeans(judges: Judges)
    ensures match judges
      case NoJudges => JudgesSucceed(judges) && StoredVerdicts(judges) == []
      case JudgesRaise => !JudgesSucceed(judges) && StoredVerdicts(judges) == []
      case JudgesSay(verdicts) =>
        && (JudgesSucceed(judges) <==> forall v | v in verdicts :: WithinBounds(v))
        && StoredVerdicts(judges) == Storable(verdicts)
  {
  }

  type Registry = map<string, Task>

  /** The run a worker makes: the reference agent on the task, under this version. */
  function ConfigOf(version: AgentVersion, task: Task, choices: Choices): Config {
    Config(version.content.systemPrompt, version.content.model, task.input, task.initial,
           (k: nat) => Reply(Oracle.ReplyTo(task.expected, k)), choices.ids, choices.clock, choices.describe,
           DEFAULT_MAX_STEPS, DEFAULT_MAX_MODEL_RETRIES)
  }

  // ---------------------------------------------------------------- writing a trace

  /** Appending events one by one until the first duplicate; whether all were written. */
  function WriteAll(held: seq<Event>, incoming: seq<Event>): (seq<Event>, bool)
    decreases incoming
  {
    if incoming == [] then (held, true)
    else if Holds(held, incoming[0].sequenceNo) then (held, false)
    else WriteAll(Appended(held, incoming[0]), incoming[1..])
  }

  /** An execution that already holds a first event turns every later attempt away whole:
      the first event is the lock. */
  lemma FirstEventLocks(held: seq<Event>, incoming: seq<Event>)
    requires incoming != [] && incoming[0].sequenceNo == 0
    ensures Holds(held, 0) <==> WriteAll(held, incoming).0 == held
    ensures Holds(held, 0) ==> !WriteAll(held, incoming).1
  {
    if !Holds(held, 0) {
      WriteAllGrows(Appended(held, incoming[0]), incoming[1..]);
      SortedIsSorted(held + [RedactEvent(incoming[0])]);
      assert |multiset(Appended(held, incoming[0]))| == |Appended(held, incoming[0])|;
    }
  }

  lemma {:induction false} WriteAllGrows(held: seq<Event>, incoming: seq<Event>)
    ensures |WriteAll(held, incoming).0| >= |held|
    decreases incoming
  {
    if incoming != [] && !Holds(held, incoming[0].sequenceNo) {
      SortedIsSorted(held + [RedactEvent(incoming[0])]);
      assert |multiset(Appended(held, incoming[0]))| == |Appended(held, incoming[0])|;
      WriteAllGrows(Appended(held, incoming[0]), incoming[1..]);
    }
  }

  /** An attempt that finds the execution empty writes its whole trace, redacted. */
  lemma WriteAllFromEmpty(events: seq<Event>)
    requires Numbered(events)
    ensures WriteAll([], events) == (RedactEvents(events), true)
  {
    assert events[..0] == [] && RedactEvents(events[..0]) == [] && events[0..] == events;
    WriteRest(events, 0);
  }

  lemma {:induction false} WriteRest(events: seq<Event>, k: nat)
    requires Numbered(events) && k <= |events|
    ensures WriteAll(RedactEvents(events[..k]), events[k..]) == (RedactEvents(events), true)
    decreases |events| - k
  {
    var held := RedactEvents(events[..k]);
    if k == |events| {
      assert events[..k] == events;
    } else {
      assert !Holds(held, k);
      var more := held + [RedactEvent(events[k])];
      assert more == RedactEvents(events[..k + 1]);
      SortedOfAscending(more);
      assert events[k..][1..] == events[k + 1..];
      WriteRest(events, k + 1);
    }
  }

  // ---------------------------------------------------------------- one job

  /** The job names a known task and version, and its run completes. */
  ghost predicate Starts(versions: map<Id, AgentVersion>, registry: Registry, job: Job, choices: Choices) {
    && job.taskId in registry && job.version in versions
    && Run(ConfigOf(versions[job.version], registry[job.taskId], choices)).Completed?
  }

  /** What a store holds of one execution. */
  datatype Slot = Slot(execution: Option<Execution>, events: seq<Event>)

  /** The executions of a store and their traces, as values. */
  datatype Shelf = Shelf(executions: map<Id, Execution>, traces: map<Id, seq<Event>>)

  function SlotAt(shelf: Shelf, e: Id): Slot {
    Slot(if e in shelf.executions then Some(shelf.executions[e]) else None,
         if e in shelf.traces then shelf.traces[e] else [])
  }

  function ShelfOf(store: PlatformStore): Shelf
    reads store`executions, store`eventsByExecution
  {
    Shelf(store.executions, store.eventsByExecution)
  }

  lemma OnTheShelf(store: PlatformStore, e: Id)
    ensures SlotAt(ShelfOf(store), e).events == store.Events(e)
    ensures SlotAt(ShelfOf(store), e).execution == if e in store.executions then Some(store.executions[e]) else None
  {
  }

  /** What the job succeeds on: it starts, the execution is there and open and lets the whole
      trace in, and the judges, if any, all answer. */
  ghost predicate Succeeds(versions: map<Id, AgentVersion>, registry: Registry, slot: Slot, job: Job,
                           choices: Choices)
  {
    && Starts(versions, registry, job, choices)
    && slot.execution.Some? && !Terminal(slot.execution.value.status)
    && WriteAll(slot.events, TraceOf(versions, registry, job, choices)).1
    && JudgesSucceed(choices.judges)
  }

  /** The events a job that starts is to store. */
  function TraceOf(versions: map<Id, AgentVersion>, registry: Registry, job: Job, choices: Choices): seq<Event>
    requires job.taskId in registry && job.version in versions
  {
    ToStorage(Run(ConfigOf(versions[job.version], registry[job.taskId], choices)).at.steps)
  }

  /** Nothing succeeds on this any more. */
  ghost predicate Locked(slot: Slot) {
    slot.execution.None? || Holds(slot.events, 0)
  }

  lemma TraceStartsAtZero(versions: map<Id, AgentVersion>, registry: Registry, job: Job, choices: Choices)
    requires Starts(versions, registry, job, choices)
    ensures var events := TraceOf(versions, registry, job, choices); events != [] && events[0].sequenceNo == 0
  {
    var cfg := ConfigOf(versions[job.version], registry[job.taskId], choices);
    RunProperties.TraceNotEmpty(cfg);
    RunProperties.TraceGrammar(cfg);
    hide Run, ConfigOf;
  }

  lemma TraceIsNumbered(versions: map<Id, AgentVersion>, registry: Registry, job: Job, choices: Choices)
    requires Starts(versions, registry, job, choices)
    ensures Numbered(TraceOf(versions, registry, job, choices))
  {
    RunProperties.TraceGrammar(ConfigOf(versions[job.version], registry[job.taskId], choices));
    hide Run, ConfigOf;
  }

  /** The events among these that were not held before ask the model of this version, with its
      prompt and with the input of this task. */
  ghost predicate NewOnesAskUnder(events: seq<Event>, held: seq<Event>, version: AgentVersion, task: Task) {
    forall x | x in events && x !in held && x.eventType == MODEL_REQUEST ::
      Conversation.AsksUnder(x, version.content.model, version.content.systemPrompt, task.input)
  }

  /** Main result: all model requests a job adds to the stored trace name the model of the
      version the job names, and begin with that version's prompt and the task's input; and
      the whole trace of a job begins with such a request. */
  lemma WrittenUnderVersion(versions: map<Id, AgentVersion>, registry: Registry, job: Job, choices: Choices,
                            held: seq<Event>)
    requires Starts(versions, registry, job, choices)
    ensures var version, task := versions[job.version], registry[job.taskId];
      var trace := TraceOf(versions, registry, job, choices);
      && NewOnesAskUnder(WriteAll(held, trace).0, held, version, task)
      && Conversation.AllAskUnder(RedactEvents(trace), version.content.model, version.content.systemPrompt, task.input)
  {
    var cfg := ConfigOf(versions[job.version], registry[job.taskId], choices);
    Conversation.StoredRequests(cfg);
    hide Run, Conversation.AsksUnder;
    WriteAllAdds(held, TraceOf(versions, registry, job, choices));
    hide WriteAll, RedactEvents;
  }

  lemma {:induction false} WriteAllAdds(held: seq<Event>, incoming: seq<Event>)
    ensures forall x | x in WriteAll(held, incoming).0 :: x in held || x in RedactEvents(incoming)
    decreases incoming
  {
    if incoming != [] && !Holds(held, incoming[0].sequenceNo) {
      var e, rest := incoming[0], incoming[1..];
      WriteAllAdds(Appended(held, e), rest);
      SortedIsSorted(held + [RedactEvent(e)]);
      hide Sorted, Holds, RedactEvent;
      assert RedactEvents(incoming) == [RedactEvent(e)] + RedactEvents(rest);
      forall x | x in Appended(held, e) ensures x in held || x == RedactEvent(e) {
        assert x in multiset(Appended(held, e)) && x in multiset(held + [RedactEvent(e)]);
      }
    }
  }

  lemma LockedNeverSucceeds(versions: map<Id, AgentVersion>, registry: Registry, slot: Slot, job: Job, choices: Choices)
    requires Locked(slot)
    ensures !Succeeds(versions, registry, slot, job, choices)
  {
    hide Run, ConfigOf, WriteAll, TraceOf;
    if Starts(versions, registry, job, choices) && slot.execution.Some? {
      TraceStartsAtZero(versions, registry, job, choices);
      FirstEventLocks(slot.events, TraceOf(versions, registry, job, choices));
    }
  }

  /** Writing a trace leaves a first event behind, its own or the one that refused it. */
  lemma {:induction false} WritingLocks(held: seq<Event>, incoming: seq<Event>)
    requires Holds(held, 0) || (incoming != [] && incoming[0].sequenceNo == 0)
    ensures Holds(WriteAll(held, incoming).0, 0)
    decreases incoming
  {
    if incoming != [] && !Holds(held, incoming[0].sequenceNo) {
      AppendedHolds(held, incoming[0]);
      WritingLocks(Appended(held, incoming[0]), incoming[1..]);
    }
  }

  lemma AppendedHolds(held: seq<Event>, e: Event)
    ensures Holds(held, 0) || e.sequenceNo == 0 ==> Holds(Appended(held, e), 0)
  {
    var all, r := held + [RedactEvent(e)], Appended(held, e);
    SortedIsSorted(all);
    hide Sorted;
    if Holds(held, 0) || e.sequenceNo == 0 {
      assert all[|held|].sequenceNo == e.sequenceNo && forall i | 0 <= i < |held| :: all[i] == held[i];
      var i :| 0 <= i < |all| && all[i].sequenceNo == 0;
      assert all[i] in multiset(all) && all[i] in multiset(r);
      var j :| 0 <= j < |r| && r[j] == all[i];
    }
  }

  /** `process_job`; false when it raises. A job that starts writes its trace up to the
      first duplicate, and only one that writes all of it to an execution still open
      finalizes that execution, with the score of this very run. Only then are verdicts
      stored, and the job succeeds when all of them are. */
  method ProcessJob(store: PlatformStore, registry: Registry, job: Job, choices: Choices) returns (ok: bool)
    requires store.Valid()
    modifies store`executions, store`eventsByExecution, store`verdictsByExecution
    ensures store.Valid()
    ensures forall e | e != job.execution :: store.Verdicts(e) == old(store.Verdicts(e))
    ensures !Starts(store.agentVersions, registry, job, choices) || job.execution !in old(store.executions)
        ==> !ok && store.executions == old(store.executions)
            && store.Verdicts(job.execution) == old(store.Verdicts(job.execution))
            && forall e :: store.Events(e) == old(store.Events(e))
    ensures Starts(store.agentVersions, registry, job, choices) && job.execution in old(store.executions) ==>
        var task := registry[job.taskId];
        var end := Run(ConfigOf(store.agentVersions[job.version], task, choices));
        var (written, all) := WriteAll(old(store.Events(job.execution)), ToStorage(end.at.steps));
        var execution := old(store.executions)[job.execution];
        var finalizes := all && !Terminal(execution.status);
        var result := ScoreExecution(task, end);
        && store.Events(job.execution) == written
        && NewOnesAskUnder(written, old(store.Events(job.execution)), store.agentVersions[job.version], task)
        && (forall e | e != job.execution :: store.Events(e) == old(store.Events(e)))
        && store.executions == (if finalizes
             then old(store.executions)[job.execution := execution.(status := result.status, result := Some(result))]
             else old(store.executions))
        && store.Verdicts(job.execution)
           == old(store.Verdicts(job.execution)) + (if finalizes then StoredVerdicts(choices.judges) else [])
        && ok == (finalizes && JudgesSucceed(choices.judges))
    ensures ok <==> Succeeds(store.agentVersions, registry, SlotAt(old(ShelfOf(store)), job.execution), job, choices)
  {
    hide Run, ToStorage, ConfigOf, ScoreExecution, Appended, WriteAll, NewOnesAskUnder, Conversation.AllAskUnder,
      PlatformStore.Valid, PlatformStore.Events,
      PlatformStore.Verdicts, Storable, IsVerdict, SlotAt, ShelfOf;
    OnTheShelf(store, job.execution);
    if job.taskId !in registry {
      return false;
    }
    if job.version !in store.agentVersions {
      return false;
    }
    var task := registry[job.taskId];
    var end := RunTask(ConfigOf(store.agentVersions[job.version], task, choices));
    if end.Raised? {
      return false;
    }
    var events := ToStorage(end.at.steps);
    WrittenUnderVersion(store.agentVersions, registry, job, choices, store.Events(job.execution));
    TraceNotEmpty(registry, store.agentVersions[job.version], task, choices);
    var stored := StoreTrace(store, job.execution, events);
    if !stored {
      return false;
    }
    var answer := store.RecordResult(job.execution, ScoreExecution(task, end));
    if !answer.Done? {
      return false;
    }
    match choices.judges {
      case NoJudges => return true;
      case JudgesRaise => return false;
      case JudgesSay(verdicts) => ok := StoreVerdicts(store, job.execution, verdicts);
    }
  }

  /** The loop of `process_job` over the verdicts. */
  method StoreVerdicts(store: PlatformStore, execution: Id, verdicts: seq<JudgeVerdict>) returns (ok: bool)
    requires store.Valid() && execution in store.executions
    modifies store`verdictsByExecution
    ensures store.Valid()
    ensures store.Verdicts(execution) == old(store.Verdicts(execution)) + Storable(verdicts)
    ensures forall e | e != execution :: store.Verdicts(e) == old(store.Verdicts(e))
    ensures ok <==> forall v | v in verdicts :: IsVerdict(v)
  {
    hide PlatformStore.Valid, PlatformStore.Verdicts, IsVerdict;
    for i := 0 to |verdicts|
      invariant store.Valid()
      invariant store.Verdicts(execution) + Storable(verdicts[i..])
             == old(store.Verdicts(execution)) + Storable(verdicts)
      invariant forall e | e != execution :: store.Verdicts(e) == old(store.Verdicts(e))
      invariant forall v | v in verdicts[..i] :: IsVerdict(v)
    {
      assert verdicts[i..][0] == verdicts[i] && verdicts[i..][1..] == verdicts[i + 1..];
      assert verdicts[i] in verdicts;
      if !IsVerdict(verdicts[i]) {
        return false;
      }
      var _ := store.AppendJudgeVerdict(execution, verdicts[i]);
      assert verdicts[..i + 1] == verdicts[..i] + [verdicts[i]];
    }
    assert verdicts[..|verdicts|] == verdicts;
    return true;
  }

  lemma TraceNotEmpty(registry: Registry, version: AgentVersion, task: Task, choices: Choices)
    ensures var end := Run(ConfigOf(version, task, choices)); end.Completed? ==> ToStorage(end.at.steps) != []
  {
    RunProperties.TraceNotEmpty(ConfigOf(version, task, choices));
  }

  /** The loop of `process_job` over the events. */
  method StoreTrace(store: PlatformStore, execution: Id, events: seq<Event>) returns (ok: bool)
    requires store.Valid() && events != []
    modifies store`eventsByExecution
    ensures store.Valid()
    ensures forall e | e != execution :: store.Events(e) == old(store.Events(e))
    ensures execution !in store.executions ==> !ok && store.Events(execution) == old(store.Events(execution))
    ensures execution in store.executions ==>
        (store.Events(execution), ok) == WriteAll(old(store.Events(execution)), events)
  {
    hide Appended;
    for i := 0 to |events|
      invariant store.Valid()
      invariant forall e | e != execution :: store.Events(e) == old(store.Events(e))
      invariant execution !in store.executions ==> i == 0 && store.Events(execution) == old(store.Events(execution))
      invariant WriteAll(store.Events(execution), events[i..]) == WriteAll(old(store.Events(execution)), events)
    {
      assert events[i..][0] == events[i] && events[i..][1..] == events[i + 1..];
      var answer := store.AppendTraceEvent(execution, events[i]);
      if !answer.Done? {
        return false;
      }
    }
    return true;
  }

  // ---------------------------------------------------------------- the accounts of the loop

  /** A job without its attempt number: what stays the same across retries. */
  function Origin(e: Entry): Entry {
    e.(job := e.job.(attempt := 1))
  }

  function Origins(es: seq<Entry>): multiset<Entry> {
    multiset(seq(|es|, i requires 0 <= i < |es| => Origin(es[i])))
  }

  function Attempts(es: seq<Entry>): nat {
    if es == [] then 0 else es[0].job.attempt + Attempts(es[1..])
  }

  /** How many claims these entries can still lead to. */
  function TotalBudget(es: seq<Entry>, maxAttempts: int): nat {
    if es == [] then 0 else Budget(es[0].job.attempt, maxAttempts) + TotalBudget(es[1..], maxAttempts)
  }

  lemma {:induction false} Concat(a: seq<Entry>, b: seq<Entry>, maxAttempts: int)
    ensures Origins(a + b) == Origins(a) + Origins(b)
    ensures Attempts(a + b) == Attempts(a) + Attempts(b)
    ensures TotalBudget(a + b, maxAttempts) == TotalBudget(a, maxAttempts) + TotalBudget(b, maxAttempts)
  {
    OriginsConcat(a, b);
    if a == [] {
      assert a + b == b;
    } else {
      Concat(a[1..], b, maxAttempts);
      assert (a + b)[1..] == a[1..] + b;
    }
  }

  lemma OriginsConcat(a: seq<Entry>, b: seq<Entry>)
    ensures Origins(a + b) == Origins(a) + Origins(b)
  {
    var all := seq(|a + b|, i requires 0 <= i < |a + b| => Origin((a + b)[i]));
    assert all == seq(|a|, i requires 0 <= i < |a| => Origin(a[i])) + seq(|b|, i requires 0 <= i < |b| => Origin(b[i]));
  }

  lemma One(e: Entry, maxAttempts: int)
    ensures Origins([e]) == multiset{Origin(e)} && Attempts([e]) == e.job.attempt
    ensures TotalBudget([e], maxAttempts) == Budget(e.job.attempt, maxAttempts)
  {
    assert seq(|[e]|, i requires 0 <= i < |[e]| => Origin([e][i])) == [Origin(e)];
  }

  /** The accounts of a worker that found the entries `start` waiting: every job is still
      waiting, done or dead-lettered, exactly once; the number of jobs processed is the
      number of attempts used; and no job is claimed beyond its budget. */
  ghost predicate Balanced(start: seq<Entry>, left: seq<Entry>, done: seq<Entry>, buried: seq<Entry>,
                           processed: nat, maxAttempts: int) {
    && Origins(start) == Origins(left) + Origins(done) + Origins(buried)
    && processed + Attempts(start) == Attempts(left) + Attempts(done) + |done| + Attempts(buried) + |buried|
    && processed + TotalBudget(left, maxAttempts) <= TotalBudget(start, maxAttempts)
    && (forall e | e in buried :: e.job.attempt >= maxAttempts)
    && ((forall e | e in start :: e.job.attempt <= maxAttempts) ==>
          (forall e | e in left :: e.job.attempt <= maxAttempts)
          && (forall e | e in buried :: e.job.attempt == maxAttempts))
  }

  lemma StartsBalanced(start: seq<Entry>, maxAttempts: int)
    ensures Balanced(start, start, [], [], 0, maxAttempts)
  {
  }

  lemma SameOrigin(e: Entry)
    ensures Origin(Retried(e)) == Origin(e)
  {
  }

  /** What the first waiting entry contributes to each account. */
  lemma HeadCounts(left: seq<Entry>, maxAttempts: int)
    requires left != []
    ensures Origins(left) == Origins(left[1..]) + multiset{Origin(left[0])}
    ensures Attempts(left) == Attempts(left[1..]) + left[0].job.attempt
    ensures TotalBudget(left, maxAttempts)
         == TotalBudget(left[1..], maxAttempts) + Budget(left[0].job.attempt, maxAttempts)
  {
    One(left[0], maxAttempts);
    OriginsConcat([left[0]], left[1..]);
    assert left == [left[0]] + left[1..];
  }

  lemma SnocCounts(es: seq<Entry>, e: Entry, maxAttempts: int)
    ensures Origins(es + [e]) == Origins(es) + multiset{Origin(e)}
    ensures Attempts(es + [e]) == Attempts(es) + e.job.attempt
    ensures TotalBudget(es + [e], maxAttempts) == TotalBudget(es, maxAttempts) + Budget(e.job.attempt, maxAttempts)
  {
    One(e, maxAttempts);
    Concat(es, [e], maxAttempts);
  }

  /** However the attempt at the first waiting job ends, the accounts stay balanced. */
  lemma StaysBalanced(start: seq<Entry>, left: seq<Entry>, done: seq<Entry>, buried: seq<Entry>,
                      processed: nat, maxAttempts: int)
    requires Balanced(start, left, done, buried, processed, maxAttempts) && left != []
    ensures Balanced(start, left[1..], done + [left[0]], buried, processed + 1, maxAttempts)
    ensures left[0].job.attempt >= maxAttempts
        ==> Balanced(start, left[1..], done, buried + [left[0]], processed + 1, maxAttempts)
    ensures left[0].job.attempt < maxAttempts
        ==> Balanced(start, left[1..] + [Retried(left[0])], done, buried, processed + 1, maxAttempts)
  {
    hide Origins, Origin, Attempts, TotalBudget;
    var e, rest := left[0], left[1..];
    assert e in left;
    HeadCounts(left, maxAttempts);
    SnocCounts(done, e, maxAttempts);
    SnocCounts(buried, e, maxAttempts);
    SnocCounts(rest, Retried(e), maxAttempts);
    SameOrigin(e);
  }

  // ---------------------------------------------------------------- the loop

  /** `claim_and_process_one`. The first waiting job is taken. On success, which is decided
      by what the store holds of its execution, it is acknowledged and leaves the execution
      finalized; otherwise it is retried or dead-lettered. A job that starts locks its
      execution either way; no other execution is touched. */
  method ClaimAndProcessOne(store: PlatformStore, queue: Queue, registry: Registry, choices: Choices)
    returns (did: bool, ghost finished: bool)
    requires store.Valid() && queue.Valid()
    modifies store`executions, store`eventsByExecution, store`verdictsByExecution
    modifies queue`stream, queue`cursor, queue`pending, queue`dead
    ensures store.Valid() && queue.Valid()
    ensures did <==> old(Undelivered(queue.View())) != []
    ensures !did ==> queue.View() == old(queue.View()) && store.executions == old(store.executions)
    ensures did ==>
        var e := old(Undelivered(queue.View()))[0];
        var taken := old(queue.View()).(cursor := old(queue.cursor) + 1);
        && queue.View() == (if finished then taken else Requeued(taken, e, queue.maxAttempts))
        && (finished ==> IsFinal(store.executions, e.job.execution))
        && Tries(store.agentVersions, registry, old(ShelfOf(store)), ShelfOf(store), e.job, choices, finished)
    ensures StaysFinal(old(store.executions), store.executions)
  {
    hide ConfigOf, ScoreExecution, PlatformStore.Valid, WriteAll, ToStorage, Run, Starts, Succeeds, Holds,
      SlotAt, ShelfOf, PlatformStore.Events;
    finished := false;
    var claimed := queue.Claim();
    if claimed.None? {
      return false, false;
    }
    var e := queue.stream[claimed.value];
    assert e == old(Undelivered(queue.View()))[0];
    ghost var was := ShelfOf(store);
    forall x { OnTheShelf(store, x); }
    var ok := ProcessJob(store, registry, e.job, choices);
    ghost var now := ShelfOf(store);
    forall x { OnTheShelf(store, x); }
    if Starts(store.agentVersions, registry, e.job, choices) {
      StartedLocks(store.agentVersions, registry, SlotAt(was, e.job.execution).events, e.job, choices);
    }
    assert Tries(store.agentVersions, registry, was, now, e.job, choices, ok);
    if !ok {
      var _ := queue.RetryOrDeadletter(claimed.value, e);
    } else {
      queue.Ack(claimed.value);
      finished := true;
    }
    assert queue.pending == old(queue.pending);
    return true, finished;
  }

  /** One attempt, from `was` to `now`: it succeeds as what `was` holds of its execution
      decides; if it starts its execution is locked, and nothing else changes. */
  ghost predicate Tries(versions: map<Id, AgentVersion>, registry: Registry, was: Shelf, now: Shelf, job: Job,
                        choices: Choices, outcome: bool)
  {
    && (outcome <==> Succeeds(versions, registry, SlotAt(was, job.execution), job, choices))
    && (if Starts(versions, registry, job, choices) then Locked(SlotAt(now, job.execution))
        else SlotAt(now, job.execution) == SlotAt(was, job.execution))
    && forall e | e != job.execution :: SlotAt(now, e) == SlotAt(was, e)
  }

  lemma StartedLocks(versions: map<Id, AgentVersion>, registry: Registry, held: seq<Event>, job: Job, choices: Choices)
    requires Starts(versions, registry, job, choices)
    ensures Holds(WriteAll(held, TraceOf(versions, registry, job, choices)).0, 0)
  {
    hide Run, ConfigOf, WriteAll, Holds, TraceOf;
    TraceStartsAtZero(versions, registry, job, choices);
    WritingLocks(held, TraceOf(versions, registry, job, choices));
  }

  ghost predicate IsFinal(executions: map<Id, Execution>, e: Id) {
    e in executions && Terminal(executions[e].status)
  }

  ghost predicate AllFinal(executions: map<Id, Execution>, done: seq<Entry>) {
    forall e | e in done :: IsFinal(executions, e.job.execution)
  }

  /** No execution disappears, and none that is finalized changes. */
  ghost predicate StaysFinal(before: map<Id, Execution>, after: map<Id, Execution>) {
    forall e | e in before :: e in after && (Terminal(before[e].status) ==> after[e] == before[e])
  }

  lemma NoneFinal(executions: map<Id, Execution>)
    ensures StaysFinal(executions, executions) && AllFinal(executions, [])
  {
  }

  lemma StayFinal(first: map<Id, Execution>, before: map<Id, Execution>, after: map<Id, Execution>,
                  done: seq<Entry>, x: Entry)
    requires StaysFinal(first, before) && StaysFinal(before, after) && AllFinal(before, done)
    ensures StaysFinal(first, after) && AllFinal(after, done)
    ensures IsFinal(after, x.job.execution) ==> AllFinal(after, done + [x])
  {
  }

  /** Main result: `run_worker_loop` terminates. Without a limit it leaves nothing waiting
      and nothing of its own pending; with one it stops there or when the queue is empty.
      Its accounts balance, and every job it acknowledged as done has a finalized execution.
      The outcome of every attempt is determined: the k-th one succeeds exactly when it would
      succeed on the store as the worker found it and no attempt before it started at the
      same execution. */
  method RunWorkerLoop(store: PlatformStore, queue: Queue, registry: Registry, choices: nat -> Choices,
                       stopAfter: Option<int>)
    returns (processed: nat, ghost done: seq<Entry>, ghost outcomes: seq<bool>)
    requires store.Valid() && queue.Valid()
    modifies store`executions, store`eventsByExecution, store`verdictsByExecution
    modifies queue`stream, queue`cursor, queue`pending, queue`dead
    ensures store.Valid() && queue.Valid()
    ensures stopAfter.None? ==> Undelivered(queue.View()) == []
    ensures stopAfter.Some? ==> processed == 0 || processed <= stopAfter.value
    ensures stopAfter.Some? && processed < stopAfter.value ==> Undelivered(queue.View()) == []
    ensures queue.pending == old(queue.pending) && queue.cursor == old(queue.cursor) + processed
    ensures old(queue.dead) <= queue.dead
    ensures Balanced(old(Undelivered(queue.View())), Undelivered(queue.View()), done,
                     queue.dead[|old(queue.dead)|..], processed, queue.maxAttempts)
    ensures AllFinal(store.executions, done)
    ensures StaysFinal(old(store.executions), store.executions)
    ensures |outcomes| == processed
    ensures var taken := queue.stream[old(queue.cursor)..queue.cursor];
      && done == Chosen(taken, outcomes)
      && Determined(store.agentVersions, registry, old(ShelfOf(store)), taken, choices, outcomes)
  {
    hide Balanced, PlatformStore.Valid, Tries, Determined, Kept, Chosen, ShelfOf, SlotAt, Succeeds, Locked, Starts,
      Started, TotalBudget, ConfigOf, IsFinal, AllFinal, StaysFinal;
    processed, done, outcomes := 0, [], [];
    ghost var start, buried, taken := Undelivered(queue.View()), [], [];
    ghost var versions, was := store.agentVersions, ShelfOf(store);
    NoneTaken(versions, registry, was, choices);
    StartsBalanced(start, queue.maxAttempts);
    NoneFinal(store.executions);
    while stopAfter.None? || processed < stopAfter.value
      invariant store.Valid() && queue.Valid()
      invariant stopAfter.Some? ==> processed == 0 || processed <= stopAfter.value
      invariant queue.pending == old(queue.pending) && queue.cursor == old(queue.cursor) + processed
      invariant queue.dead == old(queue.dead) + buried
      invariant Balanced(start, Undelivered(queue.View()), done, buried, processed, queue.maxAttempts)
      invariant AllFinal(store.executions, done)
      invariant StaysFinal(old(store.executions), store.executions)
      invariant store.agentVersions == versions && |outcomes| == |taken| == processed
      invariant taken == queue.stream[old(queue.cursor)..queue.cursor] && done == Chosen(taken, outcomes)
      invariant Determined(versions, registry, was, taken, choices, outcomes)
      invariant Kept(versions, registry, was, ShelfOf(store), taken, choices)
      decreases TotalBudget(start, queue.maxAttempts) - processed
    {
      ghost var left := Undelivered(queue.View());
      BudgetLeft(start, left, done, buried, processed, queue.maxAttempts);
      ghost var before, executions, stream := ShelfOf(store), store.executions, queue.stream;
      var did, finished := ClaimAndProcessOne(store, queue, registry, choices(processed));
      if !did {
        break;
      }
      OneMoreTried(versions, registry, was, before, ShelfOf(store), taken, left[0], choices, outcomes, finished);
      OneMoreChosen(taken, outcomes, left[0], finished);
      StayFinal(old(store.executions), executions, store.executions, done, left[0]);
      TakenGrows(stream, queue.stream, old(queue.cursor), queue.cursor - 1);
      taken, outcomes := taken + [left[0]], outcomes + [finished];
      StaysBalanced(start, left, done, buried, processed, queue.maxAttempts);
      if finished {
        done := done + [left[0]];
      } else if left[0].job.attempt >= queue.maxAttempts {
        buried := buried + [left[0]];
      } else {
        assert Undelivered(queue.View()) == left[1..] + [Retried(left[0])];
      }
      processed := processed + 1;
    }
  }

  lemma TakenGrows(stream: seq<Entry>, more: seq<Entry>, first: nat, cursor: nat)
    requires stream <= more && first <= cursor < |stream|
    ensures more[first..cursor + 1] == stream[first..cursor] + [stream[cursor]]
  {
  }

  /** Some attempt at e among these started; the k-th entry was tried with the k-th choices. */
  ghost predicate Started(versions: map<Id, AgentVersion>, registry: Registry, taken: seq<Entry>,
                          choices: nat -> Choices, e: Id)
  {
    exists m | 0 <= m < |taken| ::
      taken[m].job.execution == e && Starts(versions, registry, taken[m].job, choices(m))
  }

  /** Each attempt succeeds exactly when it would on the store as it was at first and no
      attempt before it started at the same execution. */
  ghost predicate Determined(versions: map<Id, AgentVersion>, registry: Registry, was: Shelf, taken: seq<Entry>,
                             choices: nat -> Choices, outcomes: seq<bool>)
  {
    && |outcomes| == |taken|
    && forall k | 0 <= k < |taken| ::
         outcomes[k] <==>
           && Succeeds(versions, registry, SlotAt(was, taken[k].job.execution), taken[k].job, choices(k))
           && !Started(versions, registry, taken[..k], choices, taken[k].job.execution)
  }

  /** The first attempt at an execution that was open and empty succeeds exactly when its job
      starts and its judges, if any, all answer. */
  lemma FirstAttempt(versions: map<Id, AgentVersion>, registry: Registry, was: Shelf, taken: seq<Entry>,
                     choices: nat -> Choices, outcomes: seq<bool>, k: nat)
    requires Determined(versions, registry, was, taken, choices, outcomes) && k < |taken|
    requires var slot := SlotAt(was, taken[k].job.execution);
      slot.execution.Some? && !Terminal(slot.execution.value.status) && slot.events == []
    requires forall m | 0 <= m < k :: taken[m].job.execution != taken[k].job.execution
    ensures outcomes[k] <==> Starts(versions, registry, taken[k].job, choices(k)) && JudgesSucceed(choices(k).judges)
  {
    hide Run, ConfigOf, WriteAll, Numbered, TraceOf, SlotAt, JudgesSucceed;
    if Starts(versions, registry, taken[k].job, choices(k)) {
      TraceIsNumbered(versions, registry, taken[k].job, choices(k));
      WriteAllFromEmpty(TraceOf(versions, registry, taken[k].job, choices(k)));
    }
  }

  /** Executions at which an attempt started are locked; the others are as they were. */
  ghost predicate Kept(versions: map<Id, AgentVersion>, registry: Registry, was: Shelf, now: Shelf, taken: seq<Entry>,
                       choices: nat -> Choices)
  {
    forall e :: if Started(versions, registry, taken, choices, e) then Locked(SlotAt(now, e))
                else SlotAt(now, e) == SlotAt(was, e)
  }

  lemma NoneTaken(versions: map<Id, AgentVersion>, registry: Registry, was: Shelf, choices: nat -> Choices)
    ensures Determined(versions, registry, was, [], choices, []) && Kept(versions, registry, was, was, [], choices)
    ensures Chosen([], []) == []
  {
  }

  lemma OneMoreTaken(versions: map<Id, AgentVersion>, registry: Registry, taken: seq<Entry>, x: Entry,
                     choices: nat -> Choices, e: Id)
    ensures Started(versions, registry, taken + [x], choices, e)
        <==> Started(versions, registry, taken, choices, e)
             || (x.job.execution == e && Starts(versions, registry, x.job, choices(|taken|)))
  {
    hide Starts;
    var more := taken + [x];
    assert more[|taken|] == x && forall m | 0 <= m < |taken| :: more[m] == taken[m];
    if m :| 0 <= m < |taken| && taken[m].job.execution == e && Starts(versions, registry, taken[m].job, choices(m)) {
      assert more[m].job.execution == e && Starts(versions, registry, more[m].job, choices(m));
    }
  }

  lemma OneMoreTried(versions: map<Id, AgentVersion>, registry: Registry, was: Shelf, before: Shelf, now: Shelf,
                     taken: seq<Entry>, x: Entry, choices: nat -> Choices, outcomes: seq<bool>, outcome: bool)
    requires Determined(versions, registry, was, taken, choices, outcomes)
    requires Kept(versions, registry, was, before, taken, choices)
    requires Tries(versions, registry, before, now, x.job, choices(|taken|), outcome)
    ensures Determined(versions, registry, was, taken + [x], choices, outcomes + [outcome])
    ensures Kept(versions, registry, was, now, taken + [x], choices)
  {
    hide Starts, Started, Succeeds, Locked, SlotAt;
    var more := taken + [x];
    forall e { OneMoreTaken(versions, registry, taken, x, choices, e); }
    if Locked(SlotAt(before, x.job.execution)) {
      LockedNeverSucceeds(versions, registry, SlotAt(before, x.job.execution), x.job, choices(|taken|));
    }
    assert more[..|taken|] == taken && forall k | 0 <= k < |taken| :: more[..k] == taken[..k];
  }

  /** The entries whose attempt succeeded. */
  ghost function Chosen(taken: seq<Entry>, outcomes: seq<bool>): seq<Entry>
    requires |taken| == |outcomes|
  {
    if taken == [] then []
    else
      var n := |taken| - 1;
      Chosen(taken[..n], outcomes[..n]) + if outcomes[n] then [taken[n]] else []
  }

  lemma OneMoreChosen(taken: seq<Entry>, outcomes: seq<bool>, x: Entry, outcome: bool)
    requires |taken| == |outcomes|
    ensures Chosen(taken + [x], outcomes + [outcome]) == Chosen(taken, outcomes) + if outcome then [x] else []
  {
    assert (taken + [x])[..|taken|] == taken && (outcomes + [outcome])[..|taken|] == outcomes;
  }

  lemma BudgetLeft(start: seq<Entry>, left: seq<Entry>, done: seq<Entry>, buried: seq<Entry>,
                   processed: nat, maxAttempts: int)
    requires Balanced(start, left, done, buried, processed, maxAttempts)
    ensures processed + |left| <= TotalBudget(start, maxAttempts)
  {
    EachCounts(left, maxAttempts);
  }

  lemma {:induction false} EachCounts(es: seq<Entry>, maxAttempts: int)
    ensures |es| <= TotalBudget(es, maxAttempts)
  {
    if es != [] {
      EachCounts(es[1..], maxAttempts);
    }
  }
}
