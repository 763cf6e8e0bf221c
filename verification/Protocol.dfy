/** The whole evaluation protocol: clients, queue, store and any number of workers, each of
    which claims a job, runs it, writes its trace and result, and then acknowledges, retries
    or dead-letters it (runner/worker.py, backend/app/queue.py, backend/app/postgres_store.py).
    Each state pairs a delivery state and a store state of the same workers. */
module Protocol {
  import opened Json
  import opened Schema
  import opened TraceModel
  import opened JobQueue
  import Conversation
  import Delivery
  import TraceLock
  import Runner
  import Store
  import Worker

  datatype State = State(delivery: Delivery.State, store: TraceLock.State)

  ghost predicate Init(s: State) {
    Delivery.Init(s.delivery) && TraceLock.Init(s.store)
  }

  /** What the names in a job refer to: the registered tasks and the stored agent versions. */
  datatype Registry = Registry(tasks: Worker.Registry, versions: map<Id, Store.AgentVersion>)

  /** The run is one a worker makes: the reference agent on the task under this version,
      with the default limits. */
  ghost predicate OfWorker(a: TraceLock.Attempt, version: Store.AgentVersion) {
    exists choices: Worker.Choices ::
      a.cfg == Worker.ConfigOf(version, a.task, choices) && (a.judged <==> !choices.judges.NoJudges?)
  }

  /** The attempt is a worker's at this job: at its execution, at the task it names and
      under the version it names. */
  ghost predicate AttemptAt(a: TraceLock.Attempt, job: Job, registry: Registry) {
    && a.execution == job.execution
    && job.taskId in registry.tasks && a.task == registry.tasks[job.taskId]
    && job.version in registry.versions && OfWorker(a, registry.versions[job.version])
  }

  // ---------------------------------------------------------------- steps

  ghost predicate Enqueues(s: State, t: State, job: Job) {
    Delivery.Enqueues(s.delivery, t.delivery, job) && t.store == s.store
  }

  ghost predicate Creates(s: State, t: State, e: Id) {
    TraceLock.Creates(s.store, t.store, e) && t.delivery == s.delivery
  }

  ghost predicate Spawns(s: State, t: State) {
    Delivery.Spawns(s.delivery, t.delivery) && TraceLock.Spawns(s.store, t.store)
  }

  /** `claim_and_process_one` claims an entry and turns to `process_job`. */
  ghost predicate Claims(s: State, t: State, w: nat) {
    Delivery.Claims(s.delivery, t.delivery, w) && TraceLock.Takes(s.store, t.store, w)
  }

  /** A step of `process_job`. */
  ghost predicate Processes(s: State, t: State, w: nat, registry: Registry) {
    && t.delivery == s.delivery && w < |s.delivery.hands| && s.delivery.hands[w].Holding?
    && ((exists a :: AttemptAt(a, s.delivery.hands[w].entry.job, registry) && TraceLock.Starts(s.store, t.store, w, a))
        || TraceLock.Checks(s.store, t.store, w) || TraceLock.Inserts(s.store, t.store, w)
        || TraceLock.Reads(s.store, t.store, w) || TraceLock.Commits(s.store, t.store, w)
        || TraceLock.Confirms(s.store, t.store, w) || TraceLock.Judges(s.store, t.store, w)
        || TraceLock.Fails(s.store, t.store, w))
  }

  /** `process_job` has returned: the entry is acknowledged. */
  ghost predicate Acknowledges(s: State, t: State, w: nat) {
    && Delivery.Acknowledges(s.delivery, t.delivery, w)
    && w < |s.store.phases| && s.store.phases[w].Succeeded? && TraceLock.Leaves(s.store, t.store, w)
  }

  /** `process_job` has raised: the entry is acknowledged, to be retried or dead-lettered. */
  ghost predicate GivesUp(s: State, t: State, w: nat) {
    && Delivery.GivesUp(s.delivery, t.delivery, w)
    && w < |s.store.phases| && s.store.phases[w].Failing? && TraceLock.Leaves(s.store, t.store, w)
  }

  ghost predicate HandsOff(s: State, t: State, w: nat, maxAttempts: int) {
    && (Delivery.Retries(s.delivery, t.delivery, w, maxAttempts)
        || Delivery.Buries(s.delivery, t.delivery, w, maxAttempts))
    && t.store == s.store
  }

  ghost predicate Crashes(s: State, t: State, w: nat) {
    Delivery.Crashes(s.delivery, t.delivery, w) && TraceLock.Leaves(s.store, t.store, w)
  }

  ghost predicate WorkerStep(s: State, t: State, w: nat, maxAttempts: int, registry: Registry) {
    || Claims(s, t, w) || Processes(s, t, w, registry) || Acknowledges(s, t, w) || GivesUp(s, t, w)
    || HandsOff(s, t, w, maxAttempts) || Crashes(s, t, w)
  }

  ghost predicate Next(s: State, t: State, maxAttempts: int, registry: Registry) {
    || (exists job :: Enqueues(s, t, job)) || (exists e :: Creates(s, t, e)) || Spawns(s, t)
    || (exists w :: WorkerStep(s, t, w, maxAttempts, registry))
  }

  // ---------------------------------------------------------------- projections

  lemma DeliveryStep(s: State, t: State, maxAttempts: int, registry: Registry)
    requires Next(s, t, maxAttempts, registry)
    ensures Delivery.Next(s.delivery, t.delivery, maxAttempts)
  {
    hide Delivery.Claims, Delivery.Acknowledges, Delivery.GivesUp, Delivery.Retries, Delivery.Buries, Delivery.Crashes,
      Delivery.Enqueues, Delivery.Spawns, TraceLock.Starts, TraceLock.Checks, TraceLock.Inserts, TraceLock.Reads,
      TraceLock.Commits, TraceLock.Confirms, TraceLock.Judges, TraceLock.Fails, TraceLock.Leaves, TraceLock.Takes;
    if job :| Enqueues(s, t, job) {
      assert Delivery.Enqueues(s.delivery, t.delivery, job);
    } else if w :| WorkerStep(s, t, w, maxAttempts, registry) {
      assert Delivery.WorkerStep(s.delivery, t.delivery, w, maxAttempts) || t.delivery == s.delivery;
    }
  }

  lemma StoreStep(s: State, t: State, maxAttempts: int, registry: Registry)
    requires Next(s, t, maxAttempts, registry)
    ensures TraceLock.Next(s.store, t.store)
  {
    hide Delivery.Claims, Delivery.Acknowledges, Delivery.GivesUp, Delivery.Retries, Delivery.Buries, Delivery.Crashes,
      Delivery.Enqueues, Delivery.Spawns, TraceLock.Starts, TraceLock.Checks, TraceLock.Inserts, TraceLock.Reads,
      TraceLock.Commits, TraceLock.Confirms, TraceLock.Judges, TraceLock.Fails, TraceLock.Leaves, TraceLock.Takes,
      TraceLock.Creates, TraceLock.Spawns;
    if e :| Creates(s, t, e) {
      assert TraceLock.Creates(s.store, t.store, e);
    } else if w :| WorkerStep(s, t, w, maxAttempts, registry) {
      if Processes(s, t, w, registry) {
        assert TraceLock.JobStep(s.store, t.store, w);
      }
      assert TraceLock.Takes(s.store, t.store, w) || TraceLock.JobStep(s.store, t.store, w)
          || TraceLock.Leaves(s.store, t.store, w) || t.store == s.store;
    }
  }

  // ---------------------------------------------------------------- the two halves together

  /** Exactly the workers inside `process_job` hold an entry, and one that carries out an
      attempt holds an entry this attempt is at. */
  ghost predicate Linked(s: State, registry: Registry) {
    && |s.delivery.hands| == |s.store.phases|
    && (forall n | 0 <= n < |s.store.phases| :: LinkedAt(s, n, registry))
    && (forall k | 0 <= k < |s.delivery.done| :: IsDone(s, s.delivery.done[k].job, registry))
  }

  ghost predicate LinkedAt(s: State, w: nat, registry: Registry)
    requires w < |s.delivery.hands| && w < |s.store.phases|
  {
    var p := s.store.phases[w];
    && (!p.Away? <==> s.delivery.hands[w].Holding?)
    && (TraceLock.Mine(p).Some? ==>
          && s.delivery.hands[w].Holding? && TraceLock.Mine(p).value < |s.store.attempts|
          && AttemptAt(s.store.attempts[TraceLock.Mine(p).value], s.delivery.hands[w].entry.job, registry))
  }

  /** The execution of this job was finalized by an attempt at this job's task. */
  ghost predicate IsDone(s: State, job: Job, registry: Registry) {
    exists n: nat :: DoneBy(s, job, n, registry)
  }

  ghost predicate DoneBy(s: State, job: Job, n: nat, registry: Registry) {
    n < |s.store.attempts| && AttemptAt(s.store.attempts[n], job, registry)
    && TraceLock.FinalizedBy(s.store, job.execution, n)
  }

  ghost predicate Inv(s: State, maxAttempts: int, registry: Registry) {
    Delivery.Inv(s.delivery, maxAttempts) && TraceLock.Inv(s.store) && Linked(s, registry)
  }

  lemma FinalizedLasts(s: TraceLock.State, t: TraceLock.State, e: Id, n: nat)
    requires TraceLock.Inv(s) && TraceLock.Next(s, t) && TraceLock.FinalizedBy(s, e, n)
    ensures TraceLock.FinalizedBy(t, e, n) && s.attempts <= t.attempts
  {
    hide TraceLock.Inv, TraceLock.Next;
    TraceLock.StepWrites(s, t, e);
    TraceLock.OnlyOpenIsWritten(s, e);
  }

  lemma DoneLasts(s: State, t: State, job: Job, registry: Registry)
    requires TraceLock.Inv(s.store) && TraceLock.Next(s.store, t.store) && IsDone(s, job, registry)
    ensures IsDone(t, job, registry)
  {
    hide TraceLock.Inv, TraceLock.Next, TraceLock.FinalizedBy, AttemptAt;
    var n: nat :| DoneBy(s, job, n, registry);
    FinalizedLasts(s.store, t.store, job.execution, n);
    assert DoneBy(t, job, n, registry);
  }

  /** Processing changes the phase of one worker, and starts attempts at its own job only. */
  lemma ProcessesMine(s: State, t: State, w: nat, registry: Registry)
    requires Processes(s, t, w, registry)
    ensures w < |s.store.phases| && t.store.phases == s.store.phases[w := t.store.phases[w]]
    ensures s.store.attempts <= t.store.attempts && !s.store.phases[w].Away? && !t.store.phases[w].Away?
    ensures var mine := TraceLock.Mine(t.store.phases[w]);
      || mine.None? || mine == TraceLock.Mine(s.store.phases[w])
      || (mine.value < |t.store.attempts|
          && AttemptAt(t.store.attempts[mine.value], s.delivery.hands[w].entry.job, registry))
  {
    hide TraceLock.Genuine, AttemptAt, TraceLock.Starts, TraceLock.Checks, TraceLock.Inserts,
      TraceLock.Reads, TraceLock.Commits, TraceLock.Confirms, TraceLock.Judges, TraceLock.Fails;
    if a :| AttemptAt(a, s.delivery.hands[w].entry.job, registry) && TraceLock.Starts(s.store, t.store, w, a) {
      TraceLock.MineAfterStart(s.store, t.store, w, a);
    } else {
      TraceLock.MineGoingOn(s.store, t.store, w);
    }
  }

  lemma ProcessesLinks(s: State, t: State, w: nat, v: nat, registry: Registry)
    requires Processes(s, t, w, registry) && |s.delivery.hands| == |s.store.phases|
    requires v < |s.store.phases| && LinkedAt(s, v, registry)
    ensures |t.delivery.hands| == |t.store.phases| && v < |t.store.phases| && LinkedAt(t, v, registry)
  {
    ProcessesMine(s, t, w, registry);
    hide TraceLock.Genuine, AttemptAt, TraceLock.Starts, TraceLock.Checks, TraceLock.Inserts,
      TraceLock.Reads, TraceLock.Commits, TraceLock.Confirms, TraceLock.Judges, TraceLock.Fails;
  }

  /** The worker steps on the queue keep the links. */
  lemma QueueLinks(s: State, t: State, w: nat, v: nat, maxAttempts: int, registry: Registry)
    requires Claims(s, t, w) || Acknowledges(s, t, w) || GivesUp(s, t, w) || HandsOff(s, t, w, maxAttempts)
          || Crashes(s, t, w)
    requires |s.delivery.hands| == |s.store.phases| && v < |s.store.phases| && LinkedAt(s, v, registry)
    requires w < |s.store.phases| && LinkedAt(s, w, registry)
    ensures |t.delivery.hands| == |t.store.phases| && v < |t.store.phases| && LinkedAt(t, v, registry)
  {
    hide TraceLock.Genuine, AttemptAt;
  }

  lemma ClientLinks(s: State, t: State, v: nat, job: Job, e: Id, registry: Registry)
    requires Enqueues(s, t, job) || Creates(s, t, e) || Spawns(s, t)
    requires |s.delivery.hands| == |s.store.phases| && (v < |s.store.phases| ==> LinkedAt(s, v, registry))
    requires v < |t.store.phases|
    ensures |t.delivery.hands| == |t.store.phases| && LinkedAt(t, v, registry)
  {
    hide TraceLock.Genuine, AttemptAt;
  }

  /** A job is acknowledged as done only once its execution is finalized by its own attempt. */
  lemma AcknowledgedIsDone(s: State, t: State, w: nat, registry: Registry)
    requires TraceLock.Inv(s.store) && Acknowledges(s, t, w)
    requires w < |s.delivery.hands| && LinkedAt(s, w, registry)
    ensures t.delivery.done == s.delivery.done + [s.delivery.hands[w].entry]
    ensures IsDone(s, s.delivery.hands[w].entry.job, registry)
  {
    TraceLock.SuccessIsFinal(s.store, w);
    hide TraceLock.Inv, TraceLock.FinalizedBy, TraceLock.Genuine;
    assert DoneBy(s, s.delivery.hands[w].entry.job, s.store.phases[w].me, registry);
  }

  lemma DoneAfter(s: State, t: State, maxAttempts: int, registry: Registry)
    requires Inv(s, maxAttempts, registry) && Next(s, t, maxAttempts, registry)
    ensures t.delivery.done == s.delivery.done
         || exists e :: t.delivery.done == s.delivery.done + [e] && IsDone(s, e.job, registry)
  {
    hide TraceLock.Inv, Delivery.Inv, TraceLock.Genuine, AttemptAt, IsDone, TraceLock.Starts, TraceLock.Checks,
      TraceLock.Inserts, TraceLock.Reads, TraceLock.Commits, TraceLock.Confirms, TraceLock.Judges, TraceLock.Fails,
      TraceLock.Leaves, TraceLock.Takes, TraceLock.Creates, TraceLock.Spawns, LinkedAt;
    if w :| Acknowledges(s, t, w) {
      assert LinkedAt(s, w, registry);
      AcknowledgedIsDone(s, t, w, registry);
    }
  }

  lemma LinksKept(s: State, t: State, v: nat, maxAttempts: int, registry: Registry)
    requires Linked(s, registry) && Next(s, t, maxAttempts, registry) && v < |t.store.phases|
    ensures |t.delivery.hands| == |t.store.phases| && LinkedAt(t, v, registry)
  {
    hide Enqueues, Creates, Spawns, Claims, Processes, Acknowledges, GivesUp, HandsOff, Crashes, LinkedAt, IsDone;
    if job :| Enqueues(s, t, job) {
      ClientLinks(s, t, v, job, 0, registry);
    } else if e :| Creates(s, t, e) {
      ClientLinks(s, t, v, Job(0, 0, "", 1), e, registry);
    } else if Spawns(s, t) {
      ClientLinks(s, t, v, Job(0, 0, "", 1), 0, registry);
    } else {
      var w :| WorkerStep(s, t, w, maxAttempts, registry);
      WorkerAt(s, t, w, maxAttempts, registry);
      assert LinkedAt(s, v, registry) && LinkedAt(s, w, registry);
      if Processes(s, t, w, registry) {
        ProcessesLinks(s, t, w, v, registry);
      } else {
        QueueLinks(s, t, w, v, maxAttempts, registry);
      }
    }
  }

  lemma WorkerAt(s: State, t: State, w: nat, maxAttempts: int, registry: Registry)
    requires WorkerStep(s, t, w, maxAttempts, registry)
    ensures w < |s.delivery.hands| && |t.store.phases| == |s.store.phases|
  {
    hide TraceLock.Genuine, AttemptAt;
    if Processes(s, t, w, registry) {
      ProcessesMine(s, t, w, registry);
    }
  }

  lemma {:induction false} StepKeeps(s: State, t: State, maxAttempts: int, registry: Registry)
    requires Inv(s, maxAttempts, registry) && Next(s, t, maxAttempts, registry)
    ensures Inv(t, maxAttempts, registry)
  {
    DeliveryStep(s, t, maxAttempts, registry);
    StoreStep(s, t, maxAttempts, registry);
    hide TraceLock.Inv, Delivery.Inv, TraceLock.Next, Delivery.Next, Next, LinkedAt, IsDone;
    Delivery.StepKeeps(s.delivery, t.delivery, maxAttempts);
    TraceLock.StepKeeps(s.store, t.store);
    SameSize(s, t, maxAttempts, registry);
    forall v | 0 <= v < |t.store.phases| ensures LinkedAt(t, v, registry) {
      LinksKept(s, t, v, maxAttempts, registry);
    }
    DoneAfter(s, t, maxAttempts, registry);
    forall k | 0 <= k < |t.delivery.done| ensures IsDone(t, t.delivery.done[k].job, registry) {
      DoneLasts(s, t, t.delivery.done[k].job, registry);
    }
  }

  lemma SameSize(s: State, t: State, maxAttempts: int, registry: Registry)
    requires Linked(s, registry) && Next(s, t, maxAttempts, registry)
    ensures |t.delivery.hands| == |t.store.phases|
  {
    if |t.store.phases| > 0 {
      LinksKept(s, t, 0, maxAttempts, registry);
    } else {
      NoWorkers(s, t, maxAttempts, registry);
    }
  }

  lemma NoWorkers(s: State, t: State, maxAttempts: int, registry: Registry)
    requires Linked(s, registry) && Next(s, t, maxAttempts, registry) && |t.store.phases| == 0
    ensures |t.delivery.hands| == 0
  {
    hide TraceLock.Genuine, AttemptAt, LinkedAt, IsDone, Processes;
    if w :| WorkerStep(s, t, w, maxAttempts, registry) {
      WorkerAt(s, t, w, maxAttempts, registry);
    }
  }

  // ---------------------------------------------------------------- whole runs

  ghost predicate IsRun(run: seq<State>, maxAttempts: int, registry: Registry) {
    && |run| > 0 && Init(run[0])
    && forall i | 0 < i < |run| :: Next(run[i - 1], run[i], maxAttempts, registry)
  }

  function Deliveries(run: seq<State>): seq<Delivery.State> {
    seq(|run|, i requires 0 <= i < |run| => run[i].delivery)
  }

  function Stores(run: seq<State>): seq<TraceLock.State> {
    seq(|run|, i requires 0 <= i < |run| => run[i].store)
  }

  /** A run of the whole is a run of the queue's half and a run of the store's half, so
      everything proved of those holds here. */
  lemma Halves(run: seq<State>, maxAttempts: int, registry: Registry)
    requires IsRun(run, maxAttempts, registry)
    ensures Delivery.IsRun(Deliveries(run), maxAttempts) && TraceLock.IsRun(Stores(run))
  {
    hide Next, Delivery.Next, TraceLock.Next;
    forall i | 0 < i < |run|
      ensures Delivery.Next(Deliveries(run)[i - 1], Deliveries(run)[i], maxAttempts)
           && TraceLock.Next(Stores(run)[i - 1], Stores(run)[i])
    {
      DeliveryStep(run[i - 1], run[i], maxAttempts, registry);
      StoreStep(run[i - 1], run[i], maxAttempts, registry);
    }
  }

  lemma {:induction false} RunKeeps(run: seq<State>, i: nat, maxAttempts: int, registry: Registry)
    requires IsRun(run, maxAttempts, registry) && i < |run|
    ensures Inv(run[i], maxAttempts, registry)
  {
    hide Next;
    if i > 0 {
      RunKeeps(run, i - 1, maxAttempts, registry);
      StepKeeps(run[i - 1], run[i], maxAttempts, registry);
    }
  }

  /** The run is set up from this version and this task, field by field: with the version's
      model and prompt, the task's input and seeded state, twenty steps and two retries, and
      a model client that asks for the expected actions one by one. */
  ghost predicate SetUpFrom(cfg: Runner.Config, version: Store.AgentVersion, task: Task) {
    && cfg.model == version.content.model && cfg.systemPrompt == version.content.systemPrompt
    && cfg.input == task.input && cfg.initial == task.initial && cfg.maxSteps == 20 && cfg.maxRetries == 2
    && forall k: nat | k < |task.expected| :: AsksFor(cfg.client(k), task.expected[k])
  }

  ghost predicate AsksFor(did: Runner.ClientEvent, e: ExpectedAction) {
    && did.Reply? && |did.reply.toolCalls| == 1
    && var c := did.reply.toolCalls[0];
       c.service == e.service && c.operation == e.operation && c.arguments == e.arguments
  }

  ghost predicate AskedAsNamed(events: seq<Event>, version: Store.AgentVersion, task: Task) {
    Conversation.AllAskUnder(events, version.content.model, version.content.systemPrompt, task.input)
  }

  lemma WorkerSetsUp(a: TraceLock.Attempt, job: Job, registry: Registry)
    requires AttemptAt(a, job, registry)
    ensures SetUpFrom(a.cfg, registry.versions[job.version], a.task)
  {
  }

  /** What is recorded of a job that is done: a completed run of its task under its version,
      whose result the execution carries and whose redacted trace the stored events read back
      as; their requests name the version's model and begin with its prompt and the input. */
  ghost predicate Accomplished(s: State, job: Job, a: TraceLock.Attempt, registry: Registry) {
    var steps := Runner.Run(a.cfg).at.steps;
    && AttemptAt(a, job, registry) && TraceLock.Genuine(a) && Runner.Run(a.cfg).Completed?
    && SetUpFrom(a.cfg, registry.versions[job.version], registry.tasks[job.taskId])
    && AskedAsNamed(RedactEvents(ToStorage(steps)), registry.versions[job.version], registry.tasks[job.taskId])
    && job.execution in s.store.rows && s.store.rows[job.execution] == TraceLock.Final(a.result)
    && TraceLock.StoredAre(s.store, job.execution, RedactEvents(ToStorage(steps)))
    && ReadsBack(RedactEvents(ToStorage(steps)), Steps(RedactSteps(steps)))
  }

  /** Main result: every job acknowledged as successful has a final execution. Its result is
      the score of a completed run of the job's task, and the stored trace is the trace of
      that same run, whole: read back, it gives the run's steps with their payloads redacted. */
  lemma DoneIsAccomplished(run: seq<State>, i: nat, k: nat, maxAttempts: int, registry: Registry)
    requires IsRun(run, maxAttempts, registry) && i < |run| && k < |run[i].delivery.done|
    ensures exists a :: Accomplished(run[i], run[i].delivery.done[k].job, a, registry)
  {
    RunKeeps(run, i, maxAttempts, registry);
    Halves(run, maxAttempts, registry);
    hide Inv, TraceLock.Genuine, TraceLock.FinalizedBy, AttemptAt, ReadsBack, TraceLock.StoredAre, TraceLock.IsRun,
      Delivery.IsRun, IsRun;
    var s := run[i];
    var job := s.delivery.done[k].job;
    DoneOf(s, k, maxAttempts, registry);
    var n: nat :| DoneBy(s, job, n, registry);
    assert Stores(run)[i] == s.store;
    TraceLock.RunGenuine(Stores(run), i, n);
    FinalIsAccomplished(s, job, n, registry);
  }

  lemma DoneOf(s: State, k: nat, maxAttempts: int, registry: Registry)
    requires Inv(s, maxAttempts, registry) && k < |s.delivery.done|
    ensures IsDone(s, s.delivery.done[k].job, registry)
  {
  }

  lemma FinalIsAccomplished(s: State, job: Job, n: nat, registry: Registry)
    requires DoneBy(s, job, n, registry) && TraceLock.Genuine(s.store.attempts[n])
    ensures Accomplished(s, job, s.store.attempts[n], registry)
  {
    var a := s.store.attempts[n];
    TraceLock.FinalReadsBack(s.store, job.execution, n);
    WorkerSetsUp(a, job, registry);
    GenuineCompletes(a);
    Conversation.StoredRequests(a.cfg);
    hide TraceLock.Genuine, ReadsBack, TraceLock.StoredAre, RedactEvents, ToStorage, Runner.Run, RedactSteps,
      Conversation.AllAskUnder, OfWorker, AsksFor;
  }

  lemma GenuineCompletes(a: TraceLock.Attempt)
    requires TraceLock.Genuine(a)
    ensures Runner.Run(a.cfg).Completed?
  {
    assert TraceLock.EndsIn(a.cfg, Runner.Run(a.cfg));
    hide Runner.Run;
  }

  // ---------------------------------------------------------------- at most one success

  lemma SuccessHolds(s: TraceLock.State, w: nat)
    requires TraceLock.Inv(s) && w < |s.phases| && s.phases[w].Succeeded? && s.phases[w].me < |s.attempts|
    ensures var e := s.attempts[s.phases[w].me].execution;
      e in s.holds && s.holds[e].me == s.phases[w].me && e in s.rows
  {
    TraceLock.PositionedAt(s, w);
    hide TraceLock.Separate, TraceLock.AllPositioned, TraceLock.Stored, TraceLock.Finalized, TraceLock.Sound;
  }

  /** A success that is acknowledged is at an execution that was not given up, and is
      given up by that. */
  lemma AcknowledgedGivesUp(s: State, t: State, w: nat, registry: Registry)
    requires TraceLock.Inv(s.store) && Acknowledges(s, t, w) && w < |s.delivery.hands| && LinkedAt(s, w, registry)
    ensures var e := s.delivery.hands[w].entry.job.execution;
      !TraceLock.GivenUp(s.store, e) && TraceLock.GivenUp(t.store, e)
  {
    SuccessHolds(s.store, w);
    hide TraceLock.AllPositioned, TraceLock.Stored, TraceLock.Finalized, TraceLock.Sound, OfWorker;
    var e := s.delivery.hands[w].entry.job.execution;
    assert TraceLock.Mine(s.store.phases[w]) == Some(s.store.holds[e].me);
  }

  /** A step adds no success at an execution that is given up. */
  lemma GivenUpStep(s: State, t: State, e: Id, maxAttempts: int, registry: Registry)
    requires Inv(s, maxAttempts, registry) && Next(s, t, maxAttempts, registry) && TraceLock.GivenUp(s.store, e)
    ensures TraceLock.GivenUp(t.store, e)
    ensures t.delivery.done == s.delivery.done
         || exists x :: t.delivery.done == s.delivery.done + [x] && x.job.execution != e
  {
    StoreStep(s, t, maxAttempts, registry);
    hide Next, TraceLock.Next, TraceLock.Inv, Delivery.Inv, LinkedAt, IsDone, TraceLock.GivenUp;
    TraceLock.StepKeepsGivenUp(s.store, t.store, e);
    AddedToDone(s, t, maxAttempts, registry);
    if w: nat :| w < |s.delivery.hands| && Acknowledges(s, t, w) {
      assert LinkedAt(s, w, registry);
      AcknowledgedGivesUp(s, t, w, registry);
    }
  }

  lemma AddedToDone(s: State, t: State, maxAttempts: int, registry: Registry)
    requires Next(s, t, maxAttempts, registry)
    ensures t.delivery.done == s.delivery.done
         || exists w: nat :: w < |s.delivery.hands| && Acknowledges(s, t, w)
                             && t.delivery.done == s.delivery.done + [s.delivery.hands[w].entry]
  {
    hide TraceLock.Genuine, AttemptAt, TraceLock.Starts, TraceLock.Checks, TraceLock.Inserts, TraceLock.Reads,
      TraceLock.Commits, TraceLock.Confirms, TraceLock.Judges, TraceLock.Fails, TraceLock.Leaves, TraceLock.Takes,
      TraceLock.Creates, TraceLock.Spawns;
    if w: nat :| Acknowledges(s, t, w) {
      assert t.delivery.done == s.delivery.done + [s.delivery.hands[w].entry];
    }
  }

  /** Main result: once the attempt that holds an execution is given up, by a failure, a crash
      or a success, no job at that execution is acknowledged as done any more, so retrying a
      job whose first attempt stored an event is always in vain. */
  lemma {:induction false} GivenUpNeverDone(run: seq<State>, i: nat, j: nat, e: Id, maxAttempts: int,
                                            registry: Registry)
    requires IsRun(run, maxAttempts, registry) && i <= j < |run| && TraceLock.GivenUp(run[i].store, e)
    ensures TraceLock.GivenUp(run[j].store, e) && run[i].delivery.done <= run[j].delivery.done
    ensures forall k | |run[i].delivery.done| <= k < |run[j].delivery.done| ::
      run[j].delivery.done[k].job.execution != e
    decreases j - i
  {
    hide Next, Inv, TraceLock.GivenUp;
    if i < j {
      GivenUpNeverDone(run, i, j - 1, e, maxAttempts, registry);
      RunKeeps(run, j - 1, maxAttempts, registry);
      GivenUpStep(run[j - 1], run[j], e, maxAttempts, registry);
    }
  }

  /** Every job that is done is at an execution of its own, which is given up. */
  ghost predicate DoneApart(s: State) {
    && (forall k | 0 <= k < |s.delivery.done| :: TraceLock.GivenUp(s.store, s.delivery.done[k].job.execution))
    && (forall k, m | 0 <= k < m < |s.delivery.done| ::
          s.delivery.done[k].job.execution != s.delivery.done[m].job.execution)
  }

  lemma StepKeepsApart(s: State, t: State, maxAttempts: int, registry: Registry)
    requires Inv(s, maxAttempts, registry) && Next(s, t, maxAttempts, registry) && DoneApart(s)
    ensures DoneApart(t)
  {
    hide Next, TraceLock.GivenUp, Delivery.Inv, TraceLock.Inv, LinkedAt, IsDone;
    forall k | 0 <= k < |s.delivery.done| ensures TraceLock.GivenUp(t.store, s.delivery.done[k].job.execution) {
      GivenUpStep(s, t, s.delivery.done[k].job.execution, maxAttempts, registry);
    }
    AddedToDone(s, t, maxAttempts, registry);
    if t.delivery.done != s.delivery.done {
      var w: nat :| w < |s.delivery.hands| && Acknowledges(s, t, w)
                    && t.delivery.done == s.delivery.done + [s.delivery.hands[w].entry];
      assert LinkedAt(s, w, registry);
      AcknowledgedGivesUp(s, t, w, registry);
    }
  }

  /** Main result: however many jobs name an execution, at most one of them is ever
      acknowledged as done. */
  lemma {:induction false} DoneOnce(run: seq<State>, i: nat, maxAttempts: int, registry: Registry)
    requires IsRun(run, maxAttempts, registry) && i < |run|
    ensures DoneApart(run[i])
  {
    hide Next, Inv, TraceLock.GivenUp;
    if i > 0 {
      DoneOnce(run, i - 1, maxAttempts, registry);
      RunKeeps(run, i - 1, maxAttempts, registry);
      StepKeepsApart(run[i - 1], run[i], maxAttempts, registry);
    }
  }
}
