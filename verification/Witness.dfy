/** Three runs of the protocol that show its limits: one worker, one job, the default number
    of attempts, and the runs a worker makes. */
module Witness {
  import opened Schema
  import opened TraceModel
  import opened JobQueue
  import opened Runner
  import opened Scoring
  import opened Protocol
  import Delivery
  import Oracle
  import Services
  import Store
  import TraceLock
  import Worker

  const EMPTY := World(map[], map[], map[], map[], map[])

  /** A task that asks for nothing: the agent answers at once. */
  const TASK := Task("t", "", EMPTY, [], [], map[], [])

  const VERSION := Store.AgentVersion("agent", "abc1234", Store.Content("reference-agent", "policy", "hash1234", map[]))

  const REGISTRY: Registry := Registry(map["t" := TASK], map[0 := VERSION])

  /** The n-th attempt, with identifiers of its own. */
  function ConfigOfTry(judged: bool, n: nat): Config {
    Worker.ConfigOf(VERSION, TASK, Worker.Choices((i: nat) => 10 * n + i, (i: nat) => 0,
      (c: ToolCall, e: Services.ToolError) => "", if judged then Worker.JudgesRaise else Worker.NoJudges))
  }

  lemma TryCompletes(judged: bool, n: nat)
    ensures Run(ConfigOfTry(judged, n)).Completed?
  {
    Oracle.OracleMakesExpectedCalls(ConfigOfTry(judged, n), TASK);
    assert TASK.expected[..Oracle.Min(Worker.DEFAULT_MAX_STEPS, 0)] == [];
    assert Oracle.ActionCalls([]) == [];
  }

  function Try(judged: bool, n: nat): TraceLock.Attempt {
    TryCompletes(judged, n);
    var end := Run(ConfigOfTry(judged, n));
    TraceLock.Attempt(0, TASK, ConfigOfTry(judged, n), ToStorage(end.at.steps), ScoreExecution(TASK, end), judged)
  }

  lemma TryIsGenuine(judged: bool, n: nat)
    ensures TraceLock.Genuine(Try(judged, n)) && (Try(judged, n).judged <==> judged)
    ensures Try(judged, n).execution == 0 && |Try(judged, n).events| > 0
    ensures forall a: Positive :: AttemptAt(Try(judged, n), JobAt(a), REGISTRY)
  {
    TryCompletes(judged, n);
    TraceLock.GenuineShape(Try(judged, n));
    hide Run, ConfigOfTry;
    assert OfWorker(Try(judged, n), VERSION) by {
      OwnConfig(judged, n);
    }
  }

  lemma OwnConfig(judged: bool, n: nat)
    ensures OfWorker(Try(judged, n), VERSION) && (Try(judged, n).judged <==> judged)
  {
    hide Run;
    var choices := Worker.Choices((i: nat) => 10 * n + i, (i: nat) => 0,
      (c: ToolCall, e: Services.ToolError) => "", if judged then Worker.JudgesRaise else Worker.NoJudges);
    assert Try(judged, n).cfg == Worker.ConfigOf(VERSION, TASK, choices);
  }

  function Tries(judged: bool, n: nat): seq<TraceLock.Attempt> {
    seq(n, i requires 0 <= i < n => Try(judged, i))
  }

  // ---------------------------------------------------------------- the queue's half

  function JobAt(a: Positive): Job {
    Job(0, 0, "t", a)
  }

  function EntryOf(a: Positive): Entry {
    Entry(0, JobAt(a))
  }

  function Sent(a: nat): seq<Entry> {
    seq(a, i requires 0 <= i < a => EntryOf(i + 1))
  }

  function Desk(a: nat, cursor: nat, pending: set<nat>, dead: seq<Entry>, hand: Delivery.Hand, place: Delivery.Place)
    : Delivery.State
  {
    Delivery.State(Group(Sent(a), cursor, pending, dead), [hand], [JobAt(1)], [cursor], [place], [], {})
  }

  /** The job waits for its a-th attempt, is held, is being handed off, is dead-lettered, is lost. */
  function Waiting(a: Positive): Delivery.State {
    Desk(a, a - 1, {}, [], Delivery.Free, Delivery.Waiting(a - 1))
  }

  function Holding(a: Positive): Delivery.State {
    Desk(a, a, {a - 1}, [], Delivery.Holding(a - 1, EntryOf(a)), Delivery.Held(a - 1))
  }

  function Handing(a: Positive): Delivery.State {
    Desk(a, a, {}, [], Delivery.HandingOff(EntryOf(a)), Delivery.InHandOff(0))
  }

  function Buried(a: Positive): Delivery.State {
    Desk(a, a, {}, [EntryOf(a)], Delivery.Free, Delivery.Buried(0))
  }

  function Lost(a: Positive): Delivery.State {
    Desk(a, a, {}, [], Delivery.Gone, Delivery.Nowhere).(lost := {0})
  }

  const NOTHING := Delivery.State(Group([], 0, {}, []), [], [], [], [], [], {})

  const STAFFED := NOTHING.(hands := [Delivery.Free])

  lemma QueueBegins()
    ensures Delivery.Init(NOTHING) && Delivery.Spawns(NOTHING, STAFFED)
    ensures Delivery.Enqueues(STAFFED, Waiting(1), JobAt(1))
  {
    assert Sent(1) == [EntryOf(1)];
  }

  lemma QueueGoesOn(a: Positive)
    ensures Delivery.Claims(Waiting(a), Holding(a), 0) && Delivery.GivesUp(Holding(a), Handing(a), 0)
    ensures a < DEFAULT_MAX_ATTEMPTS ==> Delivery.Retries(Handing(a), Waiting(a + 1), 0, DEFAULT_MAX_ATTEMPTS)
    ensures a >= DEFAULT_MAX_ATTEMPTS ==> Delivery.Buries(Handing(a), Buried(a), 0, DEFAULT_MAX_ATTEMPTS)
    ensures Delivery.Crashes(Handing(a), Lost(a), 0)
  {
    assert {a - 1} - {a - 1} == {};
    assert {} + {a - 1} == {a - 1};
    assert Sent(a + 1) == Sent(a) + [EntryOf(a + 1)];
    assert [a - 1][0 := a] == [a];
  }

  // ---------------------------------------------------------------- the store's half

  /** The tables of `base`, with one worker in phase p after n attempts were started. */
  function With(judged: bool, base: TraceLock.State, p: TraceLock.Phase, n: nat): TraceLock.State {
    base.(phases := [p], attempts := Tries(judged, n))
  }

  /** The first attempt has stored k events. */
  function Stored(judged: bool, k: nat): TraceLock.State
    requires k <= |Try(judged, 0).events|
  {
    TraceLock.State(map[0 := TraceLock.Open],
                    map j: nat | j < k :: TraceLock.Key(0, j) := RedactEvent(Try(judged, 0).events[j]),
                    [], [], if k == 0 then map[] else map[0 := TraceLock.Hold(0, k)], [])
  }

  /** It has stored them all, and recorded its result. */
  function Recorded(judged: bool): TraceLock.State {
    Stored(judged, |Try(judged, 0).events|).(rows := map[0 := TraceLock.Final(Try(judged, 0).result)], commits := [0])
  }

  lemma StoreBegins(judged: bool)
    ensures var blank := TraceLock.State(map[], map[], [], [], map[], []);
      && TraceLock.Init(blank) && TraceLock.Creates(blank, Stored(judged, 0), 0)
      && TraceLock.Spawns(Stored(judged, 0), With(judged, Stored(judged, 0), TraceLock.Away, 0))
  {
    hide Try;
    assert Tries(judged, 0) == [];
  }

  lemma StoreStarts(judged: bool, base: TraceLock.State, n: nat)
    ensures TraceLock.Takes(With(judged, base, TraceLock.Away, n), With(judged, base, TraceLock.Looking, n), 0)
    ensures TraceLock.Starts(With(judged, base, TraceLock.Looking, n),
                             With(judged, base, TraceLock.Appending(n, 0), n + 1), 0, Try(judged, n))
  {
    hide Try, TraceLock.Genuine;
    TryIsGenuine(judged, n);
    assert Tries(judged, n + 1) == Tries(judged, n) + [Try(judged, n)];
  }

  lemma StoreChecks(judged: bool, base: TraceLock.State, me: nat, k: nat, n: nat)
    requires 0 in base.rows && me < n
    ensures TraceLock.Checks(With(judged, base, TraceLock.Appending(me, k), n),
                             With(judged, base, TraceLock.Inserting(me, k), n), 0)
  {
    hide Try, TraceLock.Genuine;
    TryIsGenuine(judged, me);
    assert Tries(judged, n)[me] == Try(judged, me);
  }

  lemma StoredNext(judged: bool, k: nat)
    requires k < |Try(judged, 0).events|
    ensures TraceLock.Key(0, k) !in Stored(judged, k).table
    ensures Stored(judged, k + 1) == Stored(judged, k).(
              table := Stored(judged, k).table[TraceLock.Key(0, k) := RedactEvent(Try(judged, 0).events[k])],
              holds := Stored(judged, k).holds[0 := TraceLock.Hold(0, k + 1)])
  {
    hide Try, RedactEvent;
    assert Stored(judged, k + 1).table
        == Stored(judged, k).table[TraceLock.Key(0, k) := RedactEvent(Try(judged, 0).events[k])];
    assert Stored(judged, k + 1).holds == Stored(judged, k).holds[0 := TraceLock.Hold(0, k + 1)];
  }

  /** The first attempt gets its k-th event in. */
  lemma StoreInserts(judged: bool, k: nat, n: nat)
    requires k < |Try(judged, 0).events| && 0 < n
    ensures TraceLock.Inserts(With(judged, Stored(judged, k), TraceLock.Inserting(0, k), n),
                              With(judged, Stored(judged, k + 1), TraceLock.Following(Try(judged, 0), 0, k), n), 0)
  {
    hide Try, TraceLock.Genuine, RedactEvent, Stored, TraceLock.Following, AttemptAt;
    TryIsGenuine(judged, 0);
    StoredNext(judged, k);
    assert Tries(judged, n)[0] == Try(judged, 0);
  }

  /** A later attempt does not get its first event in. */
  lemma StoreRefuses(judged: bool, base: TraceLock.State, me: nat, n: nat)
    requires TraceLock.Key(0, 0) in base.table && me < n
    ensures TraceLock.Inserts(With(judged, base, TraceLock.Inserting(me, 0), n),
                              With(judged, base, TraceLock.Failing, n), 0)
  {
    hide Try, TraceLock.Genuine, RedactEvent;
    TryIsGenuine(judged, me);
    assert Tries(judged, n)[me] == Try(judged, me);
  }

  lemma StoreRecords(judged: bool, n: nat)
    requires 0 < n
    ensures var all := Stored(judged, |Try(judged, 0).events|);
      && TraceLock.Reads(With(judged, all, TraceLock.Recording(0), n), With(judged, all, TraceLock.Committing(0), n), 0)
      && TraceLock.Commits(With(judged, all, TraceLock.Committing(0), n),
                           With(judged, Recorded(judged), TraceLock.Confirming(0), n), 0)
      && (judged ==> TraceLock.Confirms(With(judged, Recorded(judged), TraceLock.Confirming(0), n),
                                        With(judged, Recorded(judged), TraceLock.Judging(0), n), 0))
  {
    hide Try, TraceLock.Genuine, RedactEvent;
    TryIsGenuine(judged, 0);
    assert Tries(judged, n)[0] == Try(judged, 0);
  }

  lemma StoreFails(judged: bool, base: TraceLock.State, p: TraceLock.Phase, n: nat)
    requires !p.Away? && !p.Succeeded? && !p.Failing?
    ensures TraceLock.Fails(With(judged, base, p, n), With(judged, base, TraceLock.Failing, n), 0)
    ensures TraceLock.Leaves(With(judged, base, TraceLock.Failing, n), With(judged, base, TraceLock.Away, n), 0)
    ensures TraceLock.Leaves(With(judged, base, TraceLock.Away, n), With(judged, base, TraceLock.Away, n), 0)
  {
    hide Try;
  }

  // ---------------------------------------------------------------- both together

  /** A run that has come to this state. */
  ghost predicate Reached(run: seq<State>, d: Delivery.State, s: TraceLock.State) {
    IsRun(run, DEFAULT_MAX_ATTEMPTS, REGISTRY) && run[|run| - 1] == State(d, s)
  }

  ghost predicate Steps(d: Delivery.State, s: TraceLock.State, e: Delivery.State, t: TraceLock.State) {
    Next(State(d, s), State(e, t), DEFAULT_MAX_ATTEMPTS, REGISTRY)
  }

  lemma Extend(run: seq<State>, d: Delivery.State, s: TraceLock.State, e: Delivery.State, t: TraceLock.State)
    returns (more: seq<State>)
    requires Reached(run, d, s) && Steps(d, s, e, t)
    ensures Reached(more, e, t)
  {
    hide Next;
    more := run + [State(e, t)];
  }

  /** The job is enqueued, its execution created, a worker ready. */
  lemma Begin(judged: bool) returns (run: seq<State>)
    ensures Reached(run, Waiting(1), With(judged, Stored(judged, 0), TraceLock.Away, 0))
  {
    hide Try, With, Stored, Waiting, TraceLock.Creates, TraceLock.Spawns, Delivery.Spawns, Delivery.Enqueues;
    QueueBegins();
    StoreBegins(judged);
    var blank := TraceLock.State(map[], map[], [], [], map[], []);
    var ready := With(judged, Stored(judged, 0), TraceLock.Away, 0);
    run := [State(NOTHING, blank)];
    assert Creates(State(NOTHING, blank), State(NOTHING, Stored(judged, 0)), 0);
    run := Extend(run, NOTHING, blank, NOTHING, Stored(judged, 0));
    assert Spawns(State(NOTHING, Stored(judged, 0)), State(STAFFED, ready));
    run := Extend(run, NOTHING, Stored(judged, 0), STAFFED, ready);
    assert Enqueues(State(STAFFED, ready), State(Waiting(1), ready), JobAt(1));
    run := Extend(run, STAFFED, ready, Waiting(1), ready);
  }

  /** One step of `process_job`. */
  lemma Process(judged: bool, run: seq<State>, a: Positive, n: nat, s: TraceLock.State, t: TraceLock.State)
    returns (more: seq<State>)
    requires Reached(run, Holding(a), s)
    requires TraceLock.Starts(s, t, 0, Try(judged, n)) || TraceLock.Checks(s, t, 0) || TraceLock.Inserts(s, t, 0)
          || TraceLock.Reads(s, t, 0) || TraceLock.Commits(s, t, 0) || TraceLock.Confirms(s, t, 0)
          || TraceLock.Fails(s, t, 0)
    ensures Reached(more, Holding(a), t)
  {
    hide Try, TraceLock.Starts, TraceLock.Checks, TraceLock.Inserts, TraceLock.Reads, TraceLock.Commits,
      TraceLock.Confirms, TraceLock.Fails, TraceLock.Genuine, AttemptAt;
    TryIsGenuine(judged, n);
    assert Holding(a).hands[0] == Delivery.Holding(a - 1, EntryOf(a));
    assert Processes(State(Holding(a), s), State(Holding(a), t), 0, REGISTRY);
    assert WorkerStep(State(Holding(a), s), State(Holding(a), t), 0, DEFAULT_MAX_ATTEMPTS, REGISTRY);
    more := Extend(run, Holding(a), s, Holding(a), t);
  }

  /** One step on the queue. */
  lemma Move(run: seq<State>, d: Delivery.State, s: TraceLock.State, e: Delivery.State, t: TraceLock.State)
    returns (more: seq<State>)
    requires Reached(run, d, s)
    requires (Delivery.Claims(d, e, 0) && TraceLock.Takes(s, t, 0))
          || (Delivery.GivesUp(d, e, 0) && TraceLock.Leaves(s, t, 0) && s.phases == [TraceLock.Failing])
          || (Delivery.Retries(d, e, 0, DEFAULT_MAX_ATTEMPTS) && t == s)
          || (Delivery.Buries(d, e, 0, DEFAULT_MAX_ATTEMPTS) && t == s)
          || (Delivery.Crashes(d, e, 0) && TraceLock.Leaves(s, t, 0))
    ensures Reached(more, e, t)
  {
    hide Delivery.Claims, Delivery.GivesUp, Delivery.Retries, Delivery.Buries, Delivery.Crashes, TraceLock.Takes,
      TraceLock.Leaves, TraceLock.Genuine;
    assert WorkerStep(State(d, s), State(e, t), 0, DEFAULT_MAX_ATTEMPTS, REGISTRY);
    more := Extend(run, d, s, e, t);
  }

  /** A worker claims the job and starts an attempt at it. */
  lemma Start(judged: bool, run: seq<State>, base: TraceLock.State, a: Positive, n: nat) returns (more: seq<State>)
    requires Reached(run, Waiting(a), With(judged, base, TraceLock.Away, n))
    ensures Reached(more, Holding(a), With(judged, base, TraceLock.Appending(n, 0), n + 1))
  {
    hide Try, With, Waiting, Holding, Handing, Reached, Buried, Lost, TraceLock.Takes, TraceLock.Starts,
      Delivery.Claims, Delivery.GivesUp, Delivery.Retries, Delivery.Buries, Delivery.Crashes;
    QueueGoesOn(a);
    StoreStarts(judged, base, n);
    var looking := With(judged, base, TraceLock.Looking, n);
    more := Move(run, Waiting(a), With(judged, base, TraceLock.Away, n), Holding(a), looking);
    more := Process(judged, more, a, n, looking, With(judged, base, TraceLock.Appending(n, 0), n + 1));
  }

  /** The job has failed and is acknowledged, to be handed off. */
  lemma GiveUp(judged: bool, run: seq<State>, base: TraceLock.State, a: Positive, n: nat) returns (more: seq<State>)
    requires Reached(run, Holding(a), With(judged, base, TraceLock.Failing, n))
    ensures Reached(more, Handing(a), With(judged, base, TraceLock.Away, n))
  {
    hide Try, With, Waiting, Holding, Handing, Reached, Buried, Lost, TraceLock.Fails, TraceLock.Leaves,
      Delivery.Claims, Delivery.GivesUp, Delivery.Retries, Delivery.Buries, Delivery.Crashes;
    QueueGoesOn(a);
    StoreFails(judged, base, TraceLock.Looking, n);
    FailingPhase(judged, base, n);
    more := Move(run, Holding(a), With(judged, base, TraceLock.Failing, n),
                 Handing(a), With(judged, base, TraceLock.Away, n));
  }

  /** The attempt fails, and the job is given up. */
  lemma Fail(judged: bool, run: seq<State>, base: TraceLock.State, p: TraceLock.Phase, a: Positive, n: nat)
    returns (more: seq<State>)
    requires Reached(run, Holding(a), With(judged, base, p, n)) && !p.Away? && !p.Succeeded? && !p.Failing?
    ensures Reached(more, Handing(a), With(judged, base, TraceLock.Away, n))
  {
    hide Try, With, Holding, Handing, Reached, TraceLock.Fails, TraceLock.Leaves;
    StoreFails(judged, base, p, n);
    more := Process(judged, run, a, n, With(judged, base, p, n), With(judged, base, TraceLock.Failing, n));
    more := GiveUp(judged, more, base, a, n);
  }

  lemma FailingPhase(judged: bool, base: TraceLock.State, n: nat)
    ensures With(judged, base, TraceLock.Failing, n).phases == [TraceLock.Failing]
  {
  }

  /** A retry that finds a first event stored is turned away there. */
  lemma Retry(judged: bool, run: seq<State>, base: TraceLock.State, a: Positive, n: nat) returns (more: seq<State>)
    requires Reached(run, Handing(a), With(judged, base, TraceLock.Away, n)) && a < DEFAULT_MAX_ATTEMPTS
    requires TraceLock.Key(0, 0) in base.table && 0 in base.rows
    ensures Reached(more, Handing(a + 1), With(judged, base, TraceLock.Away, n + 1))
  {
    hide Try, With, Waiting, Holding, Handing, Reached, Buried, Lost, TraceLock.Checks, TraceLock.Inserts,
      TraceLock.Starts, TraceLock.Reads, TraceLock.Commits, TraceLock.Fails, TraceLock.Takes, TraceLock.Leaves,
      Delivery.Claims, Delivery.GivesUp, Delivery.Retries, Delivery.Buries, Delivery.Crashes;
    QueueGoesOn(a);
    StoreChecks(judged, base, n, 0, n + 1);
    StoreRefuses(judged, base, n, n + 1);
    var idle := With(judged, base, TraceLock.Away, n);
    more := Move(run, Handing(a), idle, Waiting(a + 1), idle);
    more := Start(judged, more, base, a + 1, n);
    var inserting := With(judged, base, TraceLock.Inserting(n, 0), n + 1);
    more := Process(judged, more, a + 1, n, With(judged, base, TraceLock.Appending(n, 0), n + 1), inserting);
    more := Process(judged, more, a + 1, n, inserting, With(judged, base, TraceLock.Failing, n + 1));
    more := GiveUp(judged, more, base, a + 1, n + 1);
  }

  /** After the first attempt has failed, two retries are turned away and the job is
      dead-lettered. */
  lemma RetriesInVain(judged: bool, run: seq<State>, base: TraceLock.State) returns (more: seq<State>)
    requires Reached(run, Handing(1), With(judged, base, TraceLock.Away, 1))
    requires TraceLock.Key(0, 0) in base.table && 0 in base.rows
    ensures Reached(more, Buried(3), With(judged, base, TraceLock.Away, 3))
  {
    hide Try, With, Waiting, Holding, Handing, Reached, Buried, Lost, Delivery.Claims, Delivery.GivesUp,
      Delivery.Retries, Delivery.Buries, Delivery.Crashes;
    QueueGoesOn(3);
    more := Retry(judged, run, base, 1, 1);
    more := Retry(judged, more, base, 2, 2);
    more := Move(more, Handing(3), With(judged, base, TraceLock.Away, 3),
                 Buried(3), With(judged, base, TraceLock.Away, 3));
  }

  lemma StoredIsOpen(judged: bool, k: nat)
    requires k <= |Try(judged, 0).events|
    ensures 0 in Stored(judged, k).rows
  {
    hide Try;
  }

  /** The first attempt stores its events from the k-th on. */
  lemma StoreRest(judged: bool, run: seq<State>, k: nat, upTo: nat) returns (more: seq<State>)
    requires k < upTo <= |Try(judged, 0).events|
    requires Reached(run, Holding(1), With(judged, Stored(judged, k), TraceLock.Appending(0, k), 1))
    ensures Reached(more, Holding(1),
                    With(judged, Stored(judged, upTo), TraceLock.Following(Try(judged, 0), 0, upTo - 1), 1))
    decreases upTo - k
  {
    hide Try, With, Stored, Holding, Reached, TraceLock.Following, TraceLock.Starts, TraceLock.Checks,
      TraceLock.Inserts, TraceLock.Reads, TraceLock.Commits, TraceLock.Fails;
    StoredIsOpen(judged, k);
    StoreChecks(judged, Stored(judged, k), 0, k, 1);
    StoreInserts(judged, k, 1);
    var inserting := With(judged, Stored(judged, k), TraceLock.Inserting(0, k), 1);
    more := Process(judged, run, 1, 0, With(judged, Stored(judged, k), TraceLock.Appending(0, k), 1), inserting);
    more := Process(judged, more, 1, 0, inserting,
                    With(judged, Stored(judged, k + 1), TraceLock.Following(Try(judged, 0), 0, k), 1));
    if k + 1 < upTo {
      assert TraceLock.Following(Try(judged, 0), 0, k) == TraceLock.Appending(0, k + 1) by {
        FollowingGoesOn(Try(judged, 0), 0, k);
      }
      more := StoreRest(judged, more, k + 1, upTo);
    }
  }

  // ---------------------------------------------------------------- the three runs

  /** A run, with the default number of attempts, that ends in this state. */
  ghost predicate Happens(s: State) {
    exists run :: Reached(run, s.delivery, s.store)
  }

  lemma Happened(run: seq<State>, d: Delivery.State, s: TraceLock.State)
    requires Reached(run, d, s)
    ensures Happens(State(d, s))
  {
    hide Reached;
    assert Reached(run, State(d, s).delivery, State(d, s).store);
  }

  /** A job can be lost: its worker crashes in the hand-off, and no copy is left. */
  lemma JobCanBeLost()
    ensures exists s :: Happens(s) && |s.delivery.first| > 0 && !Delivery.HasCopy(s.delivery, 0)
  {
    hide Try, With, Stored, Delivery.Claims, Delivery.GivesUp, Delivery.Retries, Delivery.Buries, Delivery.Crashes,
      TraceLock.Fails, TraceLock.Leaves, Delivery.HasCopy, Waiting, Holding, Handing, Reached, Happens, Lost;
    QueueGoesOn(1);
    StoreFails(true, Stored(true, 0), TraceLock.Looking, 1);
    LostHasNoCopy(1);
    var idle := With(true, Stored(true, 0), TraceLock.Away, 1);
    var run := Begin(true);
    run := Start(true, run, Stored(true, 0), 1, 0);
    run := Fail(true, run, Stored(true, 0), TraceLock.Appending(0, 0), 1, 1);
    run := Move(run, Handing(1), idle, Lost(1), idle);
    Happened(run, Lost(1), idle);
    assert State(Lost(1), idle).delivery == Lost(1);
  }

  lemma LostHasNoCopy(a: Positive)
    ensures !Delivery.HasCopy(Lost(a), 0) && |Lost(a).first| > 0
  {
  }

  /** A job at execution e is dead-lettered. */
  ghost predicate DeadAt(s: State, e: Id) {
    exists k | 0 <= k < |s.delivery.queue.dead| :: s.delivery.queue.dead[k].job.execution == e
  }

  lemma BuriedIsDead(a: Positive, s: TraceLock.State)
    ensures DeadAt(State(Buried(a), s), 0)
  {
    assert Buried(a).queue.dead[0].job.execution == 0;
  }

  lemma StoredFacts(judged: bool, k: nat, n: nat)
    requires 0 < k <= |Try(judged, 0).events| && 0 < n
    ensures TraceLock.Key(0, 0) in Stored(judged, k).table && 0 in Stored(judged, k).rows
    ensures !TraceLock.IsFinal(With(judged, Stored(judged, k), TraceLock.Away, n), 0)
    ensures TraceLock.GivenUp(With(judged, Stored(judged, k), TraceLock.Away, n), 0)
  {
    hide Try;
  }

  lemma RecordedFacts(judged: bool, n: nat)
    requires |Try(judged, 0).events| > 0
    ensures TraceLock.Key(0, 0) in Recorded(judged).table && 0 in Recorded(judged).rows
    ensures TraceLock.IsFinal(With(judged, Recorded(judged), TraceLock.Away, n), 0)
  {
    hide Try;
  }

  lemma FollowingGoesOn(a: TraceLock.Attempt, me: nat, n: nat)
    ensures !TraceLock.Following(a, me, n).Away? && !TraceLock.Following(a, me, n).Succeeded?
    ensures n + 1 == |a.events| ==> TraceLock.Following(a, me, n) == TraceLock.Recording(me)
    ensures n + 1 < |a.events| ==> TraceLock.Following(a, me, n) == TraceLock.Appending(me, n + 1)
  {
  }

  /** An execution can be left without a result for good: the first attempt stores an event
      and fails, both retries are turned away at their first event, and the job is
      dead-lettered with the execution open and given up. */
  lemma RetriesCanBeInVain()
    ensures exists s, e :: Happens(s) && DeadAt(s, e) && TraceLock.GivenUp(s.store, e) && !TraceLock.IsFinal(s.store, e)
  {
    hide Try, With, Stored, Waiting, Holding, Handing, Buried, TraceLock.Genuine, TraceLock.Following, AttemptAt,
      Reached, Happens, DeadAt, TraceLock.GivenUp, TraceLock.IsFinal;
    TryIsGenuine(true, 0);
    StoredFacts(true, 1, 3);
    FollowingGoesOn(Try(true, 0), 0, 0);
    var end := With(true, Stored(true, 1), TraceLock.Away, 3);
    BuriedIsDead(3, end);
    var run := Begin(true);
    run := Start(true, run, Stored(true, 0), 1, 0);
    run := StoreRest(true, run, 0, 1);
    run := Fail(true, run, Stored(true, 1), TraceLock.Following(Try(true, 0), 0, 0), 1, 1);
    run := RetriesInVain(true, run, Stored(true, 1));
    Happened(run, Buried(3), end);
    assert State(Buried(3), end).store == end;
  }

  /** The first attempt stores its whole trace and writes its result. */
  lemma Record(judged: bool) returns (run: seq<State>)
    ensures Reached(run, Holding(1), With(judged, Recorded(judged), TraceLock.Confirming(0), 1))
  {
    hide Try, With, Stored, Recorded, Waiting, Holding, TraceLock.Genuine, TraceLock.Following, AttemptAt, Reached,
      TraceLock.Reads, TraceLock.Commits;
    TryIsGenuine(judged, 0);
    StoreRecords(judged, 1);
    var n := |Try(judged, 0).events|;
    FollowingGoesOn(Try(judged, 0), 0, n - 1);
    run := Begin(judged);
    run := Start(judged, run, Stored(judged, 0), 1, 0);
    run := StoreRest(judged, run, 0, n);
    var committing := With(judged, Stored(judged, n), TraceLock.Committing(0), 1);
    run := Process(judged, run, 1, 0, With(judged, Stored(judged, n), TraceLock.Recording(0), 1), committing);
    run := Process(judged, run, 1, 0, committing, With(judged, Recorded(judged), TraceLock.Confirming(0), 1));
  }

  /** A job may be dead-lettered and its execution final all the same, with judges and
      without: the judges raise after the result is recorded, or the answer to the write is
      lost, and both retries are turned away. */
  lemma DeadLetteredYetFinal(judged: bool)
    ensures exists s, e ::
      && Happens(s) && DeadAt(s, e) && TraceLock.IsFinal(s.store, e)
      && |s.store.attempts| > 0 && forall a | a in s.store.attempts :: a.judged == judged
  {
    hide Try, With, Recorded, Holding, Handing, Buried, TraceLock.Genuine, AttemptAt, Reached, Happens, DeadAt,
      TraceLock.IsFinal, TraceLock.Starts, TraceLock.Checks, TraceLock.Inserts, TraceLock.Reads, TraceLock.Commits,
      TraceLock.Confirms, TraceLock.Fails;
    TryIsGenuine(judged, 0);
    RecordedFacts(judged, 3);
    StoreRecords(judged, 1);
    var base := Recorded(judged);
    AttemptsOf(judged, base, 3);
    var end := With(judged, base, TraceLock.Away, 3);
    BuriedIsDead(3, end);
    var run := Record(judged);
    if judged {
      run := Process(judged, run, 1, 0, With(judged, base, TraceLock.Confirming(0), 1),
                     With(judged, base, TraceLock.Judging(0), 1));
      run := Fail(judged, run, base, TraceLock.Judging(0), 1, 1);
    } else {
      run := Fail(judged, run, base, TraceLock.Confirming(0), 1, 1);
    }
    run := RetriesInVain(judged, run, base);
    Happened(run, Buried(3), end);
    assert State(Buried(3), end).store == end;
  }

  lemma AttemptsOf(judged: bool, base: TraceLock.State, n: nat)
    ensures |With(judged, base, TraceLock.Away, n).attempts| == n
    ensures forall a | a in With(judged, base, TraceLock.Away, n).attempts :: a.judged == judged
  {
    hide Try, AttemptAt, TraceLock.Genuine;
    forall i: nat ensures Try(judged, i).judged == judged {
      TryIsGenuine(judged, i);
    }
  }
}
