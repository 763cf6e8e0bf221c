/** How far the workers of the protocol go: how many steps they take at most, that they stop
    only when there is nothing left to do, and what has become of the jobs by then. */
module Progress {
  import opened TraceModel
  import opened JobQueue
  import Delivery
  import Oracle
  import Runner
  import TraceLock
  import Worker
  import opened Protocol

  /** The most events a worker ever has to store for one attempt. */
  const MAX_EVENTS := 4 * Worker.DEFAULT_MAX_STEPS + 1

  lemma AttemptIsShort(a: TraceLock.Attempt, job: Job, registry: Registry)
    requires AttemptAt(a, job, registry) && TraceLock.Genuine(a)
    ensures |a.events| <= MAX_EVENTS
  {
    hide Oracle.ReplyTo;
    assert TraceLock.EndsIn(a.cfg, Runner.Run(a.cfg));
    Oracle.OracleTraceLength(a.cfg, a.task);
  }

  // ---------------------------------------------------------------- what is left to do

  /** A bound on the steps a worker at this phase takes before it is done with its job. */
  function Left(attempts: seq<TraceLock.Attempt>, p: TraceLock.Phase): nat {
    match p
    case Away => 0
    case Looking => 2 * MAX_EVENTS + 6
    case Appending(me, n) =>
      if me < |attempts| && n < |attempts[me].events| then 2 * (|attempts[me].events| - n) + 5 else 0
    case Inserting(me, n) =>
      if me < |attempts| && n < |attempts[me].events| then 2 * (|attempts[me].events| - n) + 4 else 0
    case Recording(_) => 5
    case Committing(_) => 4
    case Confirming(_) => 3
    case Judging(_) => 2
    case Succeeded(_) => 1
    case Failing => 1
  }

  function LeftOf(s: TraceLock.State): seq<nat> {
    seq(|s.phases|, w requires 0 <= w < |s.phases| => Left(s.attempts, s.phases[w]))
  }

  /** One more than the steps of any attempt. */
  const ATTEMPT_STEPS := 2 * MAX_EVENTS + 7

  /** A bound on the steps all workers together can still take: each step on the queue can
      be followed by those of one attempt. */
  function Measure(s: State, maxAttempts: int): nat {
    ATTEMPT_STEPS * Delivery.Potential(s.delivery, maxAttempts) + Delivery.Sum(LeftOf(s.store))
  }

  /** A worker that is not gone takes a step. */
  ghost predicate Works(s: State, t: State, w: nat, maxAttempts: int, registry: Registry) {
    WorkerStep(s, t, w, maxAttempts, registry) && w < |s.delivery.hands| && !s.delivery.hands[w].Gone?
  }

  lemma LeftUpdate(s: TraceLock.State, t: TraceLock.State, w: nat)
    requires TraceLock.Separate(s) && w < |s.phases| == |t.phases|
    requires t.phases == s.phases[w := t.phases[w]] && s.attempts <= t.attempts
    ensures LeftOf(t) == LeftOf(s)[w := Left(t.attempts, t.phases[w])]
    ensures Delivery.Sum(LeftOf(t))
         == Delivery.Sum(LeftOf(s)) - Left(s.attempts, s.phases[w]) + Left(t.attempts, t.phases[w])
  {
    forall v | 0 <= v < |s.phases| && v != w ensures Left(t.attempts, s.phases[v]) == Left(s.attempts, s.phases[v]) {
      assert TraceLock.Mine(s.phases[v]).Some? ==> TraceLock.Mine(s.phases[v]).value < |s.attempts|;
    }
    Delivery.SumUpdate(LeftOf(s), w, Left(t.attempts, t.phases[w]));
  }

  lemma StartIsShort(s: TraceLock.State, t: TraceLock.State, w: nat, a: TraceLock.Attempt, job: Job, registry: Registry)
    requires AttemptAt(a, job, registry) && TraceLock.Starts(s, t, w, a)
    ensures w < |s.phases| && |t.phases| == |s.phases|
    ensures Left(t.attempts, t.phases[w]) < Left(s.attempts, s.phases[w])
  {
    AttemptIsShort(a, job, registry);
    hide AttemptAt, TraceLock.Genuine;
  }

  /** Every further step of `process_job` leaves less to do. */
  lemma GoingOnIsShort(s: TraceLock.State, t: TraceLock.State, w: nat)
    requires TraceLock.Inv(s)
    requires TraceLock.Checks(s, t, w) || TraceLock.Inserts(s, t, w) || TraceLock.Reads(s, t, w)
          || TraceLock.Commits(s, t, w) || TraceLock.Confirms(s, t, w) || TraceLock.Judges(s, t, w)
          || TraceLock.Fails(s, t, w)
    ensures w < |s.phases| && |t.phases| == |s.phases|
    ensures Left(t.attempts, t.phases[w]) < Left(s.attempts, s.phases[w])
  {
    TraceLock.MineGoingOn(s, t, w);
    if TraceLock.Mine(s.phases[w]).Some? {
      TraceLock.PositionedAt(s, w);
    }
    hide TraceLock.Inv, TraceLock.Has, TraceLock.RowIs, TraceLock.KeyOf, TraceLock.Holds1, TraceLock.Shaped,
      RedactEvent, TraceLock.Inserts;
    if TraceLock.Inserts(s, t, w) {
      InsertIsShort(s, t, w);
    }
  }

  lemma InsertIsShort(s: TraceLock.State, t: TraceLock.State, w: nat)
    requires TraceLock.Inserts(s, t, w)
    ensures |t.phases| == |s.phases| && Left(t.attempts, t.phases[w]) < Left(s.attempts, s.phases[w])
  {
    hide TraceLock.KeyOf, RedactEvent;
  }

  lemma ProcessesProgresses(s: State, t: State, w: nat, maxAttempts: int, registry: Registry)
    requires Inv(s, maxAttempts, registry) && Processes(s, t, w, registry)
    ensures Measure(t, maxAttempts) < Measure(s, maxAttempts)
  {
    ProcessesMine(s, t, w, registry);
    LeftUpdate(s.store, t.store, w);
    hide Left, LeftOf, TraceLock.Inv, Delivery.Inv, Delivery.Potential, Delivery.Sum, Linked, AttemptAt,
      TraceLock.Genuine, TraceLock.Starts, TraceLock.Checks, TraceLock.Inserts, TraceLock.Reads, TraceLock.Commits,
      TraceLock.Confirms, TraceLock.Judges, TraceLock.Fails;
    if a :| AttemptAt(a, s.delivery.hands[w].entry.job, registry) && TraceLock.Starts(s.store, t.store, w, a) {
      StartIsShort(s.store, t.store, w, a, s.delivery.hands[w].entry.job, registry);
    } else {
      GoingOnIsShort(s.store, t.store, w);
    }
  }

  /** On the store's side, a step on the queue starts one attempt at most. */
  lemma QueueStepLeft(s: TraceLock.State, t: TraceLock.State, w: nat)
    requires TraceLock.Separate(s) && (TraceLock.Takes(s, t, w) || TraceLock.Leaves(s, t, w) || t == s)
    ensures Delivery.Sum(LeftOf(t)) < Delivery.Sum(LeftOf(s)) + ATTEMPT_STEPS
  {
    if t != s {
      LeftUpdate(s, t, w);
    }
  }

  lemma QueueStepProgresses(s: State, t: State, w: nat, maxAttempts: int, registry: Registry)
    requires Inv(s, maxAttempts, registry) && Works(s, t, w, maxAttempts, registry) && !Processes(s, t, w, registry)
    ensures Measure(t, maxAttempts) < Measure(s, maxAttempts)
  {
    QueueStepLeft(s.store, t.store, w);
    hide LeftOf, TraceLock.Inv, Delivery.Inv, Delivery.Potential, Delivery.Sum, Linked, TraceLock.Takes,
      TraceLock.Leaves, Delivery.Claims, Delivery.Acknowledges, Delivery.GivesUp, Delivery.Retries, Delivery.Buries,
      Delivery.Crashes;
    Delivery.StepProgresses(s.delivery, t.delivery, w, maxAttempts);
  }

  /** Every step of a living worker, on the queue or on the store, failures and crashes
      included, leaves less to do. */
  lemma StepProgresses(s: State, t: State, w: nat, maxAttempts: int, registry: Registry)
    requires Inv(s, maxAttempts, registry) && Works(s, t, w, maxAttempts, registry)
    ensures Measure(t, maxAttempts) < Measure(s, maxAttempts)
  {
    hide Measure, Inv, Works, Processes;
    if Processes(s, t, w, registry) {
      ProcessesProgresses(s, t, w, maxAttempts, registry);
    } else {
      QueueStepProgresses(s, t, w, maxAttempts, registry);
    }
  }

  // ---------------------------------------------------------------- what clients add

  /** The steps on the queue that the enqueued jobs allow: three for every claim. */
  function Allowed(first: seq<Job>, maxAttempts: int): seq<nat> {
    seq(|first|, l requires 0 <= l < |first| => 3 * Budget(first[l].attempt, maxAttempts))
  }

  /** What the jobs enqueued and the workers started so far allow in all. */
  function Granted(s: Delivery.State, maxAttempts: int): nat {
    ATTEMPT_STEPS * (Delivery.Sum(Allowed(s.first, maxAttempts)) + |s.hands|)
  }

  lemma {:induction false} SumSnoc(ns: seq<nat>, n: nat)
    ensures Delivery.Sum(ns + [n]) == Delivery.Sum(ns) + n
  {
    if ns == [] {
      assert ns + [n] == [n];
    } else {
      SumSnoc(ns[1..], n);
      assert (ns + [n])[1..] == ns[1..] + [n];
    }
  }

  lemma EnqueueGrants(s: Delivery.State, t: Delivery.State, job: Job, maxAttempts: int)
    requires Delivery.Inv(s, maxAttempts) && Delivery.Enqueues(s, t, job)
    ensures Delivery.Potential(t, maxAttempts) - Delivery.Potential(s, maxAttempts)
         == Delivery.Sum(Allowed(t.first, maxAttempts)) - Delivery.Sum(Allowed(s.first, maxAttempts))
  {
    var n, grant := |s.first|, 3 * Budget(job.attempt, maxAttempts);
    assert Allowed(t.first, maxAttempts) == Allowed(s.first, maxAttempts) + [grant];
    SumSnoc(Allowed(s.first, maxAttempts), grant);
    forall l | 0 <= l < n ensures Delivery.Ahead(t, l, maxAttempts) == Delivery.Ahead(s, l, maxAttempts) {
      assert l !in s.lost ==> Delivery.IsCopy(s, s.place[l], l);
    }
    assert Delivery.AheadOf(t, maxAttempts) == Delivery.AheadOf(s, maxAttempts) + [grant];
    SumSnoc(Delivery.AheadOf(s, maxAttempts), grant);
  }

  lemma SpawnGrants(s: Delivery.State, t: Delivery.State, maxAttempts: int)
    requires Delivery.Inv(s, maxAttempts) && Delivery.Spawns(s, t)
    ensures Delivery.Potential(t, maxAttempts) == Delivery.Potential(s, maxAttempts) + 1
  {
    forall l | 0 <= l < |s.place| ensures Delivery.Ahead(t, l, maxAttempts) == Delivery.Ahead(s, l, maxAttempts) {
      assert l !in s.lost ==> Delivery.IsCopy(s, s.place[l], l);
    }
    assert Delivery.AheadOf(t, maxAttempts) == Delivery.AheadOf(s, maxAttempts);
    assert Delivery.Alive(t.hands) == Delivery.Alive(s.hands) + [1];
    SumSnoc(Delivery.Alive(s.hands), 1);
  }

  lemma ClientStep(s: State, t: State, job: Job, e: Id, maxAttempts: int, registry: Registry)
    requires Inv(s, maxAttempts, registry) && (Enqueues(s, t, job) || Creates(s, t, e) || Spawns(s, t))
    ensures Measure(t, maxAttempts) - Granted(t.delivery, maxAttempts)
         == Measure(s, maxAttempts) - Granted(s.delivery, maxAttempts)
  {
    hide Delivery.Potential, Delivery.Sum, Allowed, TraceLock.Inv, Delivery.Inv, Linked;
    if Enqueues(s, t, job) {
      EnqueueGrants(s.delivery, t.delivery, job, maxAttempts);
    } else if Spawns(s, t) {
      SpawnGrants(s.delivery, t.delivery, maxAttempts);
      assert LeftOf(t.store) == LeftOf(s.store) + [0];
      SumSnoc(LeftOf(s.store), 0);
    } else {
      assert LeftOf(t.store) == LeftOf(s.store);
    }
  }

  // ---------------------------------------------------------------- the workers finish

  ghost predicate SomeoneWorks(s: State, t: State, maxAttempts: int, registry: Registry) {
    exists w: nat :: Works(s, t, w, maxAttempts, registry)
  }

  /** How many of the steps from state i to state j are steps of living workers. */
  ghost function WorkerSteps(run: seq<State>, i: nat, j: nat, maxAttempts: int, registry: Registry): nat
    requires i <= j < |run|
    decreases j
  {
    if i == j then 0
    else WorkerSteps(run, i, j - 1, maxAttempts, registry)
         + if SomeoneWorks(run[j - 1], run[j], maxAttempts, registry) then 1 else 0
  }

  lemma WorkerStepGrantsNothing(s: State, t: State, w: nat, maxAttempts: int, registry: Registry)
    requires WorkerStep(s, t, w, maxAttempts, registry)
    ensures Granted(t.delivery, maxAttempts) == Granted(s.delivery, maxAttempts)
  {
    hide Delivery.Sum, Allowed, AttemptAt, TraceLock.Starts, TraceLock.Checks, TraceLock.Inserts, TraceLock.Reads,
      TraceLock.Commits, TraceLock.Confirms, TraceLock.Judges, TraceLock.Fails, TraceLock.Takes, TraceLock.Leaves;
  }

  /** A worker that is gone takes no steps. */
  lemma GoneIsGone(s: State, t: State, w: nat, maxAttempts: int, registry: Registry)
    requires Linked(s, registry) && WorkerStep(s, t, w, maxAttempts, registry)
    requires !Works(s, t, w, maxAttempts, registry)
    ensures t == s
  {
    WorkerAt(s, t, w, maxAttempts, registry);
    hide TraceLock.Genuine, AttemptAt, IsDone;
    assert LinkedAt(s, w, registry);
  }

  lemma StepAccounts(s: State, t: State, maxAttempts: int, registry: Registry)
    requires Inv(s, maxAttempts, registry) && Next(s, t, maxAttempts, registry)
    ensures Measure(t, maxAttempts) - Granted(t.delivery, maxAttempts)
            + (if SomeoneWorks(s, t, maxAttempts, registry) then 1 else 0)
         <= Measure(s, maxAttempts) - Granted(s.delivery, maxAttempts)
  {
    hide Measure, Granted, Inv, Works, Enqueues, Creates, Spawns, WorkerStep;
    if w: nat :| Works(s, t, w, maxAttempts, registry) {
      WorkerStepOf(s, t, w, maxAttempts, registry);
      StepProgresses(s, t, w, maxAttempts, registry);
      WorkerStepGrantsNothing(s, t, w, maxAttempts, registry);
    } else if w: nat :| WorkerStep(s, t, w, maxAttempts, registry) {
      LinkedOf(s, maxAttempts, registry);
      GoneIsGone(s, t, w, maxAttempts, registry);
    } else if job :| Enqueues(s, t, job) {
      ClientStep(s, t, job, 0, maxAttempts, registry);
    } else if e :| Creates(s, t, e) {
      ClientStep(s, t, Job(0, 0, "", 1), e, maxAttempts, registry);
    } else {
      ClientStep(s, t, Job(0, 0, "", 1), 0, maxAttempts, registry);
    }
  }

  lemma WorkerStepOf(s: State, t: State, w: nat, maxAttempts: int, registry: Registry)
    requires Works(s, t, w, maxAttempts, registry)
    ensures WorkerStep(s, t, w, maxAttempts, registry)
  {
  }

  lemma LinkedOf(s: State, maxAttempts: int, registry: Registry)
    requires Inv(s, maxAttempts, registry)
    ensures Linked(s, registry)
  {
  }

  /** Main result: between any two states of a run the workers take no more steps than were
      left to do, plus what clients added meanwhile. */
  lemma {:induction false} WorkersFinish(run: seq<State>, i: nat, j: nat, maxAttempts: int, registry: Registry)
    requires IsRun(run, maxAttempts, registry) && i <= j < |run|
    ensures WorkerSteps(run, i, j, maxAttempts, registry) + Measure(run[j], maxAttempts)
         <= Measure(run[i], maxAttempts) + Granted(run[j].delivery, maxAttempts) - Granted(run[i].delivery, maxAttempts)
    decreases j - i
  {
    hide Measure, Granted, Inv, Next, SomeoneWorks;
    if i < j {
      WorkersFinish(run, i, j - 1, maxAttempts, registry);
      RunKeeps(run, j - 1, maxAttempts, registry);
      StepAccounts(run[j - 1], run[j], maxAttempts, registry);
    }
  }

  /** From the start on: for every claim that a job allows and for every worker, a fixed
      number of steps, whatever fails, crashes or is tried again. */
  lemma AllWorkBounded(run: seq<State>, j: nat, maxAttempts: int, registry: Registry)
    requires IsRun(run, maxAttempts, registry) && j < |run|
    ensures WorkerSteps(run, 0, j, maxAttempts, registry) + Measure(run[j], maxAttempts)
         <= Granted(run[j].delivery, maxAttempts)
  {
    hide Measure, Granted, Next, SomeoneWorks, Init;
    NothingLeftAtFirst(run[0], maxAttempts);
    WorkersFinish(run, 0, j, maxAttempts, registry);
  }

  lemma NothingLeftAtFirst(s: State, maxAttempts: int)
    requires Init(s)
    ensures Measure(s, maxAttempts) == 0
  {
    assert Delivery.AheadOf(s.delivery, maxAttempts) == [] && LeftOf(s.store) == [];
    assert Delivery.Alive(s.delivery.hands) == [];
  }

  /** The states i, i + 1, ..., j of a run are linked by steps of living workers only. */
  ghost predicate WorkersOnly(run: seq<State>, i: nat, j: nat, maxAttempts: int, registry: Registry)
    requires i <= j < |run|
  {
    forall k | i <= k < j :: SomeoneWorks(run[k], run[k + 1], maxAttempts, registry)
  }

  /** Once clients stop, the workers stop: they take no more steps than there are left. */
  lemma {:induction false} WorkersAloneFinish(run: seq<State>, i: nat, j: nat, maxAttempts: int, registry: Registry)
    requires IsRun(run, maxAttempts, registry) && i <= j < |run| && WorkersOnly(run, i, j, maxAttempts, registry)
    ensures j - i + Measure(run[j], maxAttempts) <= Measure(run[i], maxAttempts)
    decreases j - i
  {
    hide Measure, Inv, Next, Works;
    if i < j {
      WorkersAloneFinish(run, i, j - 1, maxAttempts, registry);
      RunKeeps(run, j - 1, maxAttempts, registry);
      assert SomeoneWorks(run[j - 1], run[j - 1 + 1], maxAttempts, registry);
      var w: nat :| Works(run[j - 1], run[j], w, maxAttempts, registry);
      StepProgresses(run[j - 1], run[j], w, maxAttempts, registry);
    }
  }

  // ---------------------------------------------------------------- ... and never stop early

  /** A worker's next step other than a crash. */
  ghost predicate GoesOn(s: State, t: State, w: nat, maxAttempts: int, registry: Registry) {
    || Claims(s, t, w) || Processes(s, t, w, registry) || Acknowledges(s, t, w) || GivesUp(s, t, w)
    || HandsOff(s, t, w, maxAttempts)
  }

  /** The step of `process_job` that comes next at this phase is possible; a look-up or a run
      can fail, and any run that completes can be taken up. */
  ghost predicate NextIsPossible(s: State, w: nat, job: Job, registry: Registry)
    requires w < |s.store.phases|
  {
    match s.store.phases[w]
    case Away => false
    case Looking =>
      && (exists u :: TraceLock.Fails(s.store, u, w))
      && forall a | AttemptAt(a, job, registry) && TraceLock.Genuine(a) ::
           exists u :: TraceLock.Starts(s.store, u, w, a)
    case Appending(_, _) => exists u :: TraceLock.Checks(s.store, u, w)
    case Inserting(_, _) => exists u :: TraceLock.Inserts(s.store, u, w)
    case Recording(_) => exists u :: TraceLock.Reads(s.store, u, w)
    case Committing(_) => exists u :: TraceLock.Commits(s.store, u, w)
    case Confirming(_) => exists u :: TraceLock.Confirms(s.store, u, w)
    case Judging(_) => exists u :: TraceLock.Judges(s.store, u, w)
    case Succeeded(_) => exists t :: Acknowledges(s, t, w)
    case Failing => exists t :: GivesUp(s, t, w)
  }

  lemma StoreGoesOn(s: TraceLock.State, w: nat)
    requires TraceLock.Inv(s) && w < |s.phases|
    ensures match s.phases[w]
      case Looking =>
        && (exists u :: TraceLock.Fails(s, u, w))
        && forall a | TraceLock.Genuine(a) :: exists u :: TraceLock.Starts(s, u, w, a)
      case Appending(_, _) => exists u :: TraceLock.Checks(s, u, w)
      case Inserting(_, _) => exists u :: TraceLock.Inserts(s, u, w)
      case Recording(_) => exists u :: TraceLock.Reads(s, u, w)
      case Committing(_) => exists u :: TraceLock.Commits(s, u, w)
      case Confirming(_) => exists u :: TraceLock.Confirms(s, u, w)
      case Judging(_) => exists u :: TraceLock.Judges(s, u, w)
      case _ => true
  {
    if TraceLock.Mine(s.phases[w]).Some? {
      TraceLock.PositionedAt(s, w);
    }
    hide TraceLock.Inv, TraceLock.Genuine, TraceLock.Has, TraceLock.RowIs;
    match s.phases[w]
    case Looking =>
      assert TraceLock.Fails(s, TraceLock.To(s, w, TraceLock.Failing), w);
      forall a | TraceLock.Genuine(a) ensures exists u :: TraceLock.Starts(s, u, w, a) {
        var u := TraceLock.To(s, w, TraceLock.Appending(|s.attempts|, 0)).(attempts := s.attempts + [a]);
        assert TraceLock.Starts(s, u, w, a);
      }
    case Appending(me, n) =>
      var p := if s.attempts[me].execution in s.rows then TraceLock.Inserting(me, n) else TraceLock.Failing;
      assert TraceLock.Checks(s, TraceLock.To(s, w, p), w);
    case Inserting(me, n) =>
      InsertGoesOn(s, w);
    case Recording(me) =>
      var e := s.attempts[me].execution;
      var open := e in s.rows && s.rows[e].Open?;
      assert TraceLock.Reads(s, TraceLock.To(s, w, if open then TraceLock.Committing(me) else TraceLock.Failing), w);
    case Committing(me) =>
      var a := s.attempts[me];
      var u := TraceLock.To(s, w, TraceLock.Confirming(me)).(
        rows := s.rows[a.execution := TraceLock.Final(a.result)], commits := s.commits + [a.execution]);
      assert TraceLock.Commits(s, u, w);
    case Confirming(me) =>
      var p := if s.attempts[me].judged then TraceLock.Judging(me) else TraceLock.Succeeded(me);
      assert TraceLock.Confirms(s, TraceLock.To(s, w, p), w);
    case Judging(me) =>
      assert TraceLock.Judges(s, TraceLock.To(s, w, TraceLock.Succeeded(me)), w);
    case _ =>
  }

  lemma InsertGoesOn(s: TraceLock.State, w: nat)
    requires w < |s.phases| && s.phases[w].Inserting? && s.phases[w].me < |s.attempts|
    requires s.phases[w].next < |s.attempts[s.phases[w].me].events|
    ensures exists u :: TraceLock.Inserts(s, u, w)
  {
    hide RedactEvent;
    var me, n := s.phases[w].me, s.phases[w].next;
    var a := s.attempts[me];
    if TraceLock.KeyOf(a, n) in s.table {
      assert TraceLock.Inserts(s, TraceLock.To(s, w, TraceLock.Failing), w);
    } else {
      var u := TraceLock.To(s, w, TraceLock.Following(a, me, n)).(
        table := s.table[TraceLock.KeyOf(a, n) := RedactEvent(a.events[n])],
        holds := s.holds[a.execution := TraceLock.Hold(me, n + 1)]);
      assert TraceLock.Inserts(s, u, w);
    }
  }

  /** What a worker can do next, a failure or a crash aside. */
  ghost predicate Enabled(s: State, w: nat, maxAttempts: int, registry: Registry)
    requires w < |s.delivery.hands| && w < |s.store.phases|
  {
    match s.delivery.hands[w]
    case Free => s.delivery.queue.cursor < |s.delivery.queue.stream| ==> exists t :: Claims(s, t, w)
    case Holding(_, e) => NextIsPossible(s, w, e.job, registry)
    case HandingOff(_) => exists t :: HandsOff(s, t, w, maxAttempts)
    case Gone => true
  }

  lemma HeldGoesOn(s: State, w: nat, maxAttempts: int, registry: Registry)
    requires TraceLock.Inv(s.store) && w < |s.store.phases| && w < |s.delivery.hands| && LinkedAt(s, w, registry)
    requires Delivery.CanGoOn(s.delivery, w, maxAttempts) && s.delivery.hands[w].Holding?
    ensures NextIsPossible(s, w, s.delivery.hands[w].entry.job, registry)
  {
    StoreGoesOn(s.store, w);
    hide TraceLock.Inv, TraceLock.Starts, TraceLock.Checks, TraceLock.Inserts, TraceLock.Reads, TraceLock.Commits,
      TraceLock.Confirms, TraceLock.Judges, TraceLock.Fails, TraceLock.Genuine, AttemptAt, Delivery.Acknowledges,
      Delivery.GivesUp;
    var u := TraceLock.To(s.store, w, TraceLock.Away);
    if s.store.phases[w].Succeeded? {
      var d :| Delivery.Acknowledges(s.delivery, d, w);
      assert Acknowledges(s, State(d, u), w);
    } else if s.store.phases[w].Failing? {
      var d :| Delivery.GivesUp(s.delivery, d, w);
      assert GivesUp(s, State(d, u), w);
    }
  }

  lemma AnyGoesOn(s: State, w: nat, maxAttempts: int, registry: Registry)
    requires Inv(s, maxAttempts, registry) && w < |s.delivery.hands|
    ensures w < |s.store.phases| && Enabled(s, w, maxAttempts, registry)
  {
    Delivery.HandGoesOn(s.delivery, w, maxAttempts);
    assert LinkedAt(s, w, registry);
    hide TraceLock.Inv, Delivery.Inv, Delivery.Claims, Delivery.Retries, Delivery.Buries, NextIsPossible, AttemptAt;
    match s.delivery.hands[w]
    case Free =>
      if s.delivery.queue.cursor < |s.delivery.queue.stream| {
        var d :| Delivery.Claims(s.delivery, d, w);
        assert Claims(s, State(d, TraceLock.To(s.store, w, TraceLock.Looking)), w);
      }
    case Holding(_, e) =>
      HeldGoesOn(s, w, maxAttempts, registry);
    case HandingOff(_) =>
      var d :| Delivery.Retries(s.delivery, d, w, maxAttempts) || Delivery.Buries(s.delivery, d, w, maxAttempts);
      assert HandsOff(s, State(d, s.store), w, maxAttempts);
    case Gone =>
  }

  /** Main result: no worker ever waits for another: in every state of every run the next
      step of each worker, whatever it is at, is possible. */
  lemma WorkersNeverStuck(run: seq<State>, i: nat, w: nat, maxAttempts: int, registry: Registry)
    requires IsRun(run, maxAttempts, registry) && i < |run| && w < |run[i].delivery.hands|
    ensures w < |run[i].store.phases| && Enabled(run[i], w, maxAttempts, registry)
  {
    hide Inv, Next, Enabled;
    RunKeeps(run, i, maxAttempts, registry);
    AnyGoesOn(run[i], w, maxAttempts, registry);
  }

  /** Every worker is gone, or free with nothing left to claim. */
  ghost predicate Idle(s: State) {
    forall w | 0 <= w < |s.delivery.hands| ::
      s.delivery.hands[w].Gone? || (s.delivery.hands[w].Free? && s.delivery.queue.cursor == |s.delivery.queue.stream|)
  }

  lemma PossibleGoesOn(s: State, w: nat, maxAttempts: int, registry: Registry)
    requires w < |s.store.phases| && w < |s.delivery.hands| && s.delivery.hands[w].Holding?
    requires NextIsPossible(s, w, s.delivery.hands[w].entry.job, registry)
    ensures exists t :: GoesOn(s, t, w, maxAttempts, registry)
  {
    hide TraceLock.Starts, TraceLock.Checks, TraceLock.Inserts, TraceLock.Reads, TraceLock.Commits,
      TraceLock.Confirms, TraceLock.Judges, TraceLock.Fails, TraceLock.Genuine, AttemptAt, Acknowledges, GivesUp,
      Claims, HandsOff;
    if t :| Acknowledges(s, t, w) || GivesUp(s, t, w) {
      assert GoesOn(s, t, w, maxAttempts, registry);
    } else {
      var u :| TraceLock.Checks(s.store, u, w) || TraceLock.Inserts(s.store, u, w) || TraceLock.Reads(s.store, u, w)
            || TraceLock.Commits(s.store, u, w) || TraceLock.Confirms(s.store, u, w)
            || TraceLock.Judges(s.store, u, w) || TraceLock.Fails(s.store, u, w);
      assert Processes(s, s.(store := u), w, registry);
      assert GoesOn(s, s.(store := u), w, maxAttempts, registry);
    }
  }

  /** Some worker can go on exactly when not all are idle. */
  lemma StuckIffIdle(s: State, maxAttempts: int, registry: Registry)
    requires Inv(s, maxAttempts, registry)
    ensures (exists t, w: nat :: GoesOn(s, t, w, maxAttempts, registry)) <==> !Idle(s)
  {
    hide Inv, NextIsPossible, Processes, TraceLock.Leaves, TraceLock.Takes;
    if !Idle(s) {
      UndeliveredAhead(s, maxAttempts, registry);
      var w :| 0 <= w < |s.delivery.hands| && !s.delivery.hands[w].Gone?
        && (s.delivery.hands[w].Free? ==> s.delivery.queue.cursor != |s.delivery.queue.stream|);
      AnyGoesOn(s, w, maxAttempts, registry);
      hide Claims, HandsOff;
      match s.delivery.hands[w]
      case Free =>
        var t :| Claims(s, t, w);
        assert GoesOn(s, t, w, maxAttempts, registry);
      case Holding(_, _) =>
        PossibleGoesOn(s, w, maxAttempts, registry);
      case HandingOff(_) =>
        var t :| HandsOff(s, t, w, maxAttempts);
        assert GoesOn(s, t, w, maxAttempts, registry);
    } else {
      forall t, w: nat ensures !GoesOn(s, t, w, maxAttempts, registry) {
        if Processes(s, t, w, registry) {
          ProcessesHolds(s, t, w, registry);
        }
      }
    }
  }

  lemma UndeliveredAhead(s: State, maxAttempts: int, registry: Registry)
    requires Inv(s, maxAttempts, registry)
    ensures s.delivery.queue.cursor <= |s.delivery.queue.stream|
  {
  }

  lemma ProcessesHolds(s: State, t: State, w: nat, registry: Registry)
    requires Processes(s, t, w, registry)
    ensures w < |s.delivery.hands| && s.delivery.hands[w].Holding?
  {
  }

  lemma GoesOnWorks(s: State, t: State, w: nat, maxAttempts: int, registry: Registry)
    requires GoesOn(s, t, w, maxAttempts, registry)
    ensures Works(s, t, w, maxAttempts, registry) && Next(s, t, maxAttempts, registry)
  {
    if Processes(s, t, w, registry) {
      ProcessesHolds(s, t, w, registry);
    }
    hide Processes, TraceLock.Takes, TraceLock.Leaves;
    assert WorkerStep(s, t, w, maxAttempts, registry);
  }

  /** These states follow s one after the other by steps of workers, none of them a crash. */
  ghost predicate Continues(s: State, more: seq<State>, maxAttempts: int, registry: Registry) {
    forall k | 0 <= k < |more| :: SomeoneGoesOn(([s] + more)[k], more[k], maxAttempts, registry)
  }

  ghost predicate SomeoneGoesOn(s: State, t: State, maxAttempts: int, registry: Registry) {
    exists w: nat :: GoesOn(s, t, w, maxAttempts, registry)
  }

  function Last(s: State, more: seq<State>): State {
    if more == [] then s else more[|more| - 1]
  }

  lemma {:induction false} Finish(s: State, maxAttempts: int, registry: Registry)
    returns (more: seq<State>)
    requires Inv(s, maxAttempts, registry)
    ensures Continues(s, more, maxAttempts, registry) && |more| <= Measure(s, maxAttempts)
    ensures Idle(Last(s, more))
    decreases Measure(s, maxAttempts)
  {
    hide Inv, Measure, GoesOn, Works, Next, Idle;
    StuckIffIdle(s, maxAttempts, registry);
    if Idle(s) {
      more := [];
    } else {
      var t, w: nat :| GoesOn(s, t, w, maxAttempts, registry);
      GoesOnWorks(s, t, w, maxAttempts, registry);
      StepProgresses(s, t, w, maxAttempts, registry);
      StepKeeps(s, t, maxAttempts, registry);
      var rest := Finish(t, maxAttempts, registry);
      more := [t] + rest;
      forall k | 0 <= k < |more| ensures SomeoneGoesOn(([s] + more)[k], more[k], maxAttempts, registry) {
        if k > 0 {
          assert more[k] == rest[k - 1] && ([s] + more)[k] == ([t] + rest)[k - 1];
        }
      }
    }
  }

  /** Main result: from every state of every run the workers can go on, without a crash,
      until all are idle, within the bound on their steps. */
  lemma WorkCanBeFinished(run: seq<State>, i: nat, maxAttempts: int, registry: Registry) returns (more: seq<State>)
    requires IsRun(run, maxAttempts, registry) && i < |run|
    ensures Continues(run[i], more, maxAttempts, registry) && |more| <= Measure(run[i], maxAttempts)
    ensures Idle(Last(run[i], more))
  {
    hide Inv, Measure, Continues, Next, Idle;
    RunKeeps(run, i, maxAttempts, registry);
    more := Finish(run[i], maxAttempts, registry);
  }

  // ---------------------------------------------------------------- what they leave behind

  /** The job was acknowledged as done or was dead-lettered. */
  ghost predicate Settled(s: Delivery.State, lineage: nat) {
    || (exists k :: 0 <= k < |s.done| && s.done[k].lineage == lineage)
    || (exists k :: 0 <= k < |s.queue.dead| && s.queue.dead[k].lineage == lineage)
  }

  ghost function Unsettled(s: Delivery.State): set<nat> {
    set l: nat | l < |s.first| && !Settled(s, l)
  }

  function Crashed(hands: seq<Delivery.Hand>): seq<nat> {
    seq(|hands|, w requires 0 <= w < |hands| => if hands[w].Gone? then 1 else 0)
  }

  function Occupied(hands: seq<Delivery.Hand>): seq<nat> {
    seq(|hands|, w requires 0 <= w < |hands| => if hands[w].Gone? || hands[w].Holding? then 1 else 0)
  }

  /** Each entry that is pending has a worker that holds it or crashed, each job that is lost
      one that crashed, and no worker counts twice. */
  ghost predicate PaidFor(s: Delivery.State) {
    |s.queue.pending| + |s.lost| <= Delivery.Sum(Occupied(s.hands))
  }

  lemma HandPays(s: Delivery.State, t: Delivery.State, w: nat)
    requires PaidFor(s) && w < |s.hands| == |t.hands| && t.hands == s.hands[w := t.hands[w]]
    requires |t.queue.pending| + |t.lost| + Occupied(s.hands)[w]
          <= |s.queue.pending| + |s.lost| + Occupied(t.hands)[w]
    ensures PaidFor(t)
  {
    Delivery.SumUpdate(Occupied(s.hands), w, Occupied(t.hands)[w]);
    assert Occupied(t.hands) == Occupied(s.hands)[w := Occupied(t.hands)[w]];
  }

  lemma StepPays(s: Delivery.State, t: Delivery.State, maxAttempts: int)
    requires Delivery.Inv(s, maxAttempts) && Delivery.Next(s, t, maxAttempts) && PaidFor(s)
    ensures PaidFor(t)
  {
    hide Delivery.Placed, Delivery.Counted, Delivery.Sum;
    if w: nat :| Delivery.WorkerStep(s, t, w, maxAttempts) {
      HandPays(s, t, w);
    } else if Delivery.Spawns(s, t) {
      SumSnoc(Occupied(s.hands), 0);
      assert Occupied(t.hands) == Occupied(s.hands) + [0];
    }
  }

  lemma {:induction false} RunPays(run: seq<Delivery.State>, i: nat, maxAttempts: int)
    requires Delivery.IsRun(run, maxAttempts) && i < |run|
    ensures PaidFor(run[i])
  {
    hide Delivery.Next, Delivery.Inv;
    if i > 0 {
      RunPays(run, i - 1, maxAttempts);
      Delivery.RunKeeps(run, i - 1, maxAttempts);
      StepPays(run[i - 1], run[i], maxAttempts);
    }
  }

  /** The jobs whose entries are pending. */
  function PendingJobs(g: Group, ids: set<nat>): set<nat> {
    set i | i in ids && i < |g.stream| :: g.stream[i].lineage
  }

  lemma {:induction false} Smaller(a: set<nat>, b: set<nat>)
    requires a <= b
    ensures |a| <= |b|
  {
    if a != {} {
      var x :| x in a;
      Smaller(a - {x}, b - {x});
    }
  }

  lemma {:induction false} FewPendingJobs(g: Group, ids: set<nat>)
    ensures |PendingJobs(g, ids)| <= |ids|
  {
    if ids != {} {
      var i :| i in ids;
      var rest := ids - {i};
      FewPendingJobs(g, rest);
      var one := if i < |g.stream| then {g.stream[i].lineage} else {};
      Smaller(PendingJobs(g, ids), PendingJobs(g, rest) + one);
    }
  }

  lemma UnsettledWhere(s: State, l: nat, maxAttempts: int)
    requires Delivery.Inv(s.delivery, maxAttempts) && Idle(s) && l in Unsettled(s.delivery)
    requires exists w :: 0 <= w < |s.delivery.hands| && !s.delivery.hands[w].Gone?
    ensures l in s.delivery.lost || l in PendingJobs(s.delivery.queue, s.delivery.queue.pending)
  {
    var d := s.delivery;
    if l !in d.lost {
      assert Delivery.IsCopy(d, d.place[l], l);
      if d.place[l].Held? {
        assert d.place[l].at in d.queue.pending;
      }
    }
  }

  /** Main result: when the workers stop, and one is left, each job that was ever enqueued is
      acknowledged as done or dead-lettered, but for one at most for each worker that crashed. */
  lemma LeftBehind(run: seq<State>, i: nat, maxAttempts: int, registry: Registry)
    requires IsRun(run, maxAttempts, registry) && i < |run| && Idle(run[i])
    requires exists w :: 0 <= w < |run[i].delivery.hands| && !run[i].delivery.hands[w].Gone?
    ensures |Unsettled(run[i].delivery)| <= Delivery.Sum(Crashed(run[i].delivery.hands))
  {
    var s := run[i];
    RunKeeps(run, i, maxAttempts, registry);
    Halves(run, maxAttempts, registry);
    RunPays(Deliveries(run), i, maxAttempts);
    hide Delivery.Inv, Next, Delivery.Next, TraceLock.Inv, Linked, Delivery.IsRun, TraceLock.IsRun;
    var held := PendingJobs(s.delivery.queue, s.delivery.queue.pending);
    assert Unsettled(s.delivery) <= s.delivery.lost + held by {
      forall l | l in Unsettled(s.delivery) ensures l in s.delivery.lost + held {
        UnsettledWhere(s, l, maxAttempts);
      }
    }
    Smaller(Unsettled(s.delivery), s.delivery.lost + held);
    FewPendingJobs(s.delivery.queue, s.delivery.queue.pending);
    assert Occupied(s.delivery.hands) == Crashed(s.delivery.hands);
  }
}
