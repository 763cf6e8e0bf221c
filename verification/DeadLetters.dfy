/** When a dead-lettered job has a result all the same (runner/worker.py): the worker treats
    as a failure of the job whatever goes wrong after the result is written, be it that the
    answer to that write is lost or that the judges, asked after it, fail. */
module DeadLetters {
  import opened Json
  import opened TraceModel
  import opened JobQueue
  import opened Protocol
  import Delivery
  import TraceLock

  /** Worker w has written the result of e, and the call that wrote it raises. */
  ghost predicate AnswerLost(s: State, t: State, w: nat, e: Id) {
    TraceLock.ConfirmsAt(s.store, w, e) && w < |t.store.phases| && t.store.phases[w].Failing?
  }

  /** Worker w has recorded the result of e, and then its judges fail. */
  ghost predicate JudgesFail(s: State, t: State, w: nat, e: Id) {
    TraceLock.JudgesAt(s.store, w, e) && w < |t.store.phases| && t.store.phases[w].Failing?
  }

  ghost predicate SomeAnswerLost(s: State, t: State, e: Id) {
    exists w: nat :: AnswerLost(s, t, w, e)
  }

  ghost predicate SomeJudgesFail(s: State, t: State, e: Id) {
    exists w: nat :: JudgesFail(s, t, w, e)
  }

  /** By state i, some attempt at e has failed after its result was written. */
  ghost predicate FailedAfterWriting(run: seq<State>, i: nat, e: Id)
    requires i < |run|
  {
    exists j | 0 <= j < i :: SomeAnswerLost(run[j], run[j + 1], e) || SomeJudgesFail(run[j], run[j + 1], e)
  }

  /** The same, by the lost answer alone. */
  ghost predicate AnswerWasLost(run: seq<State>, i: nat, e: Id)
    requires i < |run|
  {
    exists j | 0 <= j < i :: SomeAnswerLost(run[j], run[j + 1], e)
  }

  /** Lineage l is the only job enqueued for e. */
  ghost predicate OnlyJob(first: seq<Job>, l: nat, e: Id) {
    forall k | 0 <= k < |first| && first[k].execution == e :: k == l
  }

  /** Whoever holds the entry at this place of the stream has the result recorded. */
  ghost predicate HoldersPastCommit(s: State, at: nat) {
    forall w | 0 <= w < |s.delivery.hands| && w < |s.store.phases|
               && s.delivery.hands[w].Holding? && s.delivery.hands[w].at == at ::
      PastCommit(s.store.phases[w])
  }

  predicate PastCommit(p: TraceLock.Phase) {
    p.Confirming? || p.Judging? || p.Succeeded?
  }

  /** While e is final, its job is done, or pending with a worker that has its result
      written, or with none. */
  ghost predicate Settled(s: State, l: nat, e: Id) {
    TraceLock.IsFinal(s.store, e) ==>
      && l < |s.delivery.place| && l < |s.delivery.first| && s.delivery.first[l].execution == e
      && (s.delivery.place[l].Finished?
          || (s.delivery.place[l].Held? && HoldersPastCommit(s, s.delivery.place[l].at)))
  }

  // ---------------------------------------------------------------- what is known of a held entry

  lemma HeldKnown(s: Delivery.State, w: nat, maxAttempts: int)
    requires Delivery.Inv(s, maxAttempts) && w < |s.hands| && s.hands[w].Holding?
    ensures var x := s.hands[w].entry;
      && x.lineage < |s.place| && x.lineage < |s.first| && s.place[x.lineage] == Delivery.Held(s.hands[w].at)
      && x.job.execution == s.first[x.lineage].execution
  {
    assert Delivery.EntryAt(s, Delivery.Held(s.hands[w].at)) == Some(s.hands[w].entry);
    Delivery.CopyKnown(s, Delivery.Held(s.hands[w].at), maxAttempts);
  }

  lemma HandingKnown(s: Delivery.State, w: nat, maxAttempts: int)
    requires Delivery.Inv(s, maxAttempts) && w < |s.hands| && s.hands[w].HandingOff?
    ensures var x := s.hands[w].entry; x.lineage < |s.place| && s.place[x.lineage] == Delivery.InHandOff(w)
  {
    assert Delivery.EntryAt(s, Delivery.InHandOff(w)) == Some(s.hands[w].entry);
    Delivery.CopyKnown(s, Delivery.InHandOff(w), maxAttempts);
  }

  lemma WaitingKnown(s: Delivery.State, maxAttempts: int)
    requires Delivery.Inv(s, maxAttempts) && s.queue.cursor < |s.queue.stream|
    ensures var x := s.queue.stream[s.queue.cursor];
      && x.lineage < |s.place| && s.place[x.lineage] == Delivery.Waiting(s.queue.cursor)
      && s.queue.cursor !in s.queue.pending
  {
    assert Delivery.EntryAt(s, Delivery.Waiting(s.queue.cursor)) == Some(s.queue.stream[s.queue.cursor]);
    Delivery.CopyKnown(s, Delivery.Waiting(s.queue.cursor), maxAttempts);
  }

  /** The worker whose attempt is at e holds the one job enqueued for e. */
  lemma AttemptsOnlyJob(s: State, w: nat, l: nat, e: Id, maxAttempts: int, registry: Registry)
    requires Delivery.Inv(s.delivery, maxAttempts) && Linked(s, registry) && OnlyJob(s.delivery.first, l, e)
    requires w < |s.delivery.hands| && TraceLock.Mine(s.store.phases[w]).Some?
    requires TraceLock.Mine(s.store.phases[w]).value < |s.store.attempts|
    requires s.store.attempts[TraceLock.Mine(s.store.phases[w]).value].execution == e
    ensures l < |s.delivery.place| && l < |s.delivery.first| && s.delivery.first[l].execution == e
    ensures s.delivery.hands[w].Holding?
         && s.delivery.place[l] == Delivery.Held(s.delivery.hands[w].at)
  {
    assert LinkedAt(s, w, registry);
    HeldKnown(s.delivery, w, maxAttempts);
    hide Delivery.Inv, OfWorker, IsDone;
  }

  lemma HeldApart(s: Delivery.State, v: nat, w: nat, maxAttempts: int)
    requires Delivery.Inv(s, maxAttempts) && v < |s.hands| && w < |s.hands| && v != w
    requires s.hands[v].Holding? && s.hands[w].Holding?
    ensures s.hands[v].at != s.hands[w].at
  {
  }

  // ---------------------------------------------------------------- each step keeps it settled

  lemma ClientKeeps(s: State, t: State, l: nat, e: Id, maxAttempts: int, registry: Registry)
    requires Inv(s, maxAttempts, registry) && Settled(s, l, e)
    requires (exists job :: Enqueues(s, t, job)) || (exists x :: Creates(s, t, x)) || Spawns(s, t)
    ensures Settled(t, l, e)
  {
    hide TraceLock.Inv, Delivery.Inv, LinkedAt, IsDone;
  }

  lemma QueueKeeps(s: State, t: State, w: nat, l: nat, e: Id, maxAttempts: int, registry: Registry)
    requires Inv(s, maxAttempts, registry) && Settled(s, l, e)
    requires Claims(s, t, w) || Acknowledges(s, t, w) || GivesUp(s, t, w) || HandsOff(s, t, w, maxAttempts)
          || Crashes(s, t, w)
    ensures Settled(t, l, e)
  {
    if s.delivery.hands[w].Holding? {
      HeldKnown(s.delivery, w, maxAttempts);
    } else if s.delivery.hands[w].HandingOff? {
      HandingKnown(s.delivery, w, maxAttempts);
    } else if Claims(s, t, w) {
      WaitingKnown(s.delivery, maxAttempts);
    }
    hide TraceLock.Inv, Delivery.Inv, LinkedAt, IsDone;
  }

  /** A worker that commits a result for e holds the one job enqueued for it. */
  lemma CommitSettles(t: State, w: nat, l: nat, e: Id, maxAttempts: int, registry: Registry)
    requires Inv(t, maxAttempts, registry) && OnlyJob(t.delivery.first, l, e)
    requires TraceLock.ConfirmsAt(t.store, w, e) && w < |t.delivery.hands|
    ensures Settled(t, l, e)
  {
    AttemptsOnlyJob(t, w, l, e, maxAttempts, registry);
    forall v | 0 <= v < |t.delivery.hands| && v != w && t.delivery.hands[v].Holding?
      ensures t.delivery.hands[v].at != t.delivery.hands[w].at
    {
      HeldApart(t.delivery, v, w, maxAttempts);
    }
    hide TraceLock.Inv, Delivery.Inv, LinkedAt, IsDone;
  }

  /** Where a worker past its commit can go. */
  lemma StaysPastCommit(s: State, t: State, w: nat, registry: Registry)
    requires Processes(s, t, w, registry) && w < |s.store.phases|
    requires PastCommit(s.store.phases[w])
    ensures w < |t.store.phases| && t.store.phases == s.store.phases[w := t.store.phases[w]]
    ensures PastCommit(t.store.phases[w]) || (!s.store.phases[w].Succeeded? && t.store.phases[w].Failing?)
  {
    hide TraceLock.Genuine, AttemptAt, RedactEvent;
  }

  lemma ProcessKeeps(s: State, t: State, w: nat, l: nat, e: Id, maxAttempts: int, registry: Registry)
    requires Inv(s, maxAttempts, registry) && Settled(s, l, e) && TraceLock.IsFinal(s.store, e)
    requires Processes(s, t, w, registry) && OnlyJob(s.delivery.first, l, e)
    requires !SomeAnswerLost(s, t, e) && !SomeJudgesFail(s, t, e)
    ensures Settled(t, l, e)
  {
    ProcessesMine(s, t, w, registry);
    assert !AnswerLost(s, t, w, e) && !JudgesFail(s, t, w, e);
    if s.delivery.place[l].Held? && s.delivery.hands[w].at == s.delivery.place[l].at {
      StaysPastCommit(s, t, w, registry);
      if !s.store.phases[w].Succeeded? {
        HolderIsAt(s, w, l, e, maxAttempts, registry);
      }
    }
    hide TraceLock.Inv, Delivery.Inv, Linked, TraceLock.IsFinal, Processes;
  }

  /** A worker past its commit that holds the one job enqueued for e is at e. */
  lemma HolderIsAt(s: State, w: nat, l: nat, e: Id, maxAttempts: int, registry: Registry)
    requires Inv(s, maxAttempts, registry) && w < |s.delivery.hands| && s.delivery.hands[w].Holding?
    requires l < |s.delivery.place| && s.delivery.place[l] == Delivery.Held(s.delivery.hands[w].at)
    requires OnlyJob(s.delivery.first, l, e) && l < |s.delivery.first| && s.delivery.first[l].execution == e
    requires s.store.phases[w].Confirming? || s.store.phases[w].Judging?
    ensures TraceLock.ConfirmsAt(s.store, w, e) || TraceLock.JudgesAt(s.store, w, e)
  {
    HeldKnown(s.delivery, w, maxAttempts);
    assert LinkedAt(s, w, registry);
  }

  lemma StepKeepsSettled(s: State, t: State, l: nat, e: Id, maxAttempts: int, registry: Registry)
    requires Inv(s, maxAttempts, registry) && Next(s, t, maxAttempts, registry) && Settled(s, l, e)
    requires OnlyJob(t.delivery.first, l, e)
    requires !SomeAnswerLost(s, t, e) && !SomeJudgesFail(s, t, e)
    ensures Settled(t, l, e)
  {
    hide Inv, Settled, SomeAnswerLost, SomeJudgesFail, Enqueues, Creates, Spawns, Claims, Acknowledges, GivesUp,
      HandsOff, Crashes, OnlyJob, Processes, TraceLock.IsFinal, TraceLock.JudgesAt;
    if w: nat :| WorkerStep(s, t, w, maxAttempts, registry) {
      if Processes(s, t, w, registry) {
        StepKeeps(s, t, maxAttempts, registry);
        ProcessingSettles(s, t, w, l, e, maxAttempts, registry);
      } else {
        QueueKeeps(s, t, w, l, e, maxAttempts, registry);
      }
    } else {
      ClientKeeps(s, t, l, e, maxAttempts, registry);
    }
  }

  lemma ProcessingSettles(s: State, t: State, w: nat, l: nat, e: Id, maxAttempts: int, registry: Registry)
    requires Inv(s, maxAttempts, registry) && Inv(t, maxAttempts, registry) && Settled(s, l, e)
    requires Processes(s, t, w, registry) && OnlyJob(t.delivery.first, l, e)
    requires !SomeAnswerLost(s, t, e) && !SomeJudgesFail(s, t, e)
    ensures Settled(t, l, e)
  {
    if TraceLock.IsFinal(s.store, e) {
      ProcessesKeepsQueue(s, t, w, registry);
      ProcessKeeps(s, t, w, l, e, maxAttempts, registry);
    } else if TraceLock.IsFinal(t.store, e) {
      ProcessesInStore(s, t, w, registry);
      TraceLock.BecomesFinal(s.store, t.store, e);
      hide TraceLock.Commits, TraceLock.Next, Settled, Processes, TraceLock.Inv, Delivery.Inv, SomeAnswerLost,
        SomeJudgesFail;
      var v: nat :| TraceLock.Commits(s.store, t.store, v) && TraceLock.ConfirmsAt(t.store, v, e);
      assert |t.delivery.hands| == |t.store.phases|;
      CommitSettles(t, v, l, e, maxAttempts, registry);
    }
  }

  lemma ProcessesKeepsQueue(s: State, t: State, w: nat, registry: Registry)
    requires Processes(s, t, w, registry)
    ensures t.delivery == s.delivery
  {
    hide TraceLock.Genuine, AttemptAt;
  }

  lemma ProcessesInStore(s: State, t: State, w: nat, registry: Registry)
    requires Processes(s, t, w, registry)
    ensures TraceLock.Next(s.store, t.store)
  {
    hide TraceLock.Starts, TraceLock.Checks, TraceLock.Inserts, TraceLock.Reads, TraceLock.Commits, TraceLock.Confirms,
      TraceLock.Judges, TraceLock.Fails, AttemptAt;
    assert TraceLock.JobStep(s.store, t.store, w);
  }

  // ---------------------------------------------------------------- whole runs

  lemma FirstGrows(s: State, t: State, maxAttempts: int, registry: Registry)
    requires Next(s, t, maxAttempts, registry)
    ensures s.delivery.first <= t.delivery.first
  {
    hide TraceLock.Genuine, AttemptAt, TraceLock.Starts, TraceLock.Checks, TraceLock.Inserts, TraceLock.Reads,
      TraceLock.Commits, TraceLock.Confirms, TraceLock.Judges, TraceLock.Fails, TraceLock.Leaves, TraceLock.Takes,
      TraceLock.Creates, TraceLock.Spawns;
  }

  lemma {:induction false} RunSettled(run: seq<State>, i: nat, l: nat, e: Id, maxAttempts: int, registry: Registry)
    requires IsRun(run, maxAttempts, registry) && i < |run|
    requires OnlyJob(run[i].delivery.first, l, e) && !FailedAfterWriting(run, i, e)
    ensures Settled(run[i], l, e)
  {
    hide Next, Inv, SomeAnswerLost, SomeJudgesFail;
    if i == 0 {
      assert !TraceLock.IsFinal(run[0].store, e);
    } else {
      FirstGrows(run[i - 1], run[i], maxAttempts, registry);
      var k := i - 1;
      assert !SomeAnswerLost(run[k], run[k + 1], e) && !SomeJudgesFail(run[k], run[k + 1], e);
      hide Settled;
      RunSettled(run, i - 1, l, e, maxAttempts, registry);
      RunKeeps(run, i - 1, maxAttempts, registry);
      StepKeepsSettled(run[i - 1], run[i], l, e, maxAttempts, registry);
    }
  }

  lemma WrittenBefore(s: State, t: State, e: Id)
    requires TraceLock.Inv(s.store) && (SomeAnswerLost(s, t, e) || SomeJudgesFail(s, t, e))
    ensures TraceLock.IsFinal(s.store, e)
  {
    hide TraceLock.Inv, TraceLock.IsFinal;
    if w: nat :| AnswerLost(s, t, w, e) {
      TraceLock.WrittenIsFinal(s.store, w, e);
    } else {
      var v: nat :| JudgesFail(s, t, v, e);
      TraceLock.WrittenIsFinal(s.store, v, e);
    }
  }

  /** An execution with a failure after its result was written is final. */
  lemma FailedAfterWritingIsFinal(run: seq<State>, i: nat, e: Id, maxAttempts: int, registry: Registry)
    requires IsRun(run, maxAttempts, registry) && i < |run| && FailedAfterWriting(run, i, e)
    ensures TraceLock.IsFinal(run[i].store, e)
  {
    hide Next, IsRun, TraceLock.IsRun, Delivery.IsRun, TraceLock.IsFinal, TraceLock.Inv, SomeAnswerLost, SomeJudgesFail;
    Halves(run, maxAttempts, registry);
    var j: nat :| j < i && (SomeAnswerLost(run[j], run[j + 1], e) || SomeJudgesFail(run[j], run[j + 1], e));
    assert Stores(run)[j] == run[j].store && Stores(run)[i] == run[i].store;
    TraceLock.RunKeeps(Stores(run), j);
    WrittenBefore(run[j], run[j + 1], e);
    TraceLock.FinalStays(Stores(run), j, i, e);
  }

  /** Main result: the exact condition. In every state of every run, the execution of a
      dead-lettered job that alone was enqueued for it is final exactly when some attempt at
      it has failed after its result was written: the answer to the write was lost, or the
      judges failed. */
  lemma DeadAndFinalIffFailedAfterWriting(run: seq<State>, i: nat, k: nat, maxAttempts: int, registry: Registry)
    requires IsRun(run, maxAttempts, registry) && i < |run| && k < |run[i].delivery.queue.dead|
    requires var x := run[i].delivery.queue.dead[k];
      OnlyJob(run[i].delivery.first, x.lineage, x.job.execution)
    ensures var e := run[i].delivery.queue.dead[k].job.execution;
      TraceLock.IsFinal(run[i].store, e) <==> FailedAfterWriting(run, i, e)
  {
    var x := run[i].delivery.queue.dead[k];
    RunKeeps(run, i, maxAttempts, registry);
    DeadIsBuried(run[i].delivery, k, maxAttempts);
    hide Next, Inv, IsRun, FailedAfterWriting, OnlyJob, HoldersPastCommit;
    if FailedAfterWriting(run, i, x.job.execution) {
      FailedAfterWritingIsFinal(run, i, x.job.execution, maxAttempts, registry);
    } else {
      RunSettled(run, i, x.lineage, x.job.execution, maxAttempts, registry);
    }
  }

  lemma DeadIsBuried(s: Delivery.State, k: nat, maxAttempts: int)
    requires Delivery.Inv(s, maxAttempts) && k < |s.queue.dead|
    ensures s.queue.dead[k].lineage < |s.place| && s.place[s.queue.dead[k].lineage] == Delivery.Buried(k)
  {
    assert Delivery.EntryAt(s, Delivery.Buried(k)) == Some(s.queue.dead[k]);
    Delivery.CopyKnown(s, Delivery.Buried(k), maxAttempts);
  }

  // ---------------------------------------------------------------- without judges

  /** No worker that started an attempt had judges configured. */
  ghost predicate Unjudged(s: State) {
    forall n | 0 <= n < |s.store.attempts| :: !s.store.attempts[n].judged
  }

  lemma AttemptsGrow(run: seq<State>, j: nat, i: nat, maxAttempts: int, registry: Registry)
    requires IsRun(run, maxAttempts, registry) && j <= i < |run|
    ensures run[j].store.attempts <= run[i].store.attempts
    decreases i - j
  {
    hide Next, TraceLock.Next;
    if j < i {
      AttemptsGrow(run, j, i - 1, maxAttempts, registry);
      StoreStep(run[i - 1], run[i], maxAttempts, registry);
      AttemptsStay(run[i - 1].store, run[i].store);
    }
  }

  lemma AttemptsStay(s: TraceLock.State, t: TraceLock.State)
    requires TraceLock.Next(s, t)
    ensures s.attempts <= t.attempts
  {
    hide TraceLock.Genuine;
    forall n | 0 <= n < |s.attempts| ensures n < |t.attempts| && t.attempts[n] == s.attempts[n] {
      if n < |t.attempts| {
        TraceLock.StepGenuine(s, t, n);
      }
    }
  }

  /** Judges fail only where judges are configured. */
  lemma UnjudgedNeverFail(run: seq<State>, j: nat, i: nat, e: Id, maxAttempts: int, registry: Registry)
    requires IsRun(run, maxAttempts, registry) && j < i < |run| && Unjudged(run[i])
    ensures !SomeJudgesFail(run[j], run[j + 1], e)
  {
    AttemptsGrow(run, j, i, maxAttempts, registry);
    RunKeeps(run, j, maxAttempts, registry);
    hide Next, IsRun, Delivery.Inv, TraceLock.Inv, Linked;
    var s, t := run[j], run[j + 1];
    if w: nat :| JudgesFail(s, t, w, e) {
      TraceLock.WrittenIsFinal(run[j].store, w, e);
    }
  }

  /** For workers without judges, the condition is the lost answer alone. */
  lemma UnjudgedDeadAndFinalIffAnswerLost(run: seq<State>, i: nat, k: nat, maxAttempts: int, registry: Registry)
    requires IsRun(run, maxAttempts, registry) && i < |run| && k < |run[i].delivery.queue.dead| && Unjudged(run[i])
    requires var x := run[i].delivery.queue.dead[k];
      OnlyJob(run[i].delivery.first, x.lineage, x.job.execution)
    ensures var e := run[i].delivery.queue.dead[k].job.execution;
      TraceLock.IsFinal(run[i].store, e) <==> AnswerWasLost(run, i, e)
  {
    hide Next, IsRun, Unjudged, TraceLock.IsFinal, OnlyJob, SomeAnswerLost, SomeJudgesFail;
    var e := run[i].delivery.queue.dead[k].job.execution;
    DeadAndFinalIffFailedAfterWriting(run, i, k, maxAttempts, registry);
    forall j | 0 <= j < i ensures !SomeJudgesFail(run[j], run[j + 1], e) {
      UnjudgedNeverFail(run, j, i, e, maxAttempts, registry);
    }
  }

  /** For all runs: when the dead-letter stream lists a job whose execution has a result, an
      attempt failed after writing a result, or a second job names the execution. */
  lemma DeadAndFinalNeeds(run: seq<State>, i: nat, k: nat, maxAttempts: int, registry: Registry)
    requires IsRun(run, maxAttempts, registry) && i < |run| && k < |run[i].delivery.queue.dead|
    requires TraceLock.IsFinal(run[i].store, run[i].delivery.queue.dead[k].job.execution)
    ensures var x := run[i].delivery.queue.dead[k];
      || FailedAfterWriting(run, i, x.job.execution)
      || exists m | 0 <= m < |run[i].delivery.first| ::
           run[i].delivery.first[m].execution == x.job.execution && m != x.lineage
  {
    hide Next, IsRun, FailedAfterWriting, TraceLock.IsFinal;
    var x := run[i].delivery.queue.dead[k];
    if OnlyJob(run[i].delivery.first, x.lineage, x.job.execution) {
      DeadAndFinalIffFailedAfterWriting(run, i, k, maxAttempts, registry);
    }
  }
}
