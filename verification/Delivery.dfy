/** Job delivery as a transition system: any number of clients and workers on one queue
    (backend/app/queue.py, runner/worker.py). Every await on Redis is one step, and a worker
    can crash between any two. */
module Delivery {
  import opened Json
  import opened JobQueue

  /** What a worker has in hand: nothing, an entry it claimed, or, after acknowledging a
      failed one, the job it is still to add again or dead-letter. */
  datatype Hand = Free | Holding(at: nat, entry: Entry) | HandingOff(entry: Entry) | Gone

  /** Where the one copy of a job can be. */
  datatype Place =
    | Waiting(at: nat) | Held(at: nat) | InHandOff(worker: nat) | Buried(k: nat) | Finished(k: nat) | Nowhere

  /** The queue and the workers, with the history a client would keep: for each lineage the
      job as first enqueued, how often it was claimed and where it is; the entries
      acknowledged as done; and the lineages lost. */
  datatype State = State(
    queue: Group, hands: seq<Hand>, first: seq<Job>, claims: seq<nat>, place: seq<Place>,
    done: seq<Entry>, lost: set<nat>)

  ghost predicate Init(s: State) {
    s == State(Group([], 0, {}, []), [], [], [], [], [], {})
  }

  // ---------------------------------------------------------------- steps

  /** A client enqueues a job. */
  ghost predicate Enqueues(s: State, t: State, job: Job) {
    t == s.(queue := Add(s.queue, Entry(|s.first|, job)), first := s.first + [job], claims := s.claims + [0],
            place := s.place + [Waiting(|s.queue.stream|)])
  }

  ghost predicate Spawns(s: State, t: State) {
    t == s.(hands := s.hands + [Free])
  }

  ghost predicate Claims(s: State, t: State, w: nat) {
    && w < |s.hands| && s.hands[w].Free? && s.queue.cursor < |s.queue.stream|
    && var e := s.queue.stream[s.queue.cursor];
       && e.lineage < |s.claims| && e.lineage < |s.place|
       && t == s.(queue := Deliver(s.queue), hands := s.hands[w := Holding(s.queue.cursor, e)],
                  claims := s.claims[e.lineage := s.claims[e.lineage] + 1],
                  place := s.place[e.lineage := Held(s.queue.cursor)])
  }

  /** The job succeeded and its entry is acknowledged. */
  ghost predicate Acknowledges(s: State, t: State, w: nat) {
    && w < |s.hands| && s.hands[w].Holding? && s.hands[w].entry.lineage < |s.place|
    && var e := s.hands[w].entry;
       t == s.(queue := Acked(s.queue, s.hands[w].at), hands := s.hands[w := Free], done := s.done + [e],
               place := s.place[e.lineage := Finished(|s.done|)])
  }

  /** The job failed: `retry_or_deadletter` acknowledges the entry first ... */
  ghost predicate GivesUp(s: State, t: State, w: nat) {
    && w < |s.hands| && s.hands[w].Holding? && s.hands[w].entry.lineage < |s.place|
    && var e := s.hands[w].entry;
       t == s.(queue := Acked(s.queue, s.hands[w].at), hands := s.hands[w := HandingOff(e)],
               place := s.place[e.lineage := InHandOff(w)])
  }

  /** ... and then adds the job again ... */
  ghost predicate Retries(s: State, t: State, w: nat, maxAttempts: int) {
    && w < |s.hands| && s.hands[w].HandingOff? && s.hands[w].entry.lineage < |s.place|
    && var e := s.hands[w].entry;
       && e.job.attempt < maxAttempts
       && t == s.(queue := Add(s.queue, Retried(e)), hands := s.hands[w := Free],
                  place := s.place[e.lineage := Waiting(|s.queue.stream|)])
  }

  /** ... or dead-letters it. */
  ghost predicate Buries(s: State, t: State, w: nat, maxAttempts: int) {
    && w < |s.hands| && s.hands[w].HandingOff? && s.hands[w].entry.lineage < |s.place|
    && var e := s.hands[w].entry;
       && e.job.attempt >= maxAttempts
       && t == s.(queue := Bury(s.queue, e), hands := s.hands[w := Free],
                  place := s.place[e.lineage := Buried(|s.queue.dead|)])
  }

  ghost predicate Crashes(s: State, t: State, w: nat) {
    && w < |s.hands|
    && if s.hands[w].HandingOff? && s.hands[w].entry.lineage < |s.place|
       then var l := s.hands[w].entry.lineage;
            t == s.(hands := s.hands[w := Gone], lost := s.lost + {l}, place := s.place[l := Nowhere])
       else t == s.(hands := s.hands[w := Gone])
  }

  ghost predicate WorkerStep(s: State, t: State, w: nat, maxAttempts: int) {
    || Claims(s, t, w) || Acknowledges(s, t, w) || GivesUp(s, t, w)
    || Retries(s, t, w, maxAttempts) || Buries(s, t, w, maxAttempts) || Crashes(s, t, w)
  }

  ghost predicate Next(s: State, t: State, maxAttempts: int) {
    || (exists job :: Enqueues(s, t, job))
    || Spawns(s, t)
    || (exists w :: WorkerStep(s, t, w, maxAttempts))
    || t == s
  }

  // ---------------------------------------------------------------- the copies of a job

  /** The entry at a place, if the place holds one. */
  function EntryAt(s: State, p: Place): Option<Entry> {
    match p
    case Waiting(i) => if s.queue.cursor <= i < |s.queue.stream| then Some(s.queue.stream[i]) else None
    case Held(i) => if i in s.queue.pending && i < |s.queue.stream| then Some(s.queue.stream[i]) else None
    case InHandOff(w) => if w < |s.hands| && s.hands[w].HandingOff? then Some(s.hands[w].entry) else None
    case Buried(k) => if k < |s.queue.dead| then Some(s.queue.dead[k]) else None
    case Finished(k) => if k < |s.done| then Some(s.done[k]) else None
    case Nowhere => None
  }

  ghost predicate IsCopy(s: State, p: Place, lineage: nat) {
    EntryAt(s, p).Some? && EntryAt(s, p).value.lineage == lineage
  }

  function Max(a: int, b: int): int {
    if a >= b then a else b
  }

  /** The copy of a job at a place differs from the job as enqueued in its attempt number
      only, and that number counts the claims. */
  ghost predicate RightCopy(e: Entry, p: Place, first: Job, claims: nat, maxAttempts: int) {
    && e.job == first.(attempt := e.job.attempt)
    && first.attempt <= e.job.attempt <= Max(first.attempt, maxAttempts)
    && claims == e.job.attempt - first.attempt + (if p.Waiting? then 0 else 1)
    && (p.Buried? ==> e.job.attempt >= maxAttempts)
  }

  // ---------------------------------------------------------------- the invariant

  /** `place` is a bijection between the lineages not lost and the copies there are. */
  ghost predicate Placed(s: State) {
    && (forall p | EntryAt(s, p).Some? ::
          var l := EntryAt(s, p).value.lineage; l < |s.place| && s.place[l] == p)
    && (forall l | 0 <= l < |s.place| :: if l in s.lost then s.place[l] == Nowhere else IsCopy(s, s.place[l], l))
    && (forall l | l in s.lost :: l < |s.place|)
  }

  ghost predicate Counted(s: State, maxAttempts: int) {
    && |s.first| == |s.claims| == |s.place|
    && forall l | 0 <= l < |s.first| :: CountedAt(s, l, maxAttempts)
  }

  ghost predicate CountedAt(s: State, l: nat, maxAttempts: int)
    requires l < |s.first| && l < |s.claims| && l < |s.place|
  {
    && s.claims[l] <= Budget(s.first[l].attempt, maxAttempts)
    && (IsCopy(s, s.place[l], l) ==>
          RightCopy(EntryAt(s, s.place[l]).value, s.place[l], s.first[l], s.claims[l], maxAttempts))
  }

  /** A held entry is pending, and held by one worker only. */
  ghost predicate Held1(s: State) {
    && WellFormed(s.queue)
    && (forall w | 0 <= w < |s.hands| && s.hands[w].Holding? ::
          s.hands[w].at in s.queue.pending && s.hands[w].at < |s.queue.stream|
          && s.queue.stream[s.hands[w].at] == s.hands[w].entry)
    && (forall v, w | 0 <= v < w < |s.hands| && s.hands[v].Holding? && s.hands[w].Holding? ::
          s.hands[v].at != s.hands[w].at)
  }

  ghost predicate Inv(s: State, maxAttempts: int) {
    Placed(s) && Counted(s, maxAttempts) && Held1(s)
  }

  // ---------------------------------------------------------------- moving one copy

  /** From s to t the copy of one job moves from place p to place q, where it becomes e. */
  ghost predicate Moves(s: State, t: State, p: Place, q: Place, e: Entry) {
    && p != q && e.lineage < |s.place| && t.place == s.place[e.lineage := q] && t.lost == s.lost
    && IsCopy(s, p, e.lineage) && EntryAt(s, q).None?
    && EntryAt(t, p).None? && EntryAt(t, q) == Some(e)
    && forall r | r != p && r != q :: EntryAt(t, r) == EntryAt(s, r)
  }

  lemma MovePlaced(s: State, t: State, p: Place, q: Place, e: Entry)
    requires Placed(s) && Moves(s, t, p, q, e)
    ensures Placed(t)
  {
    NothingNowhere(s);
    hide EntryAt;
    forall r | EntryAt(t, r).Some?
      ensures var l := EntryAt(t, r).value.lineage; l < |t.place| && t.place[l] == r
    {
      if r != q {
        assert EntryAt(s, r) == EntryAt(t, r);
        assert s.place[e.lineage] == p;
      }
    }
    forall l | 0 <= l < |t.place|
      ensures if l in t.lost then t.place[l] == Nowhere else IsCopy(t, t.place[l], l)
    {
      assert s.place[e.lineage] == p;
      if l != e.lineage && l !in s.lost {
        assert IsCopy(s, s.place[l], l);
      }
    }
  }

  lemma MoveCounted(s: State, t: State, p: Place, q: Place, e: Entry, maxAttempts: int)
    requires Placed(s) && Counted(s, maxAttempts) && Moves(s, t, p, q, e)
    requires t.first == s.first && |t.claims| == |s.claims|
    requires forall l | 0 <= l < |s.claims| && l != e.lineage :: t.claims[l] == s.claims[l]
    requires t.claims[e.lineage] <= Budget(s.first[e.lineage].attempt, maxAttempts)
    requires RightCopy(e, q, s.first[e.lineage], t.claims[e.lineage], maxAttempts)
    ensures Counted(t, maxAttempts)
  {
    hide EntryAt, RightCopy, Budget;
    forall l | 0 <= l < |t.first| ensures CountedAt(t, l, maxAttempts) {
      assert CountedAt(s, l, maxAttempts);
      if l != e.lineage && l !in s.lost {
        assert IsCopy(s, s.place[l], l);
        assert s.place[l] != p && s.place[l] != q;
      }
    }
  }

  /** What is known of an entry at a place. */
  lemma CopyKnown(s: State, p: Place, maxAttempts: int)
    requires Placed(s) && Counted(s, maxAttempts) && EntryAt(s, p).Some?
    ensures var e := EntryAt(s, p).value;
      && e.lineage < |s.place| && s.place[e.lineage] == p
      && s.claims[e.lineage] <= Budget(s.first[e.lineage].attempt, maxAttempts)
      && RightCopy(e, p, s.first[e.lineage], s.claims[e.lineage], maxAttempts)
  {
    assert IsCopy(s, p, EntryAt(s, p).value.lineage);
    assert CountedAt(s, EntryAt(s, p).value.lineage, maxAttempts);
  }

  // ---------------------------------------------------------------- each step keeps the invariant

  lemma EnqueuesKeeps(s: State, t: State, job: Job, maxAttempts: int)
    requires Inv(s, maxAttempts) && Enqueues(s, t, job)
    ensures Inv(t, maxAttempts)
  {
    var n, q := |s.first|, Waiting(|s.queue.stream|);
    forall p ensures EntryAt(t, p) == if p == q then Some(Entry(n, job)) else EntryAt(s, p) {}
    assert Placed(t) by {
      hide EntryAt;
      forall p | EntryAt(t, p).Some? ensures var l := EntryAt(t, p).value.lineage; l < |t.place| && t.place[l] == p {
        if p != q {
          assert EntryAt(s, p).Some?;
        }
      }
      forall l | 0 <= l < |t.place|
        ensures if l in t.lost then t.place[l] == Nowhere else IsCopy(t, t.place[l], l)
      {
        if l < n && l !in s.lost {
          assert IsCopy(s, s.place[l], l);
        }
      }
    }
    forall l | 0 <= l < |t.first| ensures CountedAt(t, l, maxAttempts) {
      if l < n {
        assert CountedAt(s, l, maxAttempts);
      }
    }
  }

  lemma ClaimsKeeps(s: State, t: State, w: nat, maxAttempts: int)
    requires Inv(s, maxAttempts) && Claims(s, t, w)
    ensures Inv(t, maxAttempts)
  {
    var i := s.queue.cursor;
    var e := s.queue.stream[i];
    assert EntryAt(s, Waiting(i)) == Some(e);
    CopyKnown(s, Waiting(i), maxAttempts);
    assert Moves(s, t, Waiting(i), Held(i), e);
    MovePlaced(s, t, Waiting(i), Held(i), e);
    MoveCounted(s, t, Waiting(i), Held(i), e, maxAttempts);
  }

  lemma AcknowledgesKeeps(s: State, t: State, w: nat, maxAttempts: int)
    requires Inv(s, maxAttempts) && Acknowledges(s, t, w)
    ensures Inv(t, maxAttempts)
  {
    var i, e, q := s.hands[w].at, s.hands[w].entry, Finished(|s.done|);
    assert EntryAt(s, Held(i)) == Some(e);
    CopyKnown(s, Held(i), maxAttempts);
    assert Moves(s, t, Held(i), q, e);
    MovePlaced(s, t, Held(i), q, e);
    MoveCounted(s, t, Held(i), q, e, maxAttempts);
  }

  lemma GivesUpKeeps(s: State, t: State, w: nat, maxAttempts: int)
    requires Inv(s, maxAttempts) && GivesUp(s, t, w)
    ensures Inv(t, maxAttempts)
  {
    var i, e := s.hands[w].at, s.hands[w].entry;
    assert EntryAt(s, Held(i)) == Some(e);
    CopyKnown(s, Held(i), maxAttempts);
    assert Moves(s, t, Held(i), InHandOff(w), e);
    MovePlaced(s, t, Held(i), InHandOff(w), e);
    MoveCounted(s, t, Held(i), InHandOff(w), e, maxAttempts);
  }

  lemma RetriesKeeps(s: State, t: State, w: nat, maxAttempts: int)
    requires Inv(s, maxAttempts) && Retries(s, t, w, maxAttempts)
    ensures Inv(t, maxAttempts)
  {
    var e, q := s.hands[w].entry, Waiting(|s.queue.stream|);
    assert EntryAt(s, InHandOff(w)) == Some(e);
    CopyKnown(s, InHandOff(w), maxAttempts);
    assert Moves(s, t, InHandOff(w), q, Retried(e));
    MovePlaced(s, t, InHandOff(w), q, Retried(e));
    MoveCounted(s, t, InHandOff(w), q, Retried(e), maxAttempts);
  }

  lemma BuriesKeeps(s: State, t: State, w: nat, maxAttempts: int)
    requires Inv(s, maxAttempts) && Buries(s, t, w, maxAttempts)
    ensures Inv(t, maxAttempts)
  {
    var e, q := s.hands[w].entry, Buried(|s.queue.dead|);
    assert EntryAt(s, InHandOff(w)) == Some(e);
    CopyKnown(s, InHandOff(w), maxAttempts);
    assert Moves(s, t, InHandOff(w), q, e);
    MovePlaced(s, t, InHandOff(w), q, e);
    MoveCounted(s, t, InHandOff(w), q, e, maxAttempts);
  }

  lemma CrashesKeeps(s: State, t: State, w: nat, maxAttempts: int)
    requires Inv(s, maxAttempts) && Crashes(s, t, w)
    ensures Inv(t, maxAttempts)
  {
    if s.hands[w].HandingOff? {
      var p, l := InHandOff(w), s.hands[w].entry.lineage;
      assert EntryAt(s, p) == Some(s.hands[w].entry);
      CopyKnown(s, p, maxAttempts);
      forall r ensures EntryAt(t, r) == if r == p then None else EntryAt(s, r) {}
      assert Placed(t) by {
        hide EntryAt;
        forall r | EntryAt(t, r).Some? ensures var k := EntryAt(t, r).value.lineage; k < |t.place| && t.place[k] == r {
          assert EntryAt(s, r).Some?;
        }
        forall k | 0 <= k < |t.place|
          ensures if k in t.lost then t.place[k] == Nowhere else IsCopy(t, t.place[k], k)
        {
          if k !in t.lost {
            assert IsCopy(s, s.place[k], k);
          }
        }
      }
      forall k | 0 <= k < |t.first| ensures CountedAt(t, k, maxAttempts) {
        assert CountedAt(s, k, maxAttempts);
      }
    } else {
      forall r ensures EntryAt(t, r) == EntryAt(s, r) {}
      SameEntries(s, t, maxAttempts);
    }
  }

  lemma SameEntries(s: State, t: State, maxAttempts: int)
    requires Placed(s) && Counted(s, maxAttempts)
    requires t.place == s.place && t.lost == s.lost && t.first == s.first && t.claims == s.claims
    requires forall r :: EntryAt(t, r) == EntryAt(s, r)
    ensures Placed(t) && Counted(t, maxAttempts)
  {
    hide EntryAt;
    forall k | 0 <= k < |t.place|
      ensures if k in t.lost then t.place[k] == Nowhere else IsCopy(t, t.place[k], k)
    {
      if k !in t.lost {
        assert IsCopy(s, s.place[k], k);
      }
    }
    forall k | 0 <= k < |t.first| ensures CountedAt(t, k, maxAttempts) {
      assert CountedAt(s, k, maxAttempts);
    }
  }

  lemma SpawnsKeeps(s: State, t: State, maxAttempts: int)
    requires Inv(s, maxAttempts) && Spawns(s, t)
    ensures Inv(t, maxAttempts)
  {
    forall r ensures EntryAt(t, r) == EntryAt(s, r) {}
    SameEntries(s, t, maxAttempts);
  }

  lemma StepKeeps(s: State, t: State, maxAttempts: int)
    requires Inv(s, maxAttempts) && Next(s, t, maxAttempts)
    ensures Inv(t, maxAttempts)
  {
    hide Inv, Claims, Acknowledges, GivesUp, Retries, Buries, Crashes, Enqueues, Spawns;
    if job :| Enqueues(s, t, job) {
      EnqueuesKeeps(s, t, job, maxAttempts);
    } else if Spawns(s, t) {
      SpawnsKeeps(s, t, maxAttempts);
    } else if w :| WorkerStep(s, t, w, maxAttempts) {
      if Claims(s, t, w) {
        ClaimsKeeps(s, t, w, maxAttempts);
      } else if Acknowledges(s, t, w) {
        AcknowledgesKeeps(s, t, w, maxAttempts);
      } else if GivesUp(s, t, w) {
        GivesUpKeeps(s, t, w, maxAttempts);
      } else if Retries(s, t, w, maxAttempts) {
        RetriesKeeps(s, t, w, maxAttempts);
      } else if Buries(s, t, w, maxAttempts) {
        BuriesKeeps(s, t, w, maxAttempts);
      } else {
        CrashesKeeps(s, t, w, maxAttempts);
      }
    }
  }

  // ---------------------------------------------------------------- whole runs

  ghost predicate IsRun(run: seq<State>, maxAttempts: int) {
    |run| > 0 && Init(run[0]) && forall i | 0 < i < |run| :: Next(run[i - 1], run[i], maxAttempts)
  }

  lemma {:induction false} RunKeeps(run: seq<State>, i: nat, maxAttempts: int)
    requires IsRun(run, maxAttempts) && i < |run|
    ensures Inv(run[i], maxAttempts)
  {
    if i > 0 {
      RunKeeps(run, i - 1, maxAttempts);
      StepKeeps(run[i - 1], run[i], maxAttempts);
    }
  }

  /** Main result: job conservation. In every state of every run each job ever enqueued has
      exactly one copy, waiting in the stream, pending with whoever claimed it, in a
      hand-off, done or dead-lettered, unless it is lost, and then it has none. */
  lemma JobsConserved(run: seq<State>, i: nat, lineage: nat, maxAttempts: int)
    requires IsRun(run, maxAttempts) && i < |run| && lineage < |run[i].first|
    ensures if lineage in run[i].lost then forall p :: !IsCopy(run[i], p, lineage)
            else exists p :: IsCopy(run[i], p, lineage) && forall q | IsCopy(run[i], q, lineage) :: q == p
  {
    RunKeeps(run, i, maxAttempts);
    var s := run[i];
    hide EntryAt, Counted, Held1;
    assert |s.first| == |s.place| by { CountedSizes(s, maxAttempts); }
    if lineage in s.lost {
      forall p ensures !IsCopy(s, p, lineage) {
        assert IsCopy(s, p, lineage) ==> s.place[lineage] == p == Nowhere;
        NothingNowhere(s);
      }
    } else {
      assert IsCopy(s, s.place[lineage], lineage);
    }
  }

  lemma NothingNowhere(s: State)
    ensures EntryAt(s, Nowhere).None?
  {
  }

  lemma CountedSizes(s: State, maxAttempts: int)
    requires Counted(s, maxAttempts)
    ensures |s.first| == |s.place|
  {
  }

  ghost predicate HasCopy(s: State, lineage: nat) {
    exists p :: IsCopy(s, p, lineage)
  }

  /** Worker w crashes with this job in a hand-off. */
  ghost predicate CrashesHandingOff(s: State, t: State, w: nat, lineage: nat) {
    w < |s.hands| && s.hands[w].HandingOff? && s.hands[w].entry.lineage == lineage && Crashes(s, t, w)
  }

  /** A job has no copy exactly when it is among the lost. */
  lemma LostIffNoCopy(s: State, lineage: nat, maxAttempts: int)
    requires Inv(s, maxAttempts) && lineage < |s.first|
    ensures HasCopy(s, lineage) <==> lineage !in s.lost
  {
    NothingNowhere(s);
    hide EntryAt, Held1, CountedAt;
    if lineage !in s.lost {
      assert IsCopy(s, s.place[lineage], lineage);
    }
  }

  lemma LostAfter(s: State, t: State, lineage: nat, maxAttempts: int)
    requires Inv(s, maxAttempts) && Next(s, t, maxAttempts) && lineage < |s.first|
    ensures lineage < |t.first| && t.first[lineage] == s.first[lineage]
    ensures lineage in t.lost
        <==> lineage in s.lost || exists w: nat :: CrashesHandingOff(s, t, w, lineage)
  {
    hide EntryAt, CountedAt;
    if w: nat :| WorkerStep(s, t, w, maxAttempts) {
      if Crashes(s, t, w) && s.hands[w].HandingOff? {
        InHandKnown(s, w, maxAttempts);
        assert lineage == s.hands[w].entry.lineage ==> CrashesHandingOff(s, t, w, lineage);
      }
    }
    if v: nat :| CrashesHandingOff(s, t, v, lineage) {
      InHandKnown(s, v, maxAttempts);
    }
  }

  lemma InHandKnown(s: State, w: nat, maxAttempts: int)
    requires Inv(s, maxAttempts) && w < |s.hands| && s.hands[w].HandingOff?
    ensures s.hands[w].entry.lineage < |s.place|
  {
    assert EntryAt(s, InHandOff(w)) == Some(s.hands[w].entry);
  }

  /** Main result: a step takes the last copy of a job away exactly when it is the crash of
      a worker that has acknowledged the job's entry and not yet added it again. */
  lemma OnlyHandOffLoses(s: State, t: State, lineage: nat, maxAttempts: int)
    requires Inv(s, maxAttempts) && Next(s, t, maxAttempts) && lineage < |s.first| && HasCopy(s, lineage)
    ensures !HasCopy(t, lineage) <==> exists w: nat :: CrashesHandingOff(s, t, w, lineage)
  {
    hide Inv, Next, HasCopy, CrashesHandingOff;
    StepKeeps(s, t, maxAttempts);
    LostAfter(s, t, lineage, maxAttempts);
    LostIffNoCopy(s, lineage, maxAttempts);
    LostIffNoCopy(t, lineage, maxAttempts);
  }

  /** Main result: a job without a copy never has one again. */
  lemma {:induction false} LostForever(run: seq<State>, i: nat, j: nat, lineage: nat, maxAttempts: int)
    requires IsRun(run, maxAttempts) && i <= j < |run| && lineage < |run[i].first| && !HasCopy(run[i], lineage)
    ensures lineage < |run[j].first| && !HasCopy(run[j], lineage)
    decreases j - i
  {
    hide Inv, Next, HasCopy, CrashesHandingOff, Init;
    if i < j {
      LostForever(run, i, j - 1, lineage, maxAttempts);
      var s, t := run[j - 1], run[j];
      RunKeeps(run, j - 1, maxAttempts);
      RunKeeps(run, j, maxAttempts);
      assert Next(s, t, maxAttempts);
      LostAfter(s, t, lineage, maxAttempts);
      LostIffNoCopy(s, lineage, maxAttempts);
      LostIffNoCopy(t, lineage, maxAttempts);
    }
  }

  /** Main result: bounded retry. In every state of every run a job has been claimed at most
      max(1, maxAttempts - a + 1) times, where a is the attempt number it was enqueued with;
      and a dead-lettered job has used them all, its attempt number being the larger of a
      and maxAttempts. */
  lemma RetriesBounded(run: seq<State>, i: nat, lineage: nat, maxAttempts: int)
    requires IsRun(run, maxAttempts) && i < |run| && lineage < |run[i].first|
    ensures |run[i].claims| == |run[i].first|
    ensures var s, a := run[i], run[i].first[lineage].attempt;
      && s.claims[lineage] <= Max(1, maxAttempts - a + 1)
      && forall k | 0 <= k < |s.queue.dead| && s.queue.dead[k].lineage == lineage ::
           && s.claims[lineage] == Max(1, maxAttempts - a + 1)
           && s.queue.dead[k].job == s.first[lineage].(attempt := Max(a, maxAttempts))
  {
    RunKeeps(run, i, maxAttempts);
    var s := run[i];
    assert CountedAt(s, lineage, maxAttempts);
    forall k | 0 <= k < |s.queue.dead| && s.queue.dead[k].lineage == lineage
      ensures s.claims[lineage] == Max(1, maxAttempts - s.first[lineage].attempt + 1)
      ensures s.queue.dead[k].job == s.first[lineage].(attempt := Max(s.first[lineage].attempt, maxAttempts))
    {
      assert EntryAt(s, Buried(k)) == Some(s.queue.dead[k]);
      CopyKnown(s, Buried(k), maxAttempts);
    }
  }

  /** No two workers ever hold the same entry, and no job is ever in two hands. */
  lemma HeldByOne(run: seq<State>, i: nat, v: nat, w: nat, maxAttempts: int)
    requires IsRun(run, maxAttempts) && i < |run| && v < w < |run[i].hands|
    requires run[i].hands[v].Holding? && run[i].hands[w].Holding?
    ensures run[i].hands[v].entry.lineage != run[i].hands[w].entry.lineage
  {
    RunKeeps(run, i, maxAttempts);
    var s := run[i];
    var a, b := s.hands[v], s.hands[w];
    assert EntryAt(s, Held(a.at)) == Some(a.entry) && EntryAt(s, Held(b.at)) == Some(b.entry);
  }

  // ---------------------------------------------------------------- draining

  function Sum(ns: seq<nat>): nat {
    if ns == [] then 0 else ns[0] + Sum(ns[1..])
  }

  lemma {:induction false} SumUpdate(ns: seq<nat>, i: nat, n: nat)
    requires i < |ns|
    ensures Sum(ns[i := n]) == Sum(ns) - ns[i] + n
  {
    if i == 0 {
      assert ns[0 := n][1..] == ns[1..];
    } else {
      SumUpdate(ns[1..], i - 1, n);
      assert ns[i := n][1..] == ns[1..][i - 1 := n];
    }
  }

  /** The steps still ahead of a job: three for every claim left to it. */
  function Ahead(s: State, l: nat, maxAttempts: int): nat
    requires l < |s.place|
  {
    var p := s.place[l];
    if EntryAt(s, p).None? then 0
    else
      var claims := Budget(EntryAt(s, p).value.job.attempt, maxAttempts);
      match p
      case Waiting(_) => 3 * claims
      case Held(_) => 3 * claims - 1
      case InHandOff(_) => 3 * claims - 2
      case _ => 0
  }

  function AheadOf(s: State, maxAttempts: int): seq<nat> {
    seq(|s.place|, l requires 0 <= l < |s.place| => Ahead(s, l, maxAttempts))
  }

  function Alive(hands: seq<Hand>): seq<nat> {
    seq(|hands|, w requires 0 <= w < |hands| => if hands[w].Gone? then 0 else 1)
  }

  /** A bound on the steps on the queue that all workers together can still take. */
  function Potential(s: State, maxAttempts: int): nat {
    Sum(AheadOf(s, maxAttempts)) + Sum(Alive(s.hands))
  }

  /** A worker that is not gone takes a step on the queue. */
  ghost predicate Works(s: State, t: State, w: nat, maxAttempts: int) {
    WorkerStep(s, t, w, maxAttempts) && w < |s.hands| && !s.hands[w].Gone?
  }

  lemma MoveProgresses(s: State, t: State, p: Place, q: Place, e: Entry, w: nat, hand: Hand, maxAttempts: int)
    requires Placed(s) && Moves(s, t, p, q, e)
    requires w < |s.hands| && t.hands == s.hands[w := hand] && !s.hands[w].Gone? && !hand.Gone?
    requires Ahead(t, e.lineage, maxAttempts) < Ahead(s, e.lineage, maxAttempts)
    ensures Potential(t, maxAttempts) < Potential(s, maxAttempts)
  {
    var l := e.lineage;
    var a, b := AheadOf(s, maxAttempts), AheadOf(t, maxAttempts);
    forall k | 0 <= k < |s.place| ensures b[k] == a[l := b[l]][k] {
      if k != l {
        assert s.place[k] != p by {
          assert s.place[l] == p && EntryAt(s, p).Some?;
        }
        assert t.place[k] == s.place[k];
      }
    }
    assert b == a[l := b[l]];
    SumUpdate(a, l, b[l]);
    assert Alive(t.hands) == Alive(s.hands);
  }

  /** Every step of a living worker on the queue, crashes included, uses up some of what is
      ahead. */
  lemma StepProgresses(s: State, t: State, w: nat, maxAttempts: int)
    requires Inv(s, maxAttempts) && Works(s, t, w, maxAttempts)
    ensures Potential(t, maxAttempts) < Potential(s, maxAttempts)
  {
    hide Potential, Sum, Placed, Counted;
    if Claims(s, t, w) {
      var i := s.queue.cursor;
      var e := s.queue.stream[i];
      assert EntryAt(s, Waiting(i)) == Some(e);
      CopyKnown(s, Waiting(i), maxAttempts);
      MoveProgresses(s, t, Waiting(i), Held(i), e, w, t.hands[w], maxAttempts);
    } else if Acknowledges(s, t, w) {
      var i, e := s.hands[w].at, s.hands[w].entry;
      assert EntryAt(s, Held(i)) == Some(e);
      CopyKnown(s, Held(i), maxAttempts);
      MoveProgresses(s, t, Held(i), Finished(|s.done|), e, w, Free, maxAttempts);
    } else if GivesUp(s, t, w) {
      var i, e := s.hands[w].at, s.hands[w].entry;
      assert EntryAt(s, Held(i)) == Some(e);
      CopyKnown(s, Held(i), maxAttempts);
      MoveProgresses(s, t, Held(i), InHandOff(w), e, w, t.hands[w], maxAttempts);
    } else {
      LaterStepProgresses(s, t, w, maxAttempts);
    }
  }

  lemma LaterStepProgresses(s: State, t: State, w: nat, maxAttempts: int)
    requires Inv(s, maxAttempts) && w < |s.hands| && !s.hands[w].Gone?
    requires Retries(s, t, w, maxAttempts) || Buries(s, t, w, maxAttempts) || Crashes(s, t, w)
    ensures Potential(t, maxAttempts) < Potential(s, maxAttempts)
  {
    hide Potential, Sum, Placed, Counted;
    var p := InHandOff(w);
    if Retries(s, t, w, maxAttempts) {
      var e := s.hands[w].entry;
      assert EntryAt(s, p) == Some(e);
      CopyKnown(s, p, maxAttempts);
      MoveProgresses(s, t, p, Waiting(|s.queue.stream|), Retried(e), w, Free, maxAttempts);
    } else if Buries(s, t, w, maxAttempts) {
      var e := s.hands[w].entry;
      assert EntryAt(s, p) == Some(e);
      CopyKnown(s, p, maxAttempts);
      MoveProgresses(s, t, p, Buried(|s.queue.dead|), e, w, Free, maxAttempts);
    } else {
      CrashProgresses(s, t, w, maxAttempts);
    }
  }

  lemma CrashProgresses(s: State, t: State, w: nat, maxAttempts: int)
    requires Inv(s, maxAttempts) && w < |s.hands| && !s.hands[w].Gone? && Crashes(s, t, w)
    ensures Potential(t, maxAttempts) < Potential(s, maxAttempts)
  {
    var a, b := AheadOf(s, maxAttempts), AheadOf(t, maxAttempts);
    if s.hands[w].HandingOff? {
      var p, l := InHandOff(w), s.hands[w].entry.lineage;
      assert EntryAt(s, p) == Some(s.hands[w].entry) && s.place[l] == p;
      forall k | 0 <= k < |s.place| ensures b[k] == a[l := b[l]][k] {}
      assert b == a[l := b[l]];
      SumUpdate(a, l, b[l]);
    } else {
      assert a == b;
    }
    SumUpdate(Alive(s.hands), w, 0);
    assert Alive(t.hands) == Alive(s.hands)[w := 0];
  }

  /** The states i, i + 1, ..., j of a run are linked by queue steps of living workers only. */
  ghost predicate WorkersOnly(run: seq<State>, i: nat, j: nat, maxAttempts: int)
    requires i <= j < |run|
  {
    forall k | i <= k < j :: SomeoneWorks(run[k], run[k + 1], maxAttempts)
  }

  ghost predicate SomeoneWorks(s: State, t: State, maxAttempts: int) {
    exists w :: Works(s, t, w, maxAttempts)
  }

  /** The queue's half of termination: workers take no more steps on the queue in a row than
      the potential of the queue allows. `Progress` counts the steps between them too. */
  lemma {:induction false} WorkersFinish(run: seq<State>, i: nat, j: nat, maxAttempts: int)
    requires IsRun(run, maxAttempts) && i <= j < |run| && WorkersOnly(run, i, j, maxAttempts)
    ensures j - i + Potential(run[j], maxAttempts) <= Potential(run[i], maxAttempts)
    decreases j - i
  {
    hide Potential, Works;
    if i < j {
      WorkersFinish(run, i, j - 1, maxAttempts);
      RunKeeps(run, j - 1, maxAttempts);
      assert SomeoneWorks(run[j - 1], run[j - 1 + 1], maxAttempts);
      var w :| Works(run[j - 1], run[j], w, maxAttempts);
      StepProgresses(run[j - 1], run[j], w, maxAttempts);
    }
  }

  ghost predicate CanGoOn(s: State, w: nat, maxAttempts: int)
    requires w < |s.hands|
  {
    match s.hands[w]
    case Free => s.queue.cursor < |s.queue.stream| ==> exists t :: Claims(s, t, w)
    case Holding(_, _) => (exists t :: Acknowledges(s, t, w)) && (exists t :: GivesUp(s, t, w))
    case HandingOff(_) => exists t :: Retries(s, t, w, maxAttempts) || Buries(s, t, w, maxAttempts)
    case Gone => true
  }

  lemma HandGoesOn(s: State, w: nat, maxAttempts: int)
    requires Inv(s, maxAttempts) && w < |s.hands|
    ensures CanGoOn(s, w, maxAttempts)
  {
    match s.hands[w]
    case Free =>
      if s.queue.cursor < |s.queue.stream| {
        var e := s.queue.stream[s.queue.cursor];
        assert EntryAt(s, Waiting(s.queue.cursor)) == Some(e);
        CopyKnown(s, Waiting(s.queue.cursor), maxAttempts);
        var t := s.(queue := Deliver(s.queue), hands := s.hands[w := Holding(s.queue.cursor, e)],
                    claims := s.claims[e.lineage := s.claims[e.lineage] + 1],
                    place := s.place[e.lineage := Held(s.queue.cursor)]);
        assert Claims(s, t, w);
      }
    case Holding(at, e) =>
      assert EntryAt(s, Held(at)) == Some(e);
      var t := s.(queue := Acked(s.queue, at), hands := s.hands[w := Free], done := s.done + [e],
                  place := s.place[e.lineage := Finished(|s.done|)]);
      assert Acknowledges(s, t, w);
      var u := s.(queue := Acked(s.queue, at), hands := s.hands[w := HandingOff(e)],
                  place := s.place[e.lineage := InHandOff(w)]);
      assert GivesUp(s, u, w);
    case HandingOff(e) =>
      assert EntryAt(s, InHandOff(w)) == Some(e);
      if e.job.attempt < maxAttempts {
        var t := s.(queue := Add(s.queue, Retried(e)), hands := s.hands[w := Free],
                    place := s.place[e.lineage := Waiting(|s.queue.stream|)]);
        assert Retries(s, t, w, maxAttempts);
      } else {
        var t := s.(queue := Bury(s.queue, e), hands := s.hands[w := Free],
                    place := s.place[e.lineage := Buried(|s.queue.dead|)]);
        assert Buries(s, t, w, maxAttempts);
      }
    case Gone =>
  }

  /** On the queue's side nothing stops a worker: while an entry is undelivered a free worker
      can claim it, and a worker with something in hand can always give it back. */
  lemma WorkersNeverStuck(run: seq<State>, i: nat, w: nat, maxAttempts: int)
    requires IsRun(run, maxAttempts) && i < |run| && w < |run[i].hands|
    ensures CanGoOn(run[i], w, maxAttempts)
  {
    RunKeeps(run, i, maxAttempts);
    HandGoesOn(run[i], w, maxAttempts);
  }
}
