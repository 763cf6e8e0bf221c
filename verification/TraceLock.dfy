/** The workers' side of the store as a transition system (runner/worker.py against
    backend/app/postgres_store.py): every await on the database is one step, nothing is
    locked, and a worker can fail or crash between any two steps. Workers are the only
    writers of traces and results. */
module TraceLock {
  import opened Json
  import opened Schema
  import opened TraceModel
  import opened Runner
  import opened Store
  import opened StorageRoundTrip
  import opened Scoring
  import RunProperties

  /** One attempt at a job: its run, the events it is to store and the result it is to
      record, and whether its worker has judges configured. */
  datatype Attempt = Attempt(execution: Id, task: Task, cfg: Config, events: seq<Event>, result: Result, judged: bool)

  ghost predicate EndsIn(cfg: Config, end: End) {
    end == Run(cfg)
  }

  /** The run is a run of the task and completes, and the events and the result are its own. */
  ghost predicate Genuine(a: Attempt) {
    && a.cfg.initial == a.task.initial && a.cfg.input == a.task.input
    && forall end | EndsIn(a.cfg, end) ::
         end.Completed? && a.events == ToStorage(end.at.steps) && a.result == ScoreExecution(a.task, end)
  }

  /** What the steps below rely on: an attempt has events to store, numbered from 0. */
  ghost predicate Shaped(a: Attempt) {
    a.events != [] && Numbered(a.events)
  }

  lemma GenuineShape(a: Attempt)
    requires Genuine(a)
    ensures Shaped(a)
  {
    assert EndsIn(a.cfg, Run(a.cfg));
    RunProperties.TraceNotEmpty(a.cfg);
    RunProperties.TraceGrammar(a.cfg);
  }

  datatype Row = Open | Final(result: Result)

  /** The unique key of the trace event table. */
  datatype Key = Key(execution: Id, sequenceNo: nat)

  /** Where a worker is in `process_job`. `me` numbers its attempt; `next` is the event it
      is to append, whose execution it is about to look up (Appending) or has found, its
      row about to be inserted (Inserting); Recording is about to read the execution,
      Committing has read it as open and is about to write the result, Confirming has
      written it and is yet to hear so; Judging has judges at work. */
  datatype Phase =
    | Away
    | Looking
    | Appending(me: nat, next: nat)
    | Inserting(me: nat, next: nat)
    | Recording(me: nat)
    | Committing(me: nat)
    | Confirming(me: nat)
    | Judging(me: nat)
    | Succeeded(me: nat)
    | Failing

  /** The attempt that inserted event 0 of an execution, and how many it has inserted. */
  datatype Hold = Hold(me: nat, count: nat)

  /** The two tables, the workers, and as history all attempts, the holds and the commits
      of results in order. */
  datatype State = State(
    rows: map<Id, Row>, table: map<Key, Event>, phases: seq<Phase>,
    attempts: seq<Attempt>, holds: map<Id, Hold>, commits: seq<Id>)

  ghost predicate Init(s: State) {
    s == State(map[], map[], [], [], map[], [])
  }

  // ---------------------------------------------------------------- steps

  ghost predicate Creates(s: State, t: State, e: Id) {
    e !in s.rows && t == s.(rows := s.rows[e := Open])
  }

  ghost predicate Spawns(s: State, t: State) {
    t == s.(phases := s.phases + [Away])
  }

  function To(s: State, w: nat, phase: Phase): State
    requires w < |s.phases|
  {
    s.(phases := s.phases[w := phase])
  }

  ghost predicate Takes(s: State, t: State, w: nat) {
    w < |s.phases| && s.phases[w].Away? && t == To(s, w, Looking)
  }

  /** The task and the version are found and the run completes. */
  ghost predicate Starts(s: State, t: State, w: nat, a: Attempt) {
    w < |s.phases| && s.phases[w].Looking? && Genuine(a)
    && t == To(s, w, Appending(|s.attempts|, 0)).(attempts := s.attempts + [a])
  }

  /** `append_trace_event` looks the execution up. */
  ghost predicate Checks(s: State, t: State, w: nat) {
    w < |s.phases| && s.phases[w].Appending? && s.phases[w].me < |s.attempts|
    && t == To(s, w, if s.attempts[s.phases[w].me].execution in s.rows
                     then Inserting(s.phases[w].me, s.phases[w].next) else Failing)
  }

  function KeyOf(a: Attempt, n: nat): Key {
    Key(a.execution, n)
  }

  function Following(a: Attempt, me: nat, next: nat): Phase {
    if next + 1 < |a.events| then Appending(me, next + 1) else Recording(me)
  }

  /** `append_trace_event` inserts the redacted row; the unique key refuses a duplicate. */
  ghost predicate Inserts(s: State, t: State, w: nat) {
    w < |s.phases| && s.phases[w].Inserting? && s.phases[w].me < |s.attempts|
    && var me, n := s.phases[w].me, s.phases[w].next;
       var a := s.attempts[me];
       n < |a.events|
       && if KeyOf(a, n) in s.table then t == To(s, w, Failing)
          else t == To(s, w, Following(a, me, n)).(
                 table := s.table[KeyOf(a, n) := RedactEvent(a.events[n])],
                 holds := s.holds[a.execution := Hold(me, n + 1)])
  }

  /** `record_result` reads the execution: not found and already final are errors. */
  ghost predicate Reads(s: State, t: State, w: nat) {
    w < |s.phases| && s.phases[w].Recording? && s.phases[w].me < |s.attempts|
    && var e := s.attempts[s.phases[w].me].execution;
       t == To(s, w, if e in s.rows && s.rows[e].Open? then Committing(s.phases[w].me) else Failing)
  }

  /** `record_result` writes the execution back, whatever has happened to it since. */
  ghost predicate Commits(s: State, t: State, w: nat) {
    w < |s.phases| && s.phases[w].Committing? && s.phases[w].me < |s.attempts|
    && var a := s.attempts[s.phases[w].me];
       t == To(s, w, Confirming(s.phases[w].me)).(
              rows := s.rows[a.execution := Final(a.result)], commits := s.commits + [a.execution])
  }

  /** The worker hears that its result is written, and turns to its judges if it has any. */
  ghost predicate Confirms(s: State, t: State, w: nat) {
    w < |s.phases| && s.phases[w].Confirming? && s.phases[w].me < |s.attempts|
    && var me := s.phases[w].me;
       t == To(s, w, if s.attempts[me].judged then Judging(me) else Succeeded(me))
  }

  /** The judges have answered, and their verdicts are stored. */
  ghost predicate Judges(s: State, t: State, w: nat) {
    w < |s.phases| && s.phases[w].Judging? && t == To(s, w, Succeeded(s.phases[w].me))
  }

  /** Anything a job does can raise: a look-up, the run, a database call, the judges. A
      database call may have taken effect by then. */
  ghost predicate Fails(s: State, t: State, w: nat) {
    w < |s.phases| && !s.phases[w].Away? && !s.phases[w].Succeeded? && !s.phases[w].Failing?
    && t == To(s, w, Failing)
  }

  /** The worker is done with the job, or crashes. */
  ghost predicate Leaves(s: State, t: State, w: nat) {
    w < |s.phases| && t == To(s, w, Away)
  }

  ghost predicate JobStep(s: State, t: State, w: nat) {
    || (exists a :: Starts(s, t, w, a)) || Checks(s, t, w) || Inserts(s, t, w) || Reads(s, t, w)
    || Commits(s, t, w) || Confirms(s, t, w) || Judges(s, t, w) || Fails(s, t, w)
  }

  ghost predicate Next(s: State, t: State) {
    || (exists e :: Creates(s, t, e)) || Spawns(s, t)
    || (exists w :: Takes(s, t, w) || JobStep(s, t, w) || Leaves(s, t, w))
    || t == s
  }

  // ---------------------------------------------------------------- the invariant

  /** The attempt a worker is carrying out. */
  function Mine(p: Phase): Option<nat> {
    match p
    case Away => None
    case Looking => None
    case Failing => None
    case Appending(me, _) => Some(me)
    case Inserting(me, _) => Some(me)
    case Recording(me) => Some(me)
    case Committing(me) => Some(me)
    case Confirming(me) => Some(me)
    case Judging(me) => Some(me)
    case Succeeded(me) => Some(me)
  }

  ghost predicate Sound(s: State) {
    forall n | 0 <= n < |s.attempts| :: Shaped(s.attempts[n])
  }

  /** Attempts are carried out by one worker each. */
  ghost predicate Separate(s: State) {
    && (forall w | 0 <= w < |s.phases| && Mine(s.phases[w]).Some? :: Mine(s.phases[w]).value < |s.attempts|)
    && (forall v, w | 0 <= v < w < |s.phases| && Mine(s.phases[v]).Some? :: Mine(s.phases[v]) != Mine(s.phases[w]))
  }

  /** The table holds, for each execution held, the first `count` events of its holder,
      redacted, and nothing else. */
  ghost predicate Stored(s: State) {
    && (forall k :: k in s.table <==> k.execution in s.holds && k.sequenceNo < s.holds[k.execution].count)
    && (forall e | e in s.holds :: HoldFits(s, e))
    && (forall k | k in s.table :: EventFits(s, k))
  }

  ghost predicate HoldFits(s: State, e: Id)
    requires e in s.holds
  {
    var h := s.holds[e];
    h.me < |s.attempts| && s.attempts[h.me].execution == e && 0 < h.count <= |s.attempts[h.me].events| && e in s.rows
  }

  ghost predicate EventFits(s: State, k: Key) {
    k.execution in s.holds && s.holds[k.execution].me < |s.attempts|
    && k.sequenceNo < |s.attempts[s.holds[k.execution].me].events|
    && k in s.table
    && s.table[k] == RedactEvent(s.attempts[s.holds[k.execution].me].events[k.sequenceNo])
  }

  /** Attempt `me` holds its execution, having inserted n events. */
  ghost predicate Has(s: State, me: nat, n: nat)
    requires me < |s.attempts|
  {
    var e := s.attempts[me].execution;
    e in s.holds && s.holds[e] == Hold(me, n)
  }

  ghost predicate RowIs(s: State, me: nat, row: Row)
    requires me < |s.attempts|
  {
    var e := s.attempts[me].execution;
    e in s.rows && s.rows[e] == row
  }

  /** A worker past its first insert holds the execution; one before it does not. */
  ghost predicate Positioned(s: State, p: Phase)
    requires Mine(p).Some? ==> Mine(p).value < |s.attempts|
  {
    match p
    case Away => true
    case Looking => true
    case Failing => true
    case Appending(me, n) => AtEvent(s, me, n)
    case Inserting(me, n) => AtEvent(s, me, n) && s.attempts[me].execution in s.rows
    case Recording(me) => Has(s, me, |s.attempts[me].events|) && RowIs(s, me, Open)
    case Committing(me) => Has(s, me, |s.attempts[me].events|) && RowIs(s, me, Open)
    case Confirming(me) => Has(s, me, |s.attempts[me].events|) && RowIs(s, me, Final(s.attempts[me].result))
    case Judging(me) =>
      Has(s, me, |s.attempts[me].events|) && RowIs(s, me, Final(s.attempts[me].result)) && s.attempts[me].judged
    case Succeeded(me) => Has(s, me, |s.attempts[me].events|) && RowIs(s, me, Final(s.attempts[me].result))
  }

  ghost predicate AtEvent(s: State, me: nat, n: nat)
    requires me < |s.attempts|
  {
    && n < |s.attempts[me].events|
    && if n == 0 then !Holds1(s, me) else Has(s, me, n) && RowIs(s, me, Open)
  }

  ghost predicate Holds1(s: State, me: nat)
    requires me < |s.attempts|
  {
    var e := s.attempts[me].execution;
    e in s.holds && s.holds[e].me == me
  }

  ghost predicate AllPositioned(s: State)
    requires Separate(s)
  {
    forall w | 0 <= w < |s.phases| :: Positioned(s, s.phases[w])
  }

  /** A final row carries the result of the attempt that holds the execution, whose trace
      is stored whole; and the commits are the final rows, each once. */
  ghost predicate Finalized(s: State) {
    && (forall e | e in s.rows && s.rows[e].Final? :: FinalFits(s, e))
    && (forall e :: e in s.commits <==> e in s.rows && s.rows[e].Final?)
    && (forall i, j | 0 <= i < j < |s.commits| :: s.commits[i] != s.commits[j])
  }

  ghost predicate FinalFits(s: State, e: Id)
    requires e in s.rows
  {
    && e in s.holds && s.holds[e].me < |s.attempts|
    && var a := s.attempts[s.holds[e].me];
       s.holds[e].count == |a.events| && s.rows[e] == Final(a.result)
  }

  ghost predicate Inv(s: State) {
    Sound(s) && Separate(s) && Stored(s) && AllPositioned(s) && Finalized(s)
  }

  // ---------------------------------------------------------------- each step keeps the invariant

  lemma PositionedAt(s: State, w: nat)
    requires Inv(s) && w < |s.phases| && Mine(s.phases[w]).Some?
    ensures Mine(s.phases[w]).value < |s.attempts| && Positioned(s, s.phases[w])
    ensures Shaped(s.attempts[Mine(s.phases[w]).value])
  {
  }

  /** A step that changes nothing but where one worker is. */
  lemma PhaseKeeps(s: State, t: State, w: nat, p: Phase)
    requires Inv(s) && w < |s.phases| && t == To(s, w, p)
    requires Mine(p).None? || Mine(p) == Mine(s.phases[w])
    requires Mine(p).Some? ==> Mine(p).value < |s.attempts| && Positioned(s, p)
    ensures Inv(t)
  {
    hide HoldFits, EventFits, FinalFits, Has, RowIs, AtEvent;
    StoredSame(s, t);
    FinalizedSame(s, t);
    forall v | 0 <= v < |t.phases| && Mine(t.phases[v]).Some? ensures Positioned(t, t.phases[v]) {
      assert Positioned(s, t.phases[v]);
      PositionedSame(s, t, t.phases[v]);
    }
  }

  lemma StoredSame(s: State, t: State)
    requires Stored(s) && t.table == s.table && t.holds == s.holds && t.attempts == s.attempts && t.rows == s.rows
    ensures Stored(t)
  {
    forall e | e in t.holds ensures HoldFits(t, e) {
      assert HoldFits(s, e);
    }
    forall k | k in t.table ensures EventFits(t, k) {
      assert EventFits(s, k);
    }
  }

  lemma FinalizedSame(s: State, t: State)
    requires Finalized(s) && t.commits == s.commits
    requires t.holds == s.holds && t.attempts == s.attempts && t.rows == s.rows
    ensures Finalized(t)
  {
    forall e | e in t.rows && t.rows[e].Final? ensures FinalFits(t, e) {
      assert FinalFits(s, e);
    }
  }

  lemma PositionedSame(s: State, t: State, p: Phase)
    requires Mine(p).Some? ==> Mine(p).value < |s.attempts| && Positioned(s, p)
    requires t.holds == s.holds && t.attempts == s.attempts && t.rows == s.rows
    ensures Mine(p).Some? ==> Positioned(t, p)
  {
  }

  lemma CreatesKeeps(s: State, t: State, e: Id)
    requires Inv(s) && Creates(s, t, e)
    ensures Inv(t)
  {
    hide EventFits;
    assert Stored(t) by {
      forall x | x in t.holds ensures HoldFits(t, x) {
        assert HoldFits(s, x);
      }
      forall k | k in t.table ensures EventFits(t, k) {
        EventSame(s, t, k);
      }
    }
    forall v | 0 <= v < |t.phases| ensures Positioned(t, t.phases[v]) {
      assert Positioned(s, s.phases[v]);
    }
    forall x | x in t.rows && t.rows[x].Final? ensures FinalFits(t, x) {
      assert FinalFits(s, x);
    }
  }

  lemma EventSame(s: State, t: State, k: Key)
    requires EventFits(s, k) && k in t.table && t.table[k] == s.table[k]
    requires k.execution in t.holds && t.holds[k.execution].me == s.holds[k.execution].me
    requires s.attempts <= t.attempts
    ensures EventFits(t, k)
  {
  }

  lemma SpawnsKeeps(s: State, t: State)
    requires Inv(s) && Spawns(s, t)
    ensures Inv(t)
  {
    hide HoldFits, EventFits, FinalFits, Has, RowIs, AtEvent;
    StoredSame(s, t);
    FinalizedSame(s, t);
    forall v | 0 <= v < |t.phases| ensures Mine(t.phases[v]).Some? ==> Positioned(t, t.phases[v]) {
      if v < |s.phases| {
        assert Positioned(s, s.phases[v]);
        PositionedSame(s, t, s.phases[v]);
      }
    }
  }

  /** A worker stays positioned when nothing about its own execution changes. */
  lemma UntouchedPositioned(s: State, t: State, p: Phase)
    requires Mine(p).Some? && Mine(p).value < |s.attempts| && Positioned(s, p) && s.attempts <= t.attempts
    requires var e := s.attempts[Mine(p).value].execution;
      && (e in t.holds <==> e in s.holds) && (e in s.holds ==> t.holds[e] == s.holds[e])
      && (e in s.rows ==> e in t.rows && t.rows[e] == s.rows[e])
    ensures Positioned(t, p)
  {
  }

  /** A worker whose execution another attempt holds is still before its first insert. */
  lemma OutsiderPositioned(s: State, t: State, p: Phase)
    requires Mine(p).Some? && Mine(p).value < |s.attempts| && Positioned(s, p) && s.attempts == t.attempts
    requires var e := s.attempts[Mine(p).value].execution;
      && (e in s.holds ==> s.holds[e].me != Mine(p).value)
      && e in t.holds && t.holds[e].me != Mine(p).value
      && (e in s.rows ==> e in t.rows)
    ensures Positioned(t, p)
  {
  }

  lemma MoreAttempts(s: State, t: State)
    requires Stored(s) && Finalized(s) && s.attempts <= t.attempts
    requires t.table == s.table && t.holds == s.holds && t.rows == s.rows && t.commits == s.commits
    ensures Stored(t) && Finalized(t)
  {
    hide EventFits;
    forall x | x in t.holds ensures HoldFits(t, x) {
      assert HoldFits(s, x);
    }
    forall k | k in t.table ensures EventFits(t, k) {
      EventSame(s, t, k);
    }
    forall x | x in t.rows && t.rows[x].Final? ensures FinalFits(t, x) {
      assert FinalFits(s, x);
    }
  }

  lemma StartsKeeps(s: State, t: State, w: nat, a: Attempt)
    requires Inv(s) && Starts(s, t, w, a)
    ensures Inv(t)
  {
    GenuineShape(a);
    MoreAttempts(s, t);
    hide Genuine, Stored, Finalized, Positioned, AllPositioned;
    forall v | 0 <= v < |t.phases| && Mine(t.phases[v]).Some? ensures Positioned(t, t.phases[v]) {
      if v == w {
        StartPositioned(s, t, a);
      } else {
        PositionedAt(s, v);
        UntouchedPositioned(s, t, s.phases[v]);
      }
    }
    AllPositionedFrom(t);
  }

  lemma StartPositioned(s: State, t: State, a: Attempt)
    requires Stored(s) && t.attempts == s.attempts + [a] && t.holds == s.holds && a.events != []
    ensures Positioned(t, Appending(|s.attempts|, 0))
  {
    hide EventFits;
    assert a.execution in s.holds ==> HoldFits(s, a.execution);
  }

  lemma AllPositionedFrom(t: State)
    requires Separate(t)
    requires forall v | 0 <= v < |t.phases| && Mine(t.phases[v]).Some? :: Positioned(t, t.phases[v])
    ensures AllPositioned(t)
  {
    forall v | 0 <= v < |t.phases| ensures Positioned(t, t.phases[v]) {}
  }

  lemma ChecksKeeps(s: State, t: State, w: nat)
    requires Inv(s) && Checks(s, t, w)
    ensures Inv(t)
  {
    PositionedAt(s, w);
    PhaseKeeps(s, t, w, t.phases[w]);
  }

  lemma ReadsKeeps(s: State, t: State, w: nat)
    requires Inv(s) && Reads(s, t, w)
    ensures Inv(t)
  {
    PositionedAt(s, w);
    PhaseKeeps(s, t, w, t.phases[w]);
  }

  lemma ConfirmsKeeps(s: State, t: State, w: nat)
    requires Inv(s) && Confirms(s, t, w)
    ensures Inv(t)
  {
    PositionedAt(s, w);
    PhaseKeeps(s, t, w, t.phases[w]);
  }

  lemma JudgesKeeps(s: State, t: State, w: nat)
    requires Inv(s) && Judges(s, t, w)
    ensures Inv(t)
  {
    PositionedAt(s, w);
    PhaseKeeps(s, t, w, t.phases[w]);
  }

  /** A worker whose insert the unique key lets through holds the execution up to there, or
      nobody does; in either case the execution is still open. */
  lemma InsertFinds(s: State, w: nat)
    requires Inv(s) && w < |s.phases| && s.phases[w].Inserting? && s.phases[w].me < |s.attempts|
    ensures var me, n := s.phases[w].me, s.phases[w].next;
      var a := s.attempts[me];
      && n < |a.events| && RedactEvent(a.events[n]).sequenceNo == n
      && (KeyOf(a, n) !in s.table ==>
            && RowIs(s, me, Open)
            && if a.execution in s.holds then n > 0 && Has(s, me, n) else n == 0)
  {
    PositionedAt(s, w);
    var me, n := s.phases[w].me, s.phases[w].next;
    var a := s.attempts[me];
    assert Numbered(a.events);
    hide EventFits;
  }

  ghost predicate Inserted(s: State, t: State, w: nat) {
    && w < |s.phases| && s.phases[w].Inserting? && s.phases[w].me < |s.attempts|
    && s.phases[w].next < |s.attempts[s.phases[w].me].events|
    && KeyOf(s.attempts[s.phases[w].me], s.phases[w].next) !in s.table
    && Inserts(s, t, w)
  }

  lemma InsertedStored(s: State, t: State, w: nat)
    requires Inv(s) && Inserted(s, t, w)
    ensures Stored(t)
  {
    InsertFinds(s, w);
    hide EventFits;
    var me, n := s.phases[w].me, s.phases[w].next;
    var a := s.attempts[me];
    forall x | x in t.holds ensures HoldFits(t, x) {
      assert x in s.holds ==> HoldFits(s, x);
    }
    forall k ensures k in t.table <==> k.execution in t.holds && k.sequenceNo < t.holds[k.execution].count {
      assert k == KeyOf(a, n) <==> k.execution == a.execution && k.sequenceNo == n;
    }
    forall k | k in t.table ensures EventFits(t, k) {
      if k == KeyOf(a, n) {
        EventNew(t, k, me);
      } else {
        EventSame(s, t, k);
      }
    }
  }

  lemma EventNew(t: State, k: Key, me: nat)
    requires me < |t.attempts| && k.execution in t.holds && t.holds[k.execution].me == me
    requires k in t.table && k.sequenceNo < |t.attempts[me].events|
    requires t.table[k] == RedactEvent(t.attempts[me].events[k.sequenceNo])
    ensures EventFits(t, k)
  {
  }

  lemma InsertTouches(s: State, t: State, w: nat)
    requires Inv(s) && Inserted(s, t, w)
    ensures var me := s.phases[w].me;
      && TouchesOnly(s, t, s.attempts[me].execution, me) && t.attempts == s.attempts
      && Has(t, me, s.phases[w].next + 1) && RowIs(t, me, Open)
      && t.phases == s.phases[w := Following(t.attempts[me], me, s.phases[w].next)]
  {
    InsertFinds(s, w);
    hide Sound, Separate, AllPositioned, Stored, Finalized, Positioned, RedactEvent, Following;
  }

  lemma InsertedPositioned(s: State, t: State, w: nat)
    requires Inv(s) && Inserted(s, t, w)
    ensures Separate(t) && AllPositioned(t)
  {
    InsertTouches(s, t, w);
    var me, n := s.phases[w].me, s.phases[w].next;
    FollowingPositioned(t, me, n);
    RestPositioned(s, t, w, me, Following(t.attempts[me], me, n));
  }

  lemma RestPositioned(s: State, t: State, w: nat, me: nat, p: Phase)
    requires Inv(s) && w < |s.phases| && Mine(s.phases[w]) == Some(me) && me < |s.attempts|
    requires t.attempts == s.attempts && TouchesOnly(s, t, s.attempts[me].execution, me)
    requires t.phases == s.phases[w := p] && Mine(p) == Some(me) && Positioned(t, p)
    ensures Separate(t) && AllPositioned(t)
  {
    hide Positioned, AllPositioned, Stored, Finalized, Sound, TouchesOnly;
    forall v | 0 <= v < |t.phases| && Mine(t.phases[v]).Some? ensures Positioned(t, t.phases[v]) {
      if v != w {
        OthersPositioned(s, t, v, w, me);
      }
    }
    AllPositionedFrom(t);
  }

  lemma FollowingPositioned(t: State, me: nat, n: nat)
    requires me < |t.attempts| && n < |t.attempts[me].events| && Has(t, me, n + 1) && RowIs(t, me, Open)
    ensures Mine(Following(t.attempts[me], me, n)) == Some(me)
    ensures Positioned(t, Following(t.attempts[me], me, n))
  {
  }

  /** Only what belongs to execution e changes, which attempt `me` holds afterwards and
      nobody else held before. */
  ghost predicate TouchesOnly(s: State, t: State, e: Id, me: nat) {
    && (e in s.holds ==> s.holds[e].me == me) && e in t.holds && t.holds[e].me == me
    && (forall x | x != e :: (x in t.holds <==> x in s.holds) && (x in s.holds ==> t.holds[x] == s.holds[x]))
    && (forall x | x in s.rows :: x in t.rows && (x != e ==> t.rows[x] == s.rows[x]))
  }

  /** The other workers stay positioned when attempt `me` alone touches its execution. */
  lemma OthersPositioned(s: State, t: State, v: nat, w: nat, me: nat)
    requires Inv(s) && v < |s.phases| && w < |s.phases| && v != w && me < |s.attempts|
    requires Mine(s.phases[v]).Some? && Mine(s.phases[w]) == Some(me) && t.attempts == s.attempts
    requires TouchesOnly(s, t, s.attempts[me].execution, me)
    ensures Mine(s.phases[v]).value < |t.attempts| && Positioned(t, s.phases[v])
  {
    PositionedAt(s, v);
    hide Positioned, Stored, Finalized, AllPositioned;
    if s.attempts[Mine(s.phases[v]).value].execution == s.attempts[me].execution {
      OutsiderPositioned(s, t, s.phases[v]);
    } else {
      UntouchedPositioned(s, t, s.phases[v]);
    }
  }

  lemma InsertsKeeps(s: State, t: State, w: nat)
    requires Inv(s) && Inserts(s, t, w)
    ensures Inv(t)
  {
    InsertFinds(s, w);
    if Inserted(s, t, w) {
      InsertedStored(s, t, w);
      InsertedPositioned(s, t, w);
      forall x | x in t.rows && t.rows[x].Final? ensures FinalFits(t, x) {
        assert FinalFits(s, x);
      }
    } else {
      PhaseKeeps(s, t, w, Failing);
    }
  }

  lemma CommittedPositioned(t: State, me: nat)
    requires me < |t.attempts| && Has(t, me, |t.attempts[me].events|) && RowIs(t, me, Final(t.attempts[me].result))
    ensures Positioned(t, Confirming(me))
  {
  }

  lemma CommitFinds(s: State, t: State, w: nat)
    requires Inv(s) && Commits(s, t, w)
    ensures var me := s.phases[w].me;
      && Has(s, me, |s.attempts[me].events|) && RowIs(s, me, Open)
      && TouchesOnly(s, t, s.attempts[me].execution, me)
      && Has(t, me, |t.attempts[me].events|) && RowIs(t, me, Final(t.attempts[me].result))
  {
    PositionedAt(s, w);
    hide Sound, Separate, AllPositioned, Stored, Finalized;
  }

  lemma CommitsStored(s: State, t: State, w: nat)
    requires Inv(s) && Commits(s, t, w)
    ensures Stored(t)
  {
    hide EventFits, Separate, AllPositioned, Sound, Finalized;
    forall x | x in t.holds ensures HoldFits(t, x) {
      assert HoldFits(s, x);
    }
    forall k | k in t.table ensures EventFits(t, k) {
      EventSame(s, t, k);
    }
  }

  lemma CommitsFinalized(s: State, t: State, w: nat)
    requires Inv(s) && Commits(s, t, w)
    ensures Finalized(t)
  {
    CommitFinds(s, t, w);
    hide EventFits, Separate, AllPositioned, Sound, Stored, TouchesOnly;
    var e := s.attempts[s.phases[w].me].execution;
    forall x | x in t.rows && t.rows[x].Final? ensures FinalFits(t, x) {
      if x != e {
        assert FinalFits(s, x);
      }
    }
  }

  lemma CommitsKeeps(s: State, t: State, w: nat)
    requires Inv(s) && Commits(s, t, w)
    ensures Inv(t)
  {
    CommitsStored(s, t, w);
    CommitsFinalized(s, t, w);
    CommitFinds(s, t, w);
    var me := s.phases[w].me;
    CommittedPositioned(t, me);
    hide Stored, AllPositioned, Finalized, Positioned, TouchesOnly;
    RestPositioned(s, t, w, me, Confirming(me));
  }

  lemma JobStepKeeps(s: State, t: State, w: nat)
    requires Inv(s) && JobStep(s, t, w)
    ensures Inv(t)
  {
    hide Inv, Starts, Checks, Inserts, Reads, Commits, Confirms, Judges;
    if a :| Starts(s, t, w, a) {
      StartsKeeps(s, t, w, a);
    } else if Checks(s, t, w) {
      ChecksKeeps(s, t, w);
    } else if Inserts(s, t, w) {
      InsertsKeeps(s, t, w);
    } else if Reads(s, t, w) {
      ReadsKeeps(s, t, w);
    } else if Commits(s, t, w) {
      CommitsKeeps(s, t, w);
    } else if Confirms(s, t, w) {
      ConfirmsKeeps(s, t, w);
    } else if Judges(s, t, w) {
      JudgesKeeps(s, t, w);
    } else {
      PhaseKeeps(s, t, w, Failing);
    }
  }

  lemma {:induction false} StepKeeps(s: State, t: State)
    requires Inv(s) && Next(s, t)
    ensures Inv(t)
  {
    hide Inv, Creates, Spawns, JobStep;
    if e :| Creates(s, t, e) {
      CreatesKeeps(s, t, e);
    } else if Spawns(s, t) {
      SpawnsKeeps(s, t);
    } else if w :| Takes(s, t, w) || JobStep(s, t, w) || Leaves(s, t, w) {
      if Takes(s, t, w) {
        PhaseKeeps(s, t, w, Looking);
      } else if JobStep(s, t, w) {
        JobStepKeeps(s, t, w);
      } else {
        PhaseKeeps(s, t, w, Away);
      }
    }
  }

  // ---------------------------------------------------------------- whole runs

  ghost predicate IsRun(run: seq<State>) {
    |run| > 0 && Init(run[0]) && forall i | 0 < i < |run| :: Next(run[i - 1], run[i])
  }

  lemma {:induction false} RunKeeps(run: seq<State>, i: nat)
    requires IsRun(run) && i < |run|
    ensures Inv(run[i])
  {
    hide Next;
    if i > 0 {
      RunKeeps(run, i - 1);
      StepKeeps(run[i - 1], run[i]);
    }
  }

  /** Every attempt ever started is genuine. */
  lemma {:induction false} RunGenuine(run: seq<State>, i: nat, n: nat)
    requires IsRun(run) && i < |run| && n < |run[i].attempts|
    ensures Genuine(run[i].attempts[n])
  {
    hide Genuine, Next;
    if i > 0 {
      StepGenuine(run[i - 1], run[i], n);
      if n < |run[i - 1].attempts| {
        RunGenuine(run, i - 1, n);
      }
    }
  }

  lemma StepGenuine(s: State, t: State, n: nat)
    requires Next(s, t) && n < |t.attempts|
    ensures if n < |s.attempts| then t.attempts[n] == s.attempts[n] else Genuine(t.attempts[n])
  {
    hide Genuine;
  }

  // ---------------------------------------------------------------- single-owner traces

  /** The stored events of an execution, in order: what reading its trace finds. */
  ghost predicate StoredAre(s: State, e: Id, events: seq<Event>) {
    && (forall k: nat :: Key(e, k) in s.table <==> k < |events|)
    && (forall k: nat | k < |events| :: s.table[Key(e, k)] == events[k])
  }

  /** What is stored of e are the first k events of attempt n, redacted, and k is not 0. */
  ghost predicate OwnedBy(s: State, e: Id, n: nat, k: nat) {
    && n < |s.attempts| && s.attempts[n].execution == e && 0 < k <= |s.attempts[n].events|
    && StoredAre(s, e, RedactEvents(s.attempts[n].events[..k]))
  }

  lemma OwnerOwns(s: State, e: Id)
    requires Inv(s) && e in s.holds
    ensures s.holds[e].me < |s.attempts| && OwnedBy(s, e, s.holds[e].me, s.holds[e].count)
  {
    hide Positioned, AllPositioned, Separate, Finalized;
    assert HoldFits(s, e);
    var n, k := s.holds[e].me, s.holds[e].count;
    forall j | 0 <= j < k ensures s.table[Key(e, j)] == RedactEvents(s.attempts[n].events[..k])[j] {
      assert EventFits(s, Key(e, j));
    }
  }

  lemma UnheldIsEmpty(s: State, e: Id)
    requires Inv(s) && e !in s.holds
    ensures StoredAre(s, e, [])
  {
  }

  /** Without a lock and one row at a time, the table behaves as the in-memory store: what it
      holds of an execution is a list, and the insert refuses exactly the numbers that list
      holds and otherwise makes of it what the in-memory append makes of it. */
  lemma InsertRefinesAppend(s: State, t: State, w: nat, stored: seq<Event>)
    requires Inv(s) && Inserts(s, t, w) && StoredAre(s, s.attempts[s.phases[w].me].execution, stored)
    ensures var a, n := s.attempts[s.phases[w].me], s.phases[w].next;
      && n < |a.events|
      && (Holds(stored, n) <==> KeyOf(a, n) in s.table)
      && StoredAre(t, a.execution, if Holds(stored, n) then stored else Appended(stored, a.events[n]))
  {
    hide Inv, StoredAre, Appended, RedactEvent, Following;
    InsertFinds(s, w);
    var me, n := s.phases[w].me, s.phases[w].next;
    var a := s.attempts[me];
    StoredNumbers(s, a.execution, stored);
    HoldsIffStored(s, a, n, stored);
    if KeyOf(a, n) !in s.table {
      NextInLine(s, w, stored);
      InOrder(stored, a.events[n]);
      OneMoreStored(s, t, a.execution, stored, RedactEvent(a.events[n]));
    } else {
      SameStored(s, t, a.execution, stored);
    }
  }

  lemma HoldsIffStored(s: State, a: Attempt, n: nat, stored: seq<Event>)
    requires StoredAre(s, a.execution, stored) && forall k | 0 <= k < |stored| :: stored[k].sequenceNo == k
    ensures Holds(stored, n) <==> KeyOf(a, n) in s.table
  {
    assert n < |stored| ==> stored[n].sequenceNo == n;
  }

  lemma InOrder(stored: seq<Event>, e: Event)
    requires forall k | 0 <= k < |stored| :: stored[k].sequenceNo == k
    requires RedactEvent(e).sequenceNo == |stored|
    ensures Appended(stored, e) == stored + [RedactEvent(e)]
  {
    SortedOfAscending(stored + [RedactEvent(e)]);
  }

  lemma OneMoreStored(s: State, t: State, e: Id, stored: seq<Event>, event: Event)
    requires StoredAre(s, e, stored) && t.table == s.table[Key(e, |stored|) := event]
    ensures StoredAre(t, e, stored + [event])
  {
  }

  lemma SameStored(s: State, t: State, e: Id, stored: seq<Event>)
    requires StoredAre(s, e, stored) && t.table == s.table
    ensures StoredAre(t, e, stored)
  {
  }

  /** An insert that is let through is the next in line. */
  lemma NextInLine(s: State, w: nat, stored: seq<Event>)
    requires Inv(s) && w < |s.phases| && s.phases[w].Inserting? && s.phases[w].me < |s.attempts|
    requires var a := s.attempts[s.phases[w].me];
      StoredAre(s, a.execution, stored) && KeyOf(a, s.phases[w].next) !in s.table
    ensures s.phases[w].next == |stored|
  {
    InsertFinds(s, w);
    hide Positioned, AllPositioned, Separate, Finalized, Sound, RedactEvent;
    var a, n := s.attempts[s.phases[w].me], s.phases[w].next;
    assert n > 0 ==> Key(a.execution, n - 1) in s.table;
    assert Key(a.execution, n) !in s.table;
  }

  /** Stored events are numbered by their places. */
  lemma StoredNumbers(s: State, e: Id, stored: seq<Event>)
    requires Inv(s) && StoredAre(s, e, stored)
    ensures forall k | 0 <= k < |stored| :: stored[k].sequenceNo == k
  {
    hide Positioned, AllPositioned, Separate, Finalized;
    forall k | 0 <= k < |stored| ensures stored[k].sequenceNo == k {
      assert Key(e, k) in s.table && EventFits(s, Key(e, k)) && HoldFits(s, e);
      assert Shaped(s.attempts[s.holds[e].me]);
    }
  }

  /** Main result: single-owner traces. In every state of every run, the stored events of an
      execution are a prefix of the redacted storage form of one single attempt at it, and
      that attempt is a completed run of its task. */
  lemma SingleOwner(run: seq<State>, i: nat, e: Id)
    requires IsRun(run) && i < |run|
    ensures StoredAre(run[i], e, [])
         || exists n: nat, k: nat :: OwnedBy(run[i], e, n, k) && Genuine(run[i].attempts[n])
  {
    RunKeeps(run, i);
    var s := run[i];
    hide Genuine, Inv, StoredAre, OwnedBy;
    if e in s.holds {
      OwnerOwns(s, e);
      RunGenuine(run, i, s.holds[e].me);
      assert OwnedBy(s, e, s.holds[e].me, s.holds[e].count);
    } else {
      UnheldIsEmpty(s, e);
    }
  }

  /** An attempt at an execution that another attempt holds never gets past its first
      event, and the unique key turns it away there. */
  lemma LatecomersAreTurnedAway(run: seq<State>, i: nat, w: nat)
    requires IsRun(run) && i < |run| && w < |run[i].phases| && Mine(run[i].phases[w]).Some?
    requires Mine(run[i].phases[w]).value < |run[i].attempts|
    requires var me := Mine(run[i].phases[w]).value;
      var e := run[i].attempts[me].execution;
      e in run[i].holds && run[i].holds[e].me != me
    ensures var me := Mine(run[i].phases[w]).value;
      run[i].phases[w] == Appending(me, 0) || run[i].phases[w] == Inserting(me, 0)
    ensures forall t | Inserts(run[i], t, w) :: t == To(run[i], w, Failing)
  {
    RunKeeps(run, i);
    PositionedAt(run[i], w);
    var me := Mine(run[i].phases[w]).value;
    assert HoldFits(run[i], run[i].attempts[me].execution);
    hide Genuine, Separate, AllPositioned, Finalized, Sound;
  }

  // ---------------------------------------------------------------- single finalization

  /** Attempt n finalized e: its result is recorded, and its trace is stored whole. */
  ghost predicate FinalizedBy(s: State, e: Id, n: nat) {
    && n < |s.attempts| && s.attempts[n].execution == e
    && e in s.rows && s.rows[e] == Final(s.attempts[n].result)
    && StoredAre(s, e, RedactEvents(s.attempts[n].events))
  }

  lemma FinalHasOwner(s: State, e: Id)
    requires Inv(s) && e in s.rows && s.rows[e].Final?
    ensures e in s.holds && FinalizedBy(s, e, s.holds[e].me)
  {
    hide Positioned, AllPositioned, Separate, Stored;
    assert FinalFits(s, e);
    OwnerOwns(s, e);
    var a := s.attempts[s.holds[e].me];
    assert a.events[..|a.events|] == a.events;
  }

  /** Main result: no execution is ever finalized twice, although nothing is locked between
      reading and writing its row; and a final execution carries the result of the one
      attempt whose trace is stored for it, stored whole. */
  lemma SingleFinalization(run: seq<State>, i: nat)
    requires IsRun(run) && i < |run|
    ensures forall j, k | 0 <= j < k < |run[i].commits| :: run[i].commits[j] != run[i].commits[k]
    ensures forall e | e in run[i].rows && run[i].rows[e].Final? ::
      exists n: nat :: FinalizedBy(run[i], e, n) && Genuine(run[i].attempts[n])
  {
    RunKeeps(run, i);
    var s := run[i];
    hide Genuine, FinalizedBy, Positioned, AllPositioned, Separate, Stored, Sound;
    forall e | e in s.rows && s.rows[e].Final? ensures exists n: nat :: FinalizedBy(s, e, n) && Genuine(s.attempts[n]) {
      FinalHasOwner(s, e);
      assert FinalizedBy(s, e, s.holds[e].me);
      RunGenuine(run, i, OwnerOf(s, e));
    }
  }

  function OwnerOf(s: State, e: Id): nat
    requires e in s.holds
  {
    s.holds[e].me
  }

  /** The write of `record_result` is unconditional, and yet it only ever replaces an open row. */
  lemma CommitReplacesOpenRow(run: seq<State>, i: nat, t: State, w: nat)
    requires IsRun(run) && i < |run| && Commits(run[i], t, w)
    ensures RowIs(run[i], run[i].phases[w].me, Open)
  {
    RunKeeps(run, i);
    CommitFinds(run[i], t, w);
  }

  // ---------------------------------------------------------------- what lasts

  /** Later states of a run follow earlier ones by steps. */
  ghost predicate Continues(s: State, more: seq<State>) {
    |more| > 0 && more[0] == s && forall i | 0 < i < |more| :: Next(more[i - 1], more[i])
  }

  /** A step that writes one execution leaves the others as they are. */
  ghost predicate SameElsewhere(s: State, t: State, e: Id) {
    && (e in t.rows <==> e in s.rows) && (e in s.rows ==> t.rows[e] == s.rows[e])
    && (e in t.holds <==> e in s.holds) && (e in s.holds ==> t.holds[e] == s.holds[e])
    && s.attempts <= t.attempts
    && forall k: nat :: (Key(e, k) in t.table <==> Key(e, k) in s.table)
                        && (Key(e, k) in s.table ==> t.table[Key(e, k)] == s.table[Key(e, k)])
  }

  /** The execution a worker's step writes, if any: the one its attempt is at, and only
      while that is open. */
  lemma InsertElsewhere(s: State, t: State, w: nat, e: Id)
    requires Inv(s) && Inserted(s, t, w) && e != s.attempts[s.phases[w].me].execution
    ensures SameElsewhere(s, t, e)
  {
    hide Inv;
  }

  lemma CommitElsewhere(s: State, t: State, w: nat, e: Id)
    requires Inv(s) && Commits(s, t, w) && e != s.attempts[s.phases[w].me].execution
    ensures SameElsewhere(s, t, e)
  {
    hide Inv;
  }

  lemma QuietElsewhere(s: State, t: State, w: nat, e: Id)
    requires JobStep(s, t, w) && !Inserted(s, t, w) && !Commits(s, t, w)
    requires Inserts(s, t, w) ==> s.phases[w].next < |s.attempts[s.phases[w].me].events|
    ensures SameElsewhere(s, t, e)
  {
    hide Genuine;
  }

  /** A job writes an execution only while it is open and nobody else holds it. */
  lemma JobWrites(s: State, t: State, w: nat, e: Id)
    requires Inv(s) && JobStep(s, t, w)
    ensures SameElsewhere(s, t, e)
         || (&& w < |s.phases| && Mine(s.phases[w]).Some? && Mine(s.phases[w]).value < |s.attempts|
             && s.attempts[Mine(s.phases[w]).value].execution == e && RowIs(s, Mine(s.phases[w]).value, Open)
             && (e in s.holds ==> s.holds[e].me == Mine(s.phases[w]).value))
  {
    hide Genuine, Inv, SameElsewhere;
    if Inserted(s, t, w) {
      InsertFinds(s, w);
      if e != s.attempts[s.phases[w].me].execution {
        InsertElsewhere(s, t, w, e);
      }
    } else if Commits(s, t, w) {
      CommitFinds(s, t, w);
      if e != s.attempts[s.phases[w].me].execution {
        CommitElsewhere(s, t, w, e);
      }
    } else {
      QuietElsewhere(s, t, w, e);
    }
  }

  lemma StepWrites(s: State, t: State, e: Id)
    requires Inv(s) && Next(s, t) && e in s.rows
    ensures SameElsewhere(s, t, e) || exists w :: WritesAt(s, w, e)
  {
    hide Genuine, Inv, JobStep;
    if w :| JobStep(s, t, w) {
      JobWrites(s, t, w, e);
      assert SameElsewhere(s, t, e) || WritesAt(s, w, e);
    }
  }

  /** Worker w carries out an attempt at the open execution e that nobody else holds. */
  ghost predicate WritesAt(s: State, w: nat, e: Id) {
    && w < |s.phases| && Mine(s.phases[w]).Some? && Mine(s.phases[w]).value < |s.attempts|
    && s.attempts[Mine(s.phases[w]).value].execution == e && RowIs(s, Mine(s.phases[w]).value, Open)
    && (e in s.holds ==> s.holds[e].me == Mine(s.phases[w]).value)
  }

  lemma {:induction false} FinalLasts(s: State, more: seq<State>, i: nat, e: Id)
    requires Inv(s) && Continues(s, more) && i < |more| && e in s.rows && s.rows[e].Final?
    ensures Inv(more[i]) && SameElsewhere(s, more[i], e)
  {
    hide Inv, Next, WritesAt;
    if i > 0 {
      FinalLasts(s, more, i - 1, e);
      StepKeeps(more[i - 1], more[i]);
      StepWrites(more[i - 1], more[i], e);
      OnlyOpenIsWritten(more[i - 1], e);
    }
  }

  lemma OnlyOpenIsWritten(s: State, e: Id)
    requires e in s.rows && s.rows[e].Final?
    ensures forall w :: !WritesAt(s, w, e)
  {
  }

  /** Main result: what is final stays. Once an execution is final, its row and its stored
      trace are the same in every later state. */
  lemma FinalIsForever(run: seq<State>, i: nat, j: nat, e: Id)
    requires IsRun(run) && i <= j < |run| && e in run[i].rows && run[i].rows[e].Final?
    ensures SameElsewhere(run[i], run[j], e)
  {
    RunKeeps(run, i);
    hide Inv, Next, SameElsewhere;
    assert run[i..][j - i] == run[j];
    FinalLasts(run[i], run[i..], j - i, e);
  }

  // ---------------------------------------------------------------- who can still finish

  /** An attempt holds e, and no worker carries that attempt out any more. */
  ghost predicate GivenUp(s: State, e: Id) {
    && e in s.holds && s.holds[e].me < |s.attempts| && e in s.rows
    && forall w | 0 <= w < |s.phases| :: Mine(s.phases[w]) != Some(s.holds[e].me)
  }

  lemma StepKeepsGivenUp(s: State, t: State, e: Id)
    requires Inv(s) && Next(s, t) && GivenUp(s, e)
    ensures GivenUp(t, e) && SameElsewhere(s, t, e)
  {
    StepWrites(s, t, e);
    assert SameElsewhere(s, t, e) by {
      hide SameElsewhere;
    }
    NoneTakesOver(s, t, s.holds[e].me);
  }

  lemma MineAfterStart(s: State, t: State, w: nat, a: Attempt)
    requires Starts(s, t, w, a)
    ensures w < |s.phases| && t.phases == s.phases[w := t.phases[w]]
    ensures Mine(t.phases[w]) == Some(|s.attempts|) && t.attempts == s.attempts + [a]
    ensures !s.phases[w].Away? && !t.phases[w].Away?
  {
    hide Genuine;
  }

  /** A worker that has started goes on with its attempt or drops it. */
  lemma MineGoingOn(s: State, t: State, w: nat)
    requires Checks(s, t, w) || Inserts(s, t, w) || Reads(s, t, w) || Commits(s, t, w) || Confirms(s, t, w)
          || Judges(s, t, w) || Fails(s, t, w)
    ensures w < |s.phases| && t.phases == s.phases[w := t.phases[w]] && t.attempts == s.attempts
    ensures !s.phases[w].Away? && !t.phases[w].Away?
    ensures Mine(t.phases[w]).None? || Mine(t.phases[w]) == Mine(s.phases[w])
  {
    hide RedactEvent, KeyOf;
  }

  /** No worker ever takes up an attempt that another one started. */
  lemma NoneTakesOver(s: State, t: State, n: nat)
    requires Next(s, t) && n < |s.attempts|
    requires forall w | 0 <= w < |s.phases| :: Mine(s.phases[w]) != Some(n)
    ensures forall w | 0 <= w < |t.phases| :: Mine(t.phases[w]) != Some(n)
  {
    hide Genuine, JobStep;
    if w :| JobStep(s, t, w) {
      JobTakesOver(s, t, w, n);
    }
  }

  lemma JobTakesOver(s: State, t: State, w: nat, n: nat)
    requires JobStep(s, t, w) && n < |s.attempts|
    requires forall v | 0 <= v < |s.phases| :: Mine(s.phases[v]) != Some(n)
    ensures forall v | 0 <= v < |t.phases| :: Mine(t.phases[v]) != Some(n)
  {
    hide Starts, Checks, Inserts, Reads, Commits, Confirms, Judges, Fails;
    if a :| Starts(s, t, w, a) {
      MineAfterStart(s, t, w, a);
    } else {
      MineGoingOn(s, t, w);
    }
  }

  /** Once the attempt that holds an execution is given up, nothing about the execution
      changes any more. */
  lemma {:induction false} GivenUpLasts(s: State, more: seq<State>, i: nat, e: Id)
    requires Inv(s) && Continues(s, more) && i < |more| && GivenUp(s, e)
    ensures Inv(more[i]) && GivenUp(more[i], e) && SameElsewhere(s, more[i], e)
  {
    hide Inv, Next, GivenUp;
    if i > 0 {
      GivenUpLasts(s, more, i - 1, e);
      StepKeeps(more[i - 1], more[i]);
      StepKeepsGivenUp(more[i - 1], more[i], e);
    }
  }

  /** Worker w carries out the attempt that holds the open execution e. */
  ghost predicate AtWork(s: State, w: nat, e: Id) {
    && w < |s.phases| && e in s.rows && s.rows[e].Open? && e in s.holds
    && Mine(s.phases[w]) == Some(s.holds[e].me)
    && s.holds[e].me < |s.attempts| && s.attempts[s.holds[e].me].execution == e
  }

  /** Steps left until a worker records its result. */
  function StepsLeft(s: State, w: nat): nat
    requires w < |s.phases| && Mine(s.phases[w]).Some? && Mine(s.phases[w]).value < |s.attempts|
  {
    var len := |s.attempts[Mine(s.phases[w]).value].events|;
    match s.phases[w]
    case Appending(_, n) => if n <= len then 2 * (len - n) + 2 else 0
    case Inserting(_, n) => if n <= len then 2 * (len - n) + 1 else 0
    case Recording(_) => 2
    case Committing(_) => 1
    case _ => 0
  }

  /** A worker that holds its execution can take a step that brings it nearer its end. */
  lemma Advance(s: State, w: nat, e: Id) returns (t: State)
    requires Inv(s) && AtWork(s, w, e)
    ensures JobStep(s, t, w)
    ensures (e in t.rows && t.rows[e].Final?) || (AtWork(t, w, e) && StepsLeft(t, w) < StepsLeft(s, w))
  {
    PositionedAt(s, w);
    var me := s.holds[e].me;
    hide Genuine, Inv, RedactEvent;
    match s.phases[w] {
      case Appending(_, n) =>
        t := To(s, w, Inserting(me, n));
        assert Checks(s, t, w);
      case Inserting(_, n) =>
        t := AdvanceInsert(s, w, e);
      case Recording(_) =>
        t := To(s, w, Committing(me));
        assert Reads(s, t, w);
      case Committing(_) =>
        var a := s.attempts[me];
        t := To(s, w, Confirming(me)).(rows := s.rows[a.execution := Final(a.result)],
                                       commits := s.commits + [a.execution]);
        assert Commits(s, t, w);
    }
  }

  lemma AdvanceInsert(s: State, w: nat, e: Id) returns (t: State)
    requires Inv(s) && AtWork(s, w, e) && s.phases[w].Inserting?
    ensures JobStep(s, t, w) && AtWork(t, w, e) && StepsLeft(t, w) < StepsLeft(s, w)
  {
    PositionedAt(s, w);
    hide Genuine, Separate, AllPositioned, Finalized, Sound, RedactEvent;
    var me, n := s.phases[w].me, s.phases[w].next;
    var a := s.attempts[me];
    t := To(s, w, Following(a, me, n)).(table := s.table[KeyOf(a, n) := RedactEvent(a.events[n])],
                                        holds := s.holds[a.execution := Hold(me, n + 1)]);
    assert KeyOf(a, n) !in s.table;
    assert Inserts(s, t, w);
  }

  /** ... and, going on alone, reaches it. */
  lemma Finish(s: State, w: nat, e: Id) returns (more: seq<State>)
    requires Inv(s) && AtWork(s, w, e)
    ensures Continues(s, more)
    ensures e in more[|more| - 1].rows && more[|more| - 1].rows[e].Final?
    decreases StepsLeft(s, w)
  {
    hide Inv, JobStep, Creates, Spawns, Takes, Leaves, StepsLeft;
    var t := Advance(s, w, e);
    assert Next(s, t);
    if e in t.rows && t.rows[e].Final? {
      more := [s, t];
    } else {
      StepKeeps(s, t);
      var rest := Finish(t, w, e);
      more := [s] + rest;
    }
  }

  /** Main result: an execution with stored events and no result yet can still be finalized
      exactly when some worker is still carrying out the attempt that stored them. Once that
      worker has failed or crashed, no retry, no other worker and no further job ever
      finalizes the execution. */
  lemma FinalizableIffAtWork(run: seq<State>, i: nat, e: Id)
    requires IsRun(run) && i < |run| && e in run[i].holds && e in run[i].rows && run[i].rows[e].Open?
    ensures (exists more :: Continues(run[i], more) && Last(more, e).Final?)
        <==> exists w | 0 <= w < |run[i].phases| :: Mine(run[i].phases[w]) == Some(run[i].holds[e].me)
  {
    RunKeeps(run, i);
    var s := run[i];
    assert HoldFits(s, e);
    hide Inv, Next;
    if w :| 0 <= w < |s.phases| && Mine(s.phases[w]) == Some(s.holds[e].me) {
      var more := Finish(s, w, e);
      assert Last(more, e).Final?;
    } else {
      forall more | Continues(s, more) ensures !Last(more, e).Final? {
        GivenUpLasts(s, more, |more| - 1, e);
      }
    }
  }

  // ---------------------------------------------------------------- what finalizing takes

  /** Worker w has written the result of its attempt at e and is yet to hear so. */
  ghost predicate ConfirmsAt(s: State, w: nat, e: Id) {
    && w < |s.phases| && s.phases[w].Confirming? && s.phases[w].me < |s.attempts|
    && s.attempts[s.phases[w].me].execution == e
  }

  /** Worker w has recorded the result of its attempt at e, and its judges are at work. */
  ghost predicate JudgesAt(s: State, w: nat, e: Id) {
    && w < |s.phases| && s.phases[w].Judging? && s.phases[w].me < |s.attempts|
    && s.attempts[s.phases[w].me].execution == e
  }

  predicate IsFinal(s: State, e: Id) {
    e in s.rows && s.rows[e].Final?
  }

  lemma WrittenIsFinal(s: State, w: nat, e: Id)
    requires Inv(s) && (ConfirmsAt(s, w, e) || JudgesAt(s, w, e))
    ensures IsFinal(s, e)
    ensures JudgesAt(s, w, e) ==> s.attempts[s.phases[w].me].judged
  {
    PositionedAt(s, w);
    hide Separate, AllPositioned, Stored, Finalized, Sound;
  }

  /** An execution becomes final in no other way than by a worker recording its result. */
  lemma BecomesFinal(s: State, t: State, e: Id)
    requires Next(s, t) && !IsFinal(s, e) && IsFinal(t, e)
    ensures exists w: nat :: Commits(s, t, w) && ConfirmsAt(t, w, e)
  {
    hide Genuine, RedactEvent;
    if w: nat :| JobStep(s, t, w) {
      assert Commits(s, t, w) by {
        hide Commits, Following;
      }
      assert ConfirmsAt(t, w, e);
    }
  }

  ghost predicate WrittenBy(run: seq<State>, i: nat, e: Id)
    requires i < |run|
  {
    exists j: nat, w: nat :: j <= i && ConfirmsAt(run[j], w, e)
  }

  /** An execution is final exactly when, by then, some worker has written a result for it. */
  lemma {:induction false} FinalIffWritten(run: seq<State>, i: nat, e: Id)
    requires IsRun(run) && i < |run|
    ensures IsFinal(run[i], e) <==> WrittenBy(run, i, e)
  {
    hide Inv, Next, SameElsewhere;
    if j: nat, w: nat :| j <= i && ConfirmsAt(run[j], w, e) {
      RunKeeps(run, j);
      WrittenIsFinal(run[j], w, e);
      FinalStays(run, j, i, e);
    }
    if IsFinal(run[i], e) && i > 0 {
      if IsFinal(run[i - 1], e) {
        FinalIffWritten(run, i - 1, e);
      } else {
        BecomesFinal(run[i - 1], run[i], e);
      }
    }
  }

  lemma FinalStays(run: seq<State>, i: nat, j: nat, e: Id)
    requires IsRun(run) && i <= j < |run| && IsFinal(run[i], e)
    ensures IsFinal(run[j], e)
  {
    FinalIsForever(run, i, j, e);
    hide Next;
  }

  /** The row of e at the end. */
  function Last(more: seq<State>, e: Id): Row {
    if |more| > 0 && e in more[|more| - 1].rows then more[|more| - 1].rows[e] else Open
  }

  // ---------------------------------------------------------------- reading a final trace back

  lemma SuccessIsFinal(s: State, w: nat)
    requires Inv(s) && w < |s.phases| && s.phases[w].Succeeded?
    ensures s.phases[w].me < |s.attempts|
    ensures FinalizedBy(s, s.attempts[s.phases[w].me].execution, s.phases[w].me)
  {
    PositionedAt(s, w);
    hide Positioned, AllPositioned, Separate, Stored, Sound, Finalized, StoredAre;
    var me := s.phases[w].me;
    var e := s.attempts[me].execution;
    FinalHasOwner(s, e);
  }

  /** The stored trace of a finalized execution reads back as the redacted trace of the run
      whose result is recorded. */
  lemma {:induction false} FinalReadsBack(s: State, e: Id, n: nat)
    requires FinalizedBy(s, e, n) && Genuine(s.attempts[n])
    ensures var steps := Run(s.attempts[n].cfg).at.steps;
      StoredAre(s, e, RedactEvents(ToStorage(steps)))
      && ReadsBack(RedactEvents(ToStorage(steps)), Steps(RedactSteps(steps)))
  {
    var steps := Run(s.attempts[n].cfg).at.steps;
    RunProperties.TraceGrammar(s.attempts[n].cfg);
    hide Run, RedactEvents, ToStorage, ReadsBack, StoredAre;
    RoundTrip(steps, Identity(|steps|));
  }

  function Identity(n: nat): (order: seq<nat>)
    ensures IsOrder(order, n)
  {
    seq(n, i requires 0 <= i < n => i)
  }
}
