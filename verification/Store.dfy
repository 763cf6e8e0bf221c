/** backend/app/store.py: the in-memory platform store. */
module Store {
  import opened Json
  import opened Schema
  import opened TraceModel
  import Agreement
  import Contracts

  datatype Status = PENDING | RUNNING | PASSED | FAILED | ERRORED

  predicate Terminal(s: Status) {
    s == PASSED || s == FAILED || s == ERRORED
  }

  /** TaskExecutionResult, without clock and cost; its validator is `Consistent`. */
  datatype Result = Result(
    status: Status, passed: bool, finalOutput: string, inputTokens: nat, outputTokens: nat,
    missing: seq<ExpectedAction>, forbiddenSeen: seq<ForbiddenAction>, mismatches: set<Contracts.Mismatch>)

  predicate Consistent(r: Result) {
    && r.status in {PASSED, FAILED, ERRORED} && (r.status == PASSED ==> r.passed) && (r.status == FAILED ==> !r.passed)
    && r.finalOutput != ""
  }

  datatype Execution = Execution(runId: Id, taskId: string, status: Status, result: Option<Result>)

  /** What the content hash of an agent version is computed from. The hash is taken to be
      injective, so contents stand for their hashes. */
  datatype Content = Content(model: string, systemPrompt: string, toolSchemaHash: string, config: Dict)

  datatype AgentVersion = AgentVersion(name: string, gitSha: string, content: Content)

  datatype Answer = Done | NotFound | Conflict

  /** A judge's verdict on an execution, and the bounds its schema sets. */
  datatype JudgeVerdict = JudgeVerdict(
    judgeName: string, rubricVersion: string, verdict: Agreement.Label, confidence: real, rationale: string)

  predicate IsVerdict(v: JudgeVerdict) {
    1 <= |v.judgeName| <= 120 && 1 <= |v.rubricVersion| <= 40 && 0.0 <= v.confidence <= 1.0 && v.rationale != ""
  }

  ghost predicate StrictlyAscending(events: seq<Event>) {
    forall i, j | 0 <= i < j < |events| :: events[i].sequenceNo < events[j].sequenceNo
  }

  predicate Holds(events: seq<Event>, sequenceNo: nat) {
    exists i | 0 <= i < |events| :: events[i].sequenceNo == sequenceNo
  }

  /** What one accepted append makes of the event list of an execution. */
  function Appended(events: seq<Event>, e: Event): seq<Event> {
    Sorted(events + [RedactEvent(e)])
  }

  /** Appending keeps the list strictly ascending and adds exactly the redacted event. */
  lemma AppendedKeeps(events: seq<Event>, e: Event)
    requires StrictlyAscending(events) && !Holds(events, e.sequenceNo)
    ensures StrictlyAscending(Appended(events, e))
    ensures multiset(Appended(events, e)) == multiset(events) + multiset{RedactEvent(e)}
  {
    var all := events + [RedactEvent(e)];
    assert all[..|all| - 1] == events;
    SortedOfAscending(events);
    InsertStrictly(events, RedactEvent(e));
    InsertAdds(events, RedactEvent(e));
  }

  lemma {:induction false} InsertStrictly(events: seq<Event>, e: Event)
    requires StrictlyAscending(events) && !Holds(events, e.sequenceNo)
    ensures StrictlyAscending(Insert(events, e))
  {
    if events == [] {
    } else if events[|events| - 1].sequenceNo > e.sequenceNo {
      var front := events[..|events| - 1];
      InsertStrictly(front, e);
      InsertAdds(front, e);
    } else {
      assert events[|events| - 1].sequenceNo != e.sequenceNo;
    }
  }

  class PlatformStore {
    var agentVersions: map<Id, AgentVersion>
    var runs: map<Id, Id>
    var executions: map<Id, Execution>
    var eventsByExecution: map<Id, seq<Event>>
    var verdictsByExecution: map<Id, seq<JudgeVerdict>>

    /** No two versions share a content, and every event list is strictly ascending. */
    ghost predicate Valid()
      reads this
    {
      && (forall i, j | i in agentVersions && j in agentVersions ::
            agentVersions[i].content == agentVersions[j].content ==> i == j)
      && (forall r | r in runs :: runs[r] in agentVersions)
      && (forall e | e in executions :: executions[e].runId in runs)
      && (forall e | e in eventsByExecution :: e in executions && StrictlyAscending(eventsByExecution[e]))
      && (forall e | e in verdictsByExecution :: e in executions)
      && (forall e | e in executions :: Terminal(executions[e].status) <==> executions[e].result.Some?)
    }

    function Events(execution: Id): seq<Event>
      reads this`eventsByExecution
    {
      if execution in eventsByExecution then eventsByExecution[execution] else []
    }

    function Verdicts(execution: Id): seq<JudgeVerdict>
      reads this`verdictsByExecution
    {
      if execution in verdictsByExecution then verdictsByExecution[execution] else []
    }

    constructor ()
      ensures Valid() && agentVersions == map[] && runs == map[] && executions == map[]
      ensures eventsByExecution == map[] && verdictsByExecution == map[]
    {
      agentVersions, runs, executions, eventsByExecution := map[], map[], map[], map[];
      verdictsByExecution := map[];
    }

    /** Creation is idempotent on content: an equal content returns the version that has
        it, under its first name, and only a new content adds a version. */
    method CreateAgentVersion(payload: AgentVersion, fresh_: Id) returns (id: Id)
      requires Valid() && fresh_ !in agentVersions
      modifies this`agentVersions
      ensures Valid()
      ensures id in agentVersions && agentVersions[id].content == payload.content
      ensures agentVersions == old(agentVersions)
           || (agentVersions == old(agentVersions)[fresh_ := payload] && id == fresh_)
      ensures (exists i | i in old(agentVersions) :: old(agentVersions)[i].content == payload.content)
          <==> agentVersions == old(agentVersions)
    {
      var unseen := agentVersions.Keys;
      while unseen != {}
        invariant unseen <= agentVersions.Keys
        invariant forall i | i in agentVersions && i !in unseen :: agentVersions[i].content != payload.content
      {
        var existing :| existing in unseen;
        if agentVersions[existing].content == payload.content {
          return existing;
        }
        unseen := unseen - {existing};
      }
      agentVersions := agentVersions[fresh_ := payload];
      assert fresh_ in agentVersions && fresh_ !in old(agentVersions);
      return fresh_;
    }

    method CreateRun(version: Id, fresh_: Id) returns (answer: Answer)
      requires Valid() && fresh_ !in runs
      modifies this`runs
      ensures Valid()
      ensures answer == if version in agentVersions then Done else NotFound
      ensures runs == if answer.Done? then old(runs)[fresh_ := version] else old(runs)
    {
      if version !in agentVersions {
        return NotFound;
      }
      runs := runs[fresh_ := version];
      return Done;
    }

    method CreateExecution(run: Id, taskId: string, fresh_: Id) returns (answer: Answer)
      requires Valid() && fresh_ !in executions
      modifies this`executions
      ensures Valid()
      ensures answer == if run in runs then Done else NotFound
      ensures executions == if answer.Done? then old(executions)[fresh_ := Execution(run, taskId, PENDING, None)]
                            else old(executions)
    {
      if run !in runs {
        return NotFound;
      }
      executions := executions[fresh_ := Execution(run, taskId, PENDING, None)];
      return Done;
    }

    /** Finalization is one-way: a terminal execution is never changed again. */
    method RecordResult(execution: Id, payload: Result) returns (answer: Answer)
      requires Valid() && Consistent(payload)
      modifies this`executions
      ensures Valid()
      ensures answer == if execution !in old(executions) then NotFound
                        else if old(executions)[execution].status in {PASSED, FAILED, ERRORED} then Conflict else Done
      ensures executions == if answer.Done?
        then old(executions)[execution :=
               old(executions)[execution].(status := payload.status, result := Some(payload))]
        else old(executions)
    {
      if execution !in executions {
        return NotFound;
      }
      if Terminal(executions[execution].status) {
        return Conflict;
      }
      executions := executions[execution := executions[execution].(status := payload.status, result := Some(payload))];
      return Done;
    }

    method AppendTraceEvent(execution: Id, payload: Event) returns (answer: Answer)
      requires Valid()
      modifies this`eventsByExecution
      ensures Valid()
      ensures answer == if execution !in executions then NotFound
                        else if Holds(old(Events(execution)), payload.sequenceNo) then Conflict else Done
      ensures Events(execution) == if answer.Done? then Appended(old(Events(execution)), payload)
                                   else old(Events(execution))
      ensures forall e | e != execution :: Events(e) == old(Events(e))
    {
      hide Sorted, RedactEvent, StrictlyAscending;
      if execution !in executions {
        return NotFound;
      }
      var events := Events(execution);
      if Holds(events, payload.sequenceNo) {
        return Conflict;
      }
      AppendedKeeps(events, payload);
      eventsByExecution := eventsByExecution[execution := Sorted(events + [RedactEvent(payload)])];
      return Done;
    }

    method AppendJudgeVerdict(execution: Id, verdict: JudgeVerdict) returns (answer: Answer)
      requires Valid() && IsVerdict(verdict)
      modifies this`verdictsByExecution
      ensures Valid()
      ensures answer == if execution in executions then Done else NotFound
      ensures Verdicts(execution) == old(Verdicts(execution)) + if answer.Done? then [verdict] else []
      ensures forall e | e != execution :: Verdicts(e) == old(Verdicts(e))
    {
      hide StrictlyAscending;
      if execution !in executions {
        return NotFound;
      }
      verdictsByExecution := verdictsByExecution[execution := Verdicts(execution) + [verdict]];
      return Done;
    }
  }
}
