/** backend/app/execution_scoring.py: the recorded result of a completed run. */
module Scoring {
  import opened Json
  import opened Schema
  import opened Services
  import opened Contracts
  import opened TraceModel
  import opened Runner
  import opened RunProperties
  import opened Store

  const NO_FINAL_ANSWER := "(agent did not produce a final answer)"

  /** `result.final_output or _NO_FINAL_ANSWER`: an empty answer counts as none. */
  function Shown(output: Option<string>): string {
    if output.Some? && output.value != "" then output.value else NO_FINAL_ANSWER
  }

  /** The verdict of the contract on what a run did. */
  predicate RunPasses(task: Task, end: End) {
    Passes(task, ExtractCalls(end.at.steps), Snapshot(end.at.world))
  }

  /** The contract is met exactly when there is no evidence against it. */
  lemma PassesIffNoEvidence(task: Task, calls: seq<ToolCall>, finalState: Json)
    ensures Passes(task, calls, finalState)
        <==> Unmet(task.expected, calls) == [] && SeenOf(task.forbidden, calls) == []
             && Mismatches(Obj(task.expectedFinal), finalState) == {}
  {
    EvidenceDecides(task, calls);
    ContainsIffNothingFails(Obj(task.expectedFinal), finalState);
    forall m { MismatchesFail(Obj(task.expectedFinal), finalState, m); }
  }

  /** `score_execution`. */
  function ScoreExecution(task: Task, end: End): (r: Result)
    requires end.Completed?
    ensures Consistent(r)
    ensures r.status == ERRORED <==> end.exceeded
    ensures r.passed <==> r.status == PASSED
    ensures r.passed <==> !end.exceeded && r.missing == [] && r.forbiddenSeen == [] && r.mismatches == {}
    ensures r.finalOutput != ""
  {
    var calls := ExtractCalls(end.at.steps);
    var passes := RunPasses(task, end);
    PassesIffNoEvidence(task, calls, Snapshot(end.at.world));
    var status := if end.exceeded then ERRORED else if passes then PASSED else FAILED;
    Result(status, !end.exceeded && passes, Shown(end.finalOutput), end.at.inputTokens, end.at.outputTokens,
           Unmet(task.expected, calls), SeenOf(task.forbidden, calls),
           Mismatches(Obj(task.expectedFinal), Snapshot(end.at.world)))
  }

  /** The answer a trace ends with, if any. */
  function AnswerOf(steps: seq<TraceStep>): Option<string> {
    if |steps| > 0 && steps[|steps| - 1].payload.FinalAnswer? then Some(steps[|steps| - 1].payload.content) else None
  }

  /** The final state is scored as one object with the five collections, by their names. */
  lemma SnapshotShows(w: World)
    ensures Snapshot(w).Obj?
    ensures Snapshot(w).fields.Keys == {"customers", "orders", "refunds", "replacements", "tickets"}
    ensures forall c | c in Snapshot(w).fields :: Snapshot(w).fields[c].Obj?
    ensures forall c, id | c in Snapshot(w).fields ::
      var t := if c == "customers" then w.customers else if c == "orders" then w.orders
               else if c == "refunds" then w.refunds else if c == "replacements" then w.replacements else w.tickets;
      && (id in t <==> id in Snapshot(w).fields[c].fields)
      && (id in t ==> Snapshot(w).fields[c].fields[id] == Obj(t[id]))
  {
  }

  /** The evidence in a result is exact: each list and the set of mismatches hold what the
      contract finds wrong with these calls and this state, and nothing else. */
  ghost predicate EvidenceIsExact(r: Result, task: Task, calls: seq<ToolCall>, finalState: Json) {
    && (forall e :: e in r.missing <==> e in task.expected && !Met(e, calls))
    && (forall f :: f in r.forbiddenSeen <==> f in task.forbidden && Seen(f, calls))
    && (forall m :: m in r.mismatches <==> Fails(Obj(task.expectedFinal), finalState, m))
  }

  lemma ScoreIsExact(task: Task, end: End)
    requires end.Completed?
    ensures EvidenceIsExact(ScoreExecution(task, end), task, ExtractCalls(end.at.steps), Snapshot(end.at.world))
  {
    hide Unmet, SeenOf, Mismatches, Fails, Met, Seen, Snapshot, Passes;
    forall e { UnmetMembers(task.expected, ExtractCalls(end.at.steps), e); }
    forall f { SeenMembers(task.forbidden, ExtractCalls(end.at.steps), f); }
    forall m { MismatchesFail(Obj(task.expectedFinal), Snapshot(end.at.world), m); }
  }

  /** Main result: a recorded result can be audited from the trace of its run alone. It
      is `passed` exactly when the run ended with an answer and the contract accepts the
      recorded calls together with the state that replaying them gives; its output is the
      answer the trace ends with; its evidence and token totals are those of the trace. */
  lemma ResultIsAuditable(task: Task, cfg: Config)
    requires Run(cfg).Completed? && cfg.initial == task.initial
    ensures var end := Run(cfg);
      var steps, r := end.at.steps, ScoreExecution(task, end);
      var calls := ExtractCalls(steps);
      var replayed := Snapshot(After(task.initial, calls));
      && (r.status == PASSED <==> !end.exceeded && Passes(task, calls, replayed))
      && (r.status == ERRORED <==> |steps| > 0 && steps[|steps| - 1].payload == StepsExceeded(cfg))
      && (AnswerOf(steps).Some? && AnswerOf(steps).value != "" ==> r.finalOutput == AnswerOf(steps).value)
      && (AnswerOf(steps).None? || AnswerOf(steps).value == "" ==>
            r.finalOutput == "(agent did not produce a final answer)")
      && EvidenceIsExact(r, task, calls, replayed)
      && r.inputTokens == InputTokens(steps) && r.outputTokens == OutputTokens(steps)
  {
    hide Passes, EvidenceIsExact, ExtractCalls, After, Loop, StepsExceeded, InputTokens, OutputTokens, Replays;
    ReplayComplete(cfg);
    LastStepTells(cfg, Start(cfg), cfg.maxSteps);
    ScoreIsExact(task, Run(cfg));
  }

  /** The last step of a trace tells whether the step limit was hit. */
  lemma {:induction false} LastStepTells(cfg: Config, at: Locals, left: nat)
    ensures var end := Loop(cfg, at, left);
      end.Completed? ==>
        |end.at.steps| > 0
        && (end.exceeded <==> end.at.steps[|end.at.steps| - 1].payload == StepsExceeded(cfg))
        && end.finalOutput == AnswerOf(end.at.steps)
    decreases left
  {
    hide AskFrom, InvokeAll, Answered;
    if left > 0 {
      var turn := TakeTurn(cfg, at);
      if turn.Go? {
        LastStepTells(cfg, turn.next, left - 1);
      }
    }
  }
}
