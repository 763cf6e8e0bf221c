/** runner/reference_agent.py: the reference agent, and what its runs are worth. */
module Oracle {
  import opened Json
  import opened Schema
  import opened Services
  import opened TraceModel
  import opened Runner
  import RunProperties
  import opened Contracts

  /** What the reference agent does on its k-th model call. */
  function ReplyTo(actions: seq<ExpectedAction>, k: nat): ModelReply {
    if k < |actions| then
      ModelReply("tool_calls", None,
                 [ToolCallRequest("c" + Decimal(k + 1), actions[k].service, actions[k].operation,
                                  actions[k].arguments)],
                 0, 0)
    else ModelReply("stop", Some("Resolved according to policy."), [], 0, 0)
  }

  class ReferenceAgent {
    const actions: seq<ExpectedAction>
    var step: nat

    constructor (task: Task)
      ensures actions == task.expected && step == 0
    {
      actions, step := task.expected, 0;
    }

    /** Walks the expected actions in order, then answers, and keeps answering. */
    method Complete() returns (reply: ModelReply)
      requires step <= |actions|
      modifies this
      ensures reply == ReplyTo(actions, old(step))
      ensures step == if old(step) < |actions| then old(step) + 1 else old(step)
    {
      if step < |actions| {
        var action := actions[step];
        step := step + 1;
        return ModelReply("tool_calls", None,
                          [ToolCallRequest("c" + Decimal(step), action.service, action.operation, action.arguments)],
                          0, 0);
      }
      return ModelReply("stop", Some("Resolved according to policy."), [], 0, 0);
    }
  }

  /** The k-th reply asks for the k-th action, under the call ids c1, c2, ..., and once there
      is none left it answers; it never reports tokens. */
  lemma RepliesInOrder(actions: seq<ExpectedAction>, k: nat)
    ensures var r := ReplyTo(actions, k);
      && r.inputTokens == 0 && r.outputTokens == 0
      && if k < |actions| then
           && r.finishReason == "tool_calls" && r.content.None? && |r.toolCalls| == 1
           && (exists s: string :: IsNumeral(s, k + 1) && r.toolCalls[0].callId == "c" + s)
           && r.toolCalls[0].service == actions[k].service && r.toolCalls[0].operation == actions[k].operation
           && r.toolCalls[0].arguments == actions[k].arguments
         else r.finishReason == "stop" && r.toolCalls == [] && r.content == Some("Resolved according to policy.")
  {
    DecimalIsNumeral(k + 1);
    hide IsNumeral, Decimal;
    if k < |actions| {
      assert ReplyTo(actions, k).toolCalls[0].callId == "c" + Decimal(k + 1);
    }
  }

  /** The run is driven by the reference agent for these actions. */
  ghost predicate Driven(cfg: Config, actions: seq<ExpectedAction>) {
    forall k: nat :: cfg.client(k) == Reply(ReplyTo(actions, k))
  }

  function ActionCall(a: ExpectedAction): ToolCall {
    ToolCall(a.service, a.operation, a.arguments)
  }

  function ActionCalls(actions: seq<ExpectedAction>): seq<ToolCall> {
    seq(|actions|, i requires 0 <= i < |actions| => ActionCall(actions[i]))
  }

  /** While expected actions remain, a turn makes the next one and nothing else. */
  lemma DrivenTurn(cfg: Config, actions: seq<ExpectedAction>, at: Locals)
    requires Driven(cfg, actions) && at.asked < |actions|
    ensures var turn, effect := TakeTurn(cfg, at), Step(at.world, ActionCall(actions[at.asked]));
      if effect.outcome.Escaped? then turn.Stop? && turn.end.Raised?
      else && turn.Go? && turn.next.asked == at.asked + 1 && turn.next.world == effect.world
           && ExtractCalls(turn.next.steps) == ExtractCalls(at.steps) + [ActionCall(actions[at.asked])]
           && |turn.next.steps| == |at.steps| + 4
  {
    var reply := ReplyTo(actions, at.asked);
    assert cfg.client(at.asked) == Reply(reply);
    var pushed := Push(cfg, at, RequestPayload(cfg, at), None);
    var asked := pushed.(asked := at.asked + 1);
    assert AskFrom(cfg, at) == (asked, Some(reply));
    var answered := Answered(cfg, asked, cfg.ids(|at.steps|), reply);
    RunProperties.SnocReads(at.steps, pushed.steps[|at.steps|]);
    RunProperties.SnocReads(pushed.steps, answered.steps[|pushed.steps|]);
    DrivenInvoke(cfg, Replying(answered, reply), reply.toolCalls[0]);
    assert reply.toolCalls == [reply.toolCalls[0]];
  }

  lemma DrivenInvoke(cfg: Config, at: Locals, c: ToolCallRequest)
    ensures var (next, ok) := InvokeAll(cfg, at, [c]);
      var effect := Step(at.world, CallOf(c));
      && ok == !effect.outcome.Escaped?
      && (ok ==> && next.asked == at.asked && next.world == effect.world
                 && ExtractCalls(next.steps) == ExtractCalls(at.steps) + [CallOf(c)]
                 && |next.steps| == |at.steps| + 2)
  {
    var (next, ok) := Invoke(cfg, at, c);
    assert [c][1..] == [] && InvokeAll(cfg, at, [c]) == (next, ok);
    if ok {
      var call := NextStep(cfg, at.steps, CallPayload(c.callId, c.service, c.operation, c.arguments), None, None);
      RunProperties.SnocReads(at.steps, call);
      RunProperties.SnocReads(at.steps + [call], next.steps[|at.steps| + 1]);
      assert next.steps == at.steps + [call] + [next.steps[|at.steps| + 1]];
    }
  }

  /** Once they are used up, the next turn answers. */
  lemma DrivenAnswer(cfg: Config, actions: seq<ExpectedAction>, at: Locals)
    requires Driven(cfg, actions) && at.asked == |actions|
    ensures var turn := TakeTurn(cfg, at);
      && turn.Stop? && turn.end.Completed? && !turn.end.exceeded
      && ExtractCalls(turn.end.at.steps) == ExtractCalls(at.steps)
      && |turn.end.at.steps| == |at.steps| + 3
  {
    var reply := ReplyTo(actions, at.asked);
    assert cfg.client(at.asked) == Reply(reply);
    var pushed := Push(cfg, at, RequestPayload(cfg, at), None);
    var asked := pushed.(asked := at.asked + 1);
    assert AskFrom(cfg, at) == (asked, Some(reply));
    var answered := Answered(cfg, asked, cfg.ids(|at.steps|), reply);
    RunProperties.SnocReads(at.steps, pushed.steps[|at.steps|]);
    RunProperties.SnocReads(pushed.steps, answered.steps[|pushed.steps|]);
    RunProperties.SnocReads(answered.steps, NextStep(cfg, answered.steps, FinalAnswer(FinalText(reply)), None, None));
  }

  function Min(a: nat, b: nat): nat {
    if a <= b then a else b
  }

  /** The run from `at` makes these calls and then ends, unless one of them escapes. */
  ghost predicate GoesAs(at: Locals, end: End, made: seq<ToolCall>, exceeded: bool) {
    && (end.Completed? <==> Completes(at.world, made))
    && (end.Completed? ==>
          ExtractCalls(end.at.steps) == ExtractCalls(at.steps) + made && end.exceeded == exceeded)
  }

  lemma GoesOneBefore(at: Locals, next: Locals, end: End, call: ToolCall, rest: seq<ToolCall>, exceeded: bool)
    requires !Step(at.world, call).outcome.Escaped? && next.world == Step(at.world, call).world
    requires ExtractCalls(next.steps) == ExtractCalls(at.steps) + [call]
    requires GoesAs(next, end, rest, exceeded)
    ensures GoesAs(at, end, [call] + rest, exceeded)
  {
    assert ([call] + rest)[1..] == rest;
    assert ExtractCalls(at.steps) + [call] + rest == ExtractCalls(at.steps) + ([call] + rest);
  }

  function ToMake(actions: seq<ExpectedAction>, from: nat, left: nat): seq<ToolCall>
    requires from <= |actions|
  {
    ActionCalls(actions[from..from + Min(left, |actions| - from)])
  }

  lemma PushReads(cfg: Config, at: Locals)
    ensures ExtractCalls(Push(cfg, at, StepsExceeded(cfg), None).steps) == ExtractCalls(at.steps)
  {
    RunProperties.SnocReads(at.steps, NextStep(cfg, at.steps, StepsExceeded(cfg), None, None));
  }

  lemma ToMakeNone(actions: seq<ExpectedAction>, from: nat, left: nat)
    requires from <= |actions| && (left == 0 || from == |actions|)
    ensures ToMake(actions, from, left) == []
  {
  }

  lemma ToMakeOne(actions: seq<ExpectedAction>, from: nat, left: nat)
    requires from < |actions| && left > 0
    ensures ToMake(actions, from, left) == [ActionCall(actions[from])] + ToMake(actions, from + 1, left - 1)
  {
  }

  lemma {:induction false} DrivenLoop(cfg: Config, actions: seq<ExpectedAction>, at: Locals, left: nat)
    requires Driven(cfg, actions) && at.asked <= |actions|
    ensures GoesAs(at, Loop(cfg, at, left), ToMake(actions, at.asked, left), left <= |actions| - at.asked)
    decreases left
  {
    hide TakeTurn, Push, ToMake, Step, ReplyTo;
    if left == 0 {
      ToMakeNone(actions, at.asked, left);
      PushReads(cfg, at);
    } else if at.asked == |actions| {
      ToMakeNone(actions, at.asked, left);
      DrivenAnswer(cfg, actions, at);
    } else {
      DrivenTurn(cfg, actions, at);
      var call, rest := ActionCall(actions[at.asked]), ToMake(actions, at.asked + 1, left - 1);
      ToMakeOne(actions, at.asked, left);
      var turn := TakeTurn(cfg, at);
      if turn.Go? {
        DrivenLoop(cfg, actions, turn.next, left - 1);
        GoesOneBefore(at, turn.next, Loop(cfg, at, left), call, rest, left <= |actions| - at.asked);
      }
    }
  }

  /** Main result: the reference agent's run makes exactly the expected calls, as far as
      the step limit allows. It completes exactly when no service blows up on one of them,
      and exceeds the limit exactly when there are at least that many. */
  lemma OracleMakesExpectedCalls(cfg: Config, task: Task)
    requires Driven(cfg, task.expected)
    ensures var end, n := Run(cfg), |task.expected|;
      var made := ActionCalls(task.expected[..Min(cfg.maxSteps, n)]);
      && (end.Completed? <==> Completes(cfg.initial, made))
      && (end.Completed? ==> ExtractCalls(end.at.steps) == made && (end.exceeded <==> n >= cfg.maxSteps))
  {
    DrivenLoop(cfg, task.expected, Start(cfg), cfg.maxSteps);
    assert ToMake(task.expected, 0, cfg.maxSteps)
        == ActionCalls(task.expected[..Min(cfg.maxSteps, |task.expected|)]);
  }

  lemma {:induction false} DrivenLength(cfg: Config, actions: seq<ExpectedAction>, at: Locals, left: nat)
    requires Driven(cfg, actions) && at.asked <= |actions| && Loop(cfg, at, left).Completed?
    ensures var n := |actions| - at.asked;
      |Loop(cfg, at, left).at.steps| == |at.steps| + if n < left then 4 * n + 3 else 4 * left + 1
    decreases left
  {
    hide TakeTurn, Step, ReplyTo, Driven;
    if left > 0 {
      if at.asked == |actions| {
        DrivenAnswer(cfg, actions, at);
      } else {
        DrivenTurn(cfg, actions, at);
        DrivenLength(cfg, actions, TakeTurn(cfg, at).next, left - 1);
      }
    }
  }

  /** The length of the reference agent's trace: four steps for each expected action, and
      three for the answer or one for running out of steps. */
  lemma OracleTraceLength(cfg: Config, task: Task)
    requires Driven(cfg, task.expected) && Run(cfg).Completed?
    ensures var n := |task.expected|;
      |Run(cfg).at.steps| == if n < cfg.maxSteps then 4 * n + 3 else 4 * cfg.maxSteps + 1
  {
    DrivenLength(cfg, task.expected, Start(cfg), cfg.maxSteps);
  }

  lemma {:induction false} DrivenOutput(cfg: Config, actions: seq<ExpectedAction>, at: Locals, left: nat)
    requires Driven(cfg, actions) && at.asked <= |actions|
    ensures var end := Loop(cfg, at, left);
      end.Completed? ==>
        && end.at.inputTokens == at.inputTokens && end.at.outputTokens == at.outputTokens
        && end.finalOutput == if end.exceeded then None else Some("Resolved according to policy.")
    decreases left
  {
    hide TakeTurn, Step, ReplyTo, Driven;
    if left > 0 {
      TurnOutput(cfg, actions, at);
      if at.asked == |actions| {
        DrivenAnswer(cfg, actions, at);
      } else {
        DrivenTurn(cfg, actions, at);
        if TakeTurn(cfg, at).Go? {
          DrivenOutput(cfg, actions, TakeTurn(cfg, at).next, left - 1);
        }
      }
    }
  }

  lemma TurnOutput(cfg: Config, actions: seq<ExpectedAction>, at: Locals)
    requires Driven(cfg, actions)
    ensures match TakeTurn(cfg, at)
      case Go(next) => next.inputTokens == at.inputTokens && next.outputTokens == at.outputTokens
      case Stop(end) => end.Completed? ==>
        && end.at.inputTokens == at.inputTokens && end.at.outputTokens == at.outputTokens
        && end.finalOutput == Some("Resolved according to policy.")
  {
    var reply := ReplyTo(actions, at.asked);
    assert cfg.client(at.asked) == Reply(reply);
    RepliesInOrder(actions, at.asked);
    hide ReplyTo, Step, IsNumeral;
    var asked := Push(cfg, at, RequestPayload(cfg, at), None).(asked := at.asked + 1);
    assert AskFrom(cfg, at) == (asked, Some(reply));
    InvokeAllKeepsTokens(cfg, Replying(Answered(cfg, asked, cfg.ids(|at.steps|), reply), reply), reply.toolCalls);
  }

  lemma {:induction false} InvokeAllKeepsTokens(cfg: Config, at: Locals, calls: seq<ToolCallRequest>)
    ensures var next := InvokeAll(cfg, at, calls).0;
      next.inputTokens == at.inputTokens && next.outputTokens == at.outputTokens
    decreases calls
  {
    hide Step;
    if calls != [] && Invoke(cfg, at, calls[0]).1 {
      InvokeAllKeepsTokens(cfg, Invoke(cfg, at, calls[0]).0, calls[1..]);
    }
  }

  /** The reference run costs no tokens and, unless it runs out of steps, ends with its one
      answer. */
  lemma OracleOutput(cfg: Config, task: Task)
    requires Driven(cfg, task.expected) && Run(cfg).Completed?
    ensures Run(cfg).at.inputTokens == 0 && Run(cfg).at.outputTokens == 0
    ensures Run(cfg).finalOutput == if Run(cfg).exceeded then None else Some("Resolved according to policy.")
  {
    hide Loop;
    DrivenOutput(cfg, task.expected, Start(cfg), cfg.maxSteps);
  }

  /** A task with no more expected actions than steps has none missing after the reference
      run, whether or not the tools accepted the calls. */
  lemma OracleMissesNothing(cfg: Config, task: Task)
    requires Driven(cfg, task.expected) && |task.expected| <= cfg.maxSteps && Run(cfg).Completed?
    ensures Unmet(task.expected, ExtractCalls(Run(cfg).at.steps)) == []
  {
    OracleMakesExpectedCalls(cfg, task);
    var calls := ExtractCalls(Run(cfg).at.steps);
    assert task.expected[..|task.expected|] == task.expected;
    forall e | e in task.expected ensures Met(e, calls) {
      var i :| 0 <= i < |task.expected| && task.expected[i] == e;
      assert calls[i] == ActionCall(e) && Matches(e.service, e.operation, e.arguments, calls[i]);
    }
    EvidenceDecides(task, calls);
  }
}
