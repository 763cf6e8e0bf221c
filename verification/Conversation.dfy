/** What the agent is told and what of its answers is recorded (runner/runner.py), read off
    the trace alone: every request carries the conversation that the steps before it make
    up, every response and retry what the model client did, and a run that raises does so
    for one of three reasons. */
module Conversation {
  import opened Json
  import opened Schema
  import opened Services
  import opened TraceModel
  import opened Runner
  import opened RunProperties
  import Redaction

  // ---------------------------------------------------------------- reading the trace

  /** The conversation after these steps of a run with this prompt and this input. */
  function Said(prompt: string, input: string, steps: seq<TraceStep>): seq<Dict> {
    if steps == [] then
      [map["role" := Str("system"), "content" := Str(prompt)], map["role" := Str("user"), "content" := Str(input)]]
    else
      var before := steps[..|steps| - 1];
      Said(prompt, input, before) + Adds(before, steps[|steps| - 1].payload)
  }

  predicate EndsInCall(steps: seq<TraceStep>) {
    steps != [] && steps[|steps| - 1].payload.CallPayload?
  }

  /** What one step adds: a response with tool calls those calls, and the outcome of a call
      the outcome under the id of the call. */
  function Adds(before: seq<TraceStep>, p: Payload): seq<Dict> {
    match p
    case ModelResponse(_, calls, _, _, _) =>
      if calls == [] then []
      else [map["role" := Str("assistant"),
                "tool_calls" := Arr(seq(|calls|, i requires 0 <= i < |calls| => Obj(calls[i])))]]
    case ResultPayload(callId, result) =>
      [map["role" := Str("tool"), "call_id" := Str(callId),
           "content" := Obj(map["event_type" := Str("tool_result"), "call_id" := Str(callId), "result" := result])]]
    case ErrorPayload(errorType, message) =>
      if EndsInCall(before) then
        [map["role" := Str("tool"), "call_id" := Str(before[|before| - 1].payload.callId),
             "content" := Obj(map["event_type" := Str("error"), "error_type" := Str(errorType),
                                  "message" := Str(message)])]]
      else []
    case _ => []
  }

  /** How often the model was called and answered in these steps. */
  function Asked(steps: seq<TraceStep>): nat {
    if steps == [] then 0
    else
      var p := steps[|steps| - 1].payload;
      Asked(steps[..|steps| - 1]) + if p.ModelResponse? || p.RetryPayload? then 1 else 0
  }

  /** The response records the reply, field by field. */
  ghost predicate Tells(p: Payload, reply: ModelReply) {
    && p.ModelResponse? && p.reply == reply.content && p.finishReason == reply.finishReason
    && p.inputTokens == Some(reply.inputTokens) && p.outputTokens == Some(reply.outputTokens)
    && |p.toolCalls| == |reply.toolCalls|
    && forall i | 0 <= i < |p.toolCalls| ::
         var c := reply.toolCalls[i];
         p.toolCalls[i] == map["call_id" := Str(c.callId), "service" := Str(c.service),
                               "operation" := Str(c.operation), "arguments" := Obj(c.arguments)]
  }

  /** The step is what has to follow these steps. */
  ghost predicate Fits(cfg: Config, before: seq<TraceStep>, step: TraceStep) {
    && step.id == cfg.ids(|before|)
    && step.duration == (if EndsInCall(before) then Some(cfg.clock(|before|)) else None)
    && match step.payload
       case ModelRequest(messages, model, params) =>
         messages == Said(cfg.systemPrompt, cfg.input, before) && model == cfg.model && params == map[]
       case ModelResponse(_, _, _, _, _) =>
         cfg.client(Asked(before)).Reply? && Tells(step.payload, cfg.client(Asked(before)).reply)
       case RetryPayload(_, reason) => cfg.client(Asked(before)) == Transient(reason)
       case ErrorPayload(errorType, message) =>
         if EndsInCall(before) then
           exists error | IsNamed(errorType, error) ::
             message == cfg.describe(CallAt(before[|before| - 1].payload), error)
         else if errorType == "MaxStepsExceeded" then
           message == "exceeded " + Decimal(cfg.maxSteps) + " steps without a final answer"
         else errorType == "ModelError" && cfg.client(Asked(before)) == Transient(message)
       case _ => true
  }

  ghost predicate AllFit(cfg: Config, steps: seq<TraceStep>) {
    forall k | 0 <= k < |steps| :: Fits(cfg, steps[..k], steps[k])
  }

  // ---------------------------------------------------------------- why a run raises

  /** The last steps are a request and this many retries, numbered from 1. */
  ghost predicate RetriedLast(steps: seq<TraceStep>, times: nat) {
    && times < |steps| && steps[|steps| - 1 - times].payload.ModelRequest?
    && forall j | |steps| - times <= j < |steps| ::
         steps[j].payload.RetryPayload? && steps[j].payload.attempt == j - (|steps| - times) + 1
  }

  /** The model client raised something that is not transient. */
  ghost predicate ClientRaised(cfg: Config, at: Locals) {
    at.asked > 0 && at.asked - 1 == Asked(at.steps) && cfg.client(at.asked - 1) == Fatal
  }

  /** The model failed transiently once more after the last retry that is allowed. */
  ghost predicate RetriesUsedUp(cfg: Config, at: Locals) {
    && at.steps != [] && RetriedLast(at.steps[..|at.steps| - 1], cfg.maxRetries)
    && var p := at.steps[|at.steps| - 1].payload;
       p.ErrorPayload? && p.errorType == "ModelError"
       && cfg.client(Asked(at.steps[..|at.steps| - 1])) == Transient(p.message)
  }

  /** The call that was recorded last raises something the tool proxy does not catch. */
  ghost predicate CallEscaped(cfg: Config, at: Locals) {
    EndsInCall(at.steps)
    && var before := at.steps[..|at.steps| - 1];
       Step(After(cfg.initial, ExtractCalls(before)), CallAt(at.steps[|at.steps| - 1].payload)).outcome.Escaped?
  }

  ghost predicate RaisedRightly(cfg: Config, at: Locals) {
    AllFit(cfg, at.steps) && (ClientRaised(cfg, at) || RetriesUsedUp(cfg, at) || CallEscaped(cfg, at))
  }

  // ---------------------------------------------------------------- adding steps

  /** What holds of the locals whenever the model is about to be asked or a tool to be run. */
  ghost predicate Told(cfg: Config, at: Locals) {
    && at.messages == Said(cfg.systemPrompt, cfg.input, at.steps) && at.asked == Asked(at.steps)
    && at.world == After(cfg.initial, ExtractCalls(at.steps))
    && AllFit(cfg, at.steps) && !EndsInCall(at.steps)
  }

  lemma OneMore(cfg: Config, steps: seq<TraceStep>, step: TraceStep)
    requires AllFit(cfg, steps) && Fits(cfg, steps, step)
    ensures AllFit(cfg, steps + [step])
    ensures Said(cfg.systemPrompt, cfg.input, steps + [step])
         == Said(cfg.systemPrompt, cfg.input, steps) + Adds(steps, step.payload)
    ensures Asked(steps + [step])
         == Asked(steps) + if step.payload.ModelResponse? || step.payload.RetryPayload? then 1 else 0
    ensures EndsInCall(steps + [step]) <==> step.payload.CallPayload?
    ensures !step.payload.CallPayload? ==> ExtractCalls(steps + [step]) == ExtractCalls(steps)
    ensures step.payload.CallPayload? ==> ExtractCalls(steps + [step]) == ExtractCalls(steps) + [CallAt(step.payload)]
  {
    hide Fits, Adds, InputTokens, OutputTokens;
    var all := steps + [step];
    assert all[..|steps|] == steps;
    SnocReads(steps, step);
    forall k | 0 <= k < |all| ensures Fits(cfg, all[..k], all[k]) {
      if k < |steps| {
        assert all[..k] == steps[..k];
      }
    }
  }

  /** A step that is no call, response, retry or outcome of a call. */
  lemma QuietTold(cfg: Config, at: Locals, payload: Payload)
    requires Told(cfg, at) && (payload.ModelRequest? || payload.FinalAnswer?)
    requires payload.ModelRequest? ==> payload == ModelRequest(at.messages, cfg.model, map[])
    ensures Told(cfg, Push(cfg, at, payload, None))
  {
    hide AllFit, Said, Asked, ExtractCalls, After;
    OneMore(cfg, at.steps, NextStep(cfg, at.steps, payload, None, None));
  }

  // ---------------------------------------------------------------- asking the model

  lemma RetriedMore(steps: seq<TraceStep>, times: nat, step: TraceStep)
    requires RetriedLast(steps, times) && step.payload.RetryPayload? && step.payload.attempt == times + 1
    ensures RetriedLast(steps + [step], times + 1)
  {
  }

  /** What asking comes to: an answer, which is the client's, or a good reason to raise. */
  ghost predicate AskEnds(cfg: Config, next: Locals, answer: Option<ModelReply>) {
    if answer.Some? then
      Told(cfg, next.(asked := Asked(next.steps))) && next.asked == Asked(next.steps) + 1
      && cfg.client(Asked(next.steps)) == Reply(answer.value)
    else RaisedRightly(cfg, next)
  }

  lemma {:induction false} AskTold(cfg: Config, at: Locals, request: Id, attempt: Positive)
    requires Told(cfg, at) && RetriedLast(at.steps, attempt - 1) && attempt <= cfg.maxRetries + 1
    ensures var (next, answer) := Ask(cfg, at, request, attempt); AskEnds(cfg, next, answer)
    decreases cfg.maxRetries + 1 - attempt
  {
    hide Said, Asked, ExtractCalls, After, RetriedLast, Adds, AllFit;
    match cfg.client(at.asked)
    case Reply(reply) =>
    case Fatal =>
    case Transient(message) =>
      var tried := at.(asked := at.asked + 1);
      if attempt > cfg.maxRetries {
        GivesUp(cfg, tried, message, request);
      } else {
        var step := NextStep(cfg, at.steps, RetryPayload(attempt, message), Some(request), None);
        OneMore(cfg, at.steps, step);
        assert Adds(at.steps, step.payload) == [] by { NoneAdded(at.steps, step.payload); }
        RetriedMore(at.steps, attempt - 1, step);
        AskTold(cfg, Push(cfg, tried, RetryPayload(attempt, message), Some(request)), request, attempt + 1);
      }
  }

  lemma NoneAdded(before: seq<TraceStep>, p: Payload)
    requires p.RetryPayload? || p.ModelRequest? || p.FinalAnswer? || p.CallPayload?
    ensures Adds(before, p) == []
  {
  }

  lemma GivesUp(cfg: Config, tried: Locals, message: string, request: Id)
    requires AllFit(cfg, tried.steps) && !EndsInCall(tried.steps) && RetriedLast(tried.steps, cfg.maxRetries)
    requires cfg.client(Asked(tried.steps)) == Transient(message)
    ensures RaisedRightly(cfg, Push(cfg, tried, ErrorPayload("ModelError", message), Some(request)))
  {
    hide Said, Asked, ExtractCalls, After, RetriedLast, AllFit;
    var step := NextStep(cfg, tried.steps, ErrorPayload("ModelError", message), Some(request), None);
    assert |"ModelError"| != |"MaxStepsExceeded"|;
    OneMore(cfg, tried.steps, step);
    var all := tried.steps + [step];
    assert all[..|all| - 1] == tried.steps;
    assert RetriesUsedUp(cfg, Push(cfg, tried, ErrorPayload("ModelError", message), Some(request)));
  }

  lemma AskFromTold(cfg: Config, at: Locals)
    requires Told(cfg, at)
    ensures var (next, answer) := AskFrom(cfg, at); AskEnds(cfg, next, answer)
  {
    hide Told, AskEnds, Ask;
    var pushed := Push(cfg, at, RequestPayload(cfg, at), None);
    QuietToldRequest(cfg, at);
    AskTold(cfg, pushed, cfg.ids(|at.steps|), 1);
  }

  lemma QuietToldRequest(cfg: Config, at: Locals)
    requires Told(cfg, at)
    ensures var pushed := Push(cfg, at, RequestPayload(cfg, at), None);
      Told(cfg, pushed) && RetriedLast(pushed.steps, 0)
  {
    QuietTold(cfg, at, RequestPayload(cfg, at));
  }

  /** The response is recorded as the client gave it, and its calls are added. */
  lemma AnsweredTold(cfg: Config, asked: Locals, request: Id, reply: ModelReply)
    requires AskEnds(cfg, asked, Some(reply))
    ensures var answered := Answered(cfg, asked, request, reply);
      if reply.toolCalls == [] then Told(cfg, answered) else Told(cfg, Replying(answered, reply))
  {
    hide Said, Asked, ExtractCalls, After, AllFit;
    var step := NextStep(cfg, asked.steps, ResponsePayload(reply), Some(request), None);
    OneMore(cfg, asked.steps, step);
    ResponseAdds(asked.steps, reply);
    hide Adds;
  }

  lemma ResponseAdds(before: seq<TraceStep>, reply: ModelReply)
    ensures Adds(before, ResponsePayload(reply))
         == if reply.toolCalls == [] then [] else [AssistantMessage(reply.toolCalls)]
  {
    assert reply.toolCalls == [] ==> VarsOfAll(reply.toolCalls) == [];
    assert reply.toolCalls != [] ==> |VarsOfAll(reply.toolCalls)| > 0;
  }

  // ---------------------------------------------------------------- running the tools

  lemma InvokeTold(cfg: Config, at: Locals, c: ToolCallRequest)
    requires Told(cfg, at)
    ensures var (next, ok) := Invoke(cfg, at, c);
      if ok then Told(cfg, next) else RaisedRightly(cfg, next)
  {
    hide Said, Asked, ExtractCalls, After, AllFit, Step;
    var call := NextStep(cfg, at.steps, CallPayload(c.callId, c.service, c.operation, c.arguments), None, None);
    OneMore(cfg, at.steps, call);
    var s, effect := at.steps + [call], Step(at.world, CallOf(c));
    assert s[..|s| - 1] == at.steps;
    if effect.outcome.Escaped? {
      assert CallEscaped(cfg, Invoke(cfg, at, c).0);
    } else {
      var payload := OutcomePayload(cfg, c, effect.outcome);
      var outcome := NextStep(cfg, s, payload, Some(cfg.ids(|at.steps|)), Some(cfg.clock(|s|)));
      OutcomeFits(cfg, s, c, effect.outcome, outcome);
      OneMore(cfg, s, outcome);
      OutcomeAdds(cfg, s, c, effect.outcome);
      AfterOneMore(cfg.initial, ExtractCalls(at.steps), CallOf(c));
      hide Fits, Adds;
    }
  }

  lemma OutcomeFits(cfg: Config, s: seq<TraceStep>, c: ToolCallRequest, outcome: Outcome, step: TraceStep)
    requires EndsInCall(s) && CallAt(s[|s| - 1].payload) == CallOf(c) && !outcome.Escaped?
    requires step.payload == OutcomePayload(cfg, c, outcome)
    requires step.id == cfg.ids(|s|) && step.duration == Some(cfg.clock(|s|))
    ensures Fits(cfg, s, step)
  {
    if outcome.Failed? {
      assert IsNamed(ErrorName(outcome.error), outcome.error);
    }
  }

  lemma OutcomeAdds(cfg: Config, s: seq<TraceStep>, c: ToolCallRequest, outcome: Outcome)
    requires EndsInCall(s) && s[|s| - 1].payload.callId == c.callId && !outcome.Escaped?
    ensures Adds(s, OutcomePayload(cfg, c, outcome)) == [ToolMessage(c.callId, OutcomePayload(cfg, c, outcome))]
  {
    var p := OutcomePayload(cfg, c, outcome);
    if p.ResultPayload? {
      assert Dump(p)["event_type" := Str("tool_result")]
          == map["event_type" := Str("tool_result"), "call_id" := Str(c.callId), "result" := p.result];
    } else {
      assert Dump(p)["event_type" := Str("error")]
          == map["event_type" := Str("error"), "error_type" := Str(p.errorType), "message" := Str(p.message)];
    }
  }

  lemma {:induction false} InvokeAllTold(cfg: Config, at: Locals, calls: seq<ToolCallRequest>)
    requires Told(cfg, at)
    ensures var (next, ok) := InvokeAll(cfg, at, calls);
      if ok then Told(cfg, next) else RaisedRightly(cfg, next)
    decreases calls
  {
    hide Told, RaisedRightly, Invoke;
    if calls != [] {
      InvokeTold(cfg, at, calls[0]);
      var (one, ok) := Invoke(cfg, at, calls[0]);
      if ok {
        InvokeAllTold(cfg, one, calls[1..]);
      }
    }
  }

  // ---------------------------------------------------------------- whole runs

  /** What is right about the way a run ends. */
  ghost predicate EndsTold(cfg: Config, end: End) {
    if end.Completed? then AllFit(cfg, end.at.steps) else RaisedRightly(cfg, end.at)
  }

  lemma TurnTold(cfg: Config, at: Locals)
    requires Told(cfg, at)
    ensures match TakeTurn(cfg, at)
      case Go(next) => Told(cfg, next)
      case Stop(end) => EndsTold(cfg, end)
  {
    hide Told, AskEnds, AskFrom, InvokeAll, Answered, Replying;
    AskFromTold(cfg, at);
    var (asked, answer) := AskFrom(cfg, at);
    if answer.None? {
      AskRaises(cfg, asked);
    } else {
      var reply := answer.value;
      var answered := Answered(cfg, asked, cfg.ids(|at.steps|), reply);
      AnsweredTold(cfg, asked, cfg.ids(|at.steps|), reply);
      if reply.toolCalls == [] {
        QuietTold(cfg, answered, FinalAnswer(FinalText(reply)));
        ToldFits(cfg, Push(cfg, answered, FinalAnswer(FinalText(reply)), None));
      } else {
        InvokeAllTold(cfg, Replying(answered, reply), reply.toolCalls);
      }
    }
  }

  lemma AskRaises(cfg: Config, asked: Locals)
    requires AskEnds(cfg, asked, None)
    ensures RaisedRightly(cfg, asked)
  {
  }

  lemma ToldFits(cfg: Config, at: Locals)
    requires Told(cfg, at)
    ensures AllFit(cfg, at.steps)
  {
  }

  lemma ExceededFits(cfg: Config, at: Locals)
    requires Told(cfg, at)
    ensures AllFit(cfg, Push(cfg, at, StepsExceeded(cfg), None).steps)
  {
    hide Said, Asked, ExtractCalls, After, AllFit, Decimal;
    OneMore(cfg, at.steps, NextStep(cfg, at.steps, StepsExceeded(cfg), None, None));
  }

  lemma {:induction false} LoopTold(cfg: Config, at: Locals, left: nat)
    requires Told(cfg, at)
    ensures EndsTold(cfg, Loop(cfg, at, left))
    decreases left
  {
    hide Told, TakeTurn, AllFit, RaisedRightly;
    if left == 0 {
      ExceededFits(cfg, at);
    } else {
      TurnTold(cfg, at);
      var turn := TakeTurn(cfg, at);
      if turn.Go? {
        LoopTold(cfg, turn.next, left - 1);
      }
    }
  }

  lemma StartTold(cfg: Config)
    ensures Told(cfg, Start(cfg))
  {
  }

  /** Main result: in the trace of every completed run each request carries the conversation
      so far and the version's model, each response and retry records what the model client
      did at that call, and errors and limits are named as they are. A run that raises has
      recorded as much, and the model client raised, the retries of one request were used up,
      or a tool call raised something that is not handed back to the agent. */
  lemma RunIsTold(cfg: Config)
    ensures EndsTold(cfg, Run(cfg))
  {
    hide Told, EndsTold, Loop;
    StartTold(cfg);
    LoopTold(cfg, Start(cfg), cfg.maxSteps);
  }

  // ---------------------------------------------------------------- as stored

  /** A stored model request names this model, and its conversation starts with this prompt
      and this input. */
  ghost predicate AsksUnder(e: Event, model: string, prompt: string, input: string) {
    && Get(e.payload, "model") == Str(model)
    && Get(e.payload, "messages").Arr? && |Get(e.payload, "messages").items| >= 2
    && Get(e.payload, "messages").items[0] == Obj(map["role" := Str("system"), "content" := Str(prompt)])
    && Get(e.payload, "messages").items[1] == Obj(map["role" := Str("user"), "content" := Str(input)])
  }

  /** All model requests among the events do so, and the first event is one. */
  ghost predicate AllAskUnder(events: seq<Event>, model: string, prompt: string, input: string) {
    && events != [] && events[0].eventType == MODEL_REQUEST
    && forall e | e in events && e.eventType == MODEL_REQUEST :: AsksUnder(e, model, prompt, input)
  }

  lemma {:induction false} SaidStarts(prompt: string, input: string, steps: seq<TraceStep>)
    ensures |Said(prompt, input, steps)| >= 2
    ensures Said(prompt, input, steps)[0] == map["role" := Str("system"), "content" := Str(prompt)]
    ensures Said(prompt, input, steps)[1] == map["role" := Str("user"), "content" := Str(input)]
  {
    hide Adds;
    if steps != [] {
      SaidStarts(prompt, input, steps[..|steps| - 1]);
    }
  }

  lemma RequestAsks(cfg: Config, before: seq<TraceStep>, step: TraceStep)
    requires Fits(cfg, before, step) && step.payload.ModelRequest?
    ensures AsksUnder(EventOf(step), cfg.model, cfg.systemPrompt, cfg.input)
  {
    SaidStarts(cfg.systemPrompt, cfg.input, before);
    hide Said;
  }

  /** Redaction leaves the start of a conversation readable. */
  lemma StillAsks(e: Event, model: string, prompt: string, input: string)
    requires AsksUnder(e, model, prompt, input)
    ensures AsksUnder(RedactEvent(e), model, prompt, input)
  {
    Redaction.InsensitiveByShape("model");
    Redaction.InsensitiveByShape("messages");
    MessageStays("system", prompt);
    MessageStays("user", input);
    assert "model" in e.payload && "messages" in e.payload;
    var d := Redaction.RedactDict(e.payload);
    assert d["model"] == Redaction.Redact(e.payload["model"]);
    assert d["messages"] == Redaction.Redact(e.payload["messages"]);
    var items := e.payload["messages"].items;
    assert Redaction.Redact(e.payload["messages"]).items[0] == Redaction.Redact(items[0]);
    assert Redaction.Redact(e.payload["messages"]).items[1] == Redaction.Redact(items[1]);
  }

  lemma MessageStays(role: string, content: string)
    ensures Redaction.Redact(Obj(map["role" := Str(role), "content" := Str(content)]))
         == Obj(map["role" := Str(role), "content" := Str(content)])
  {
    assert Redaction.Lower("role")[0] == 'r' && !Redaction.Sensitive("role");
    Redaction.InsensitiveByShape("content");
    var d := map["role" := Str(role), "content" := Str(content)];
    assert |"role"| != |"content"|;
    forall k | k in d ensures !Redaction.Sensitive(k) && Redaction.Clean(d[k]) {
      assert k == "role" || k == "content";
      assert d[k] == Str(if k == "role" then role else content);
    }
    Redaction.CleanIffFixed(Obj(d));
  }

  lemma FirstIsRequest(cfg: Config)
    requires Run(cfg).Completed? && cfg.maxSteps > 0
    ensures Run(cfg).at.steps != [] && Run(cfg).at.steps[0].payload.ModelRequest?
  {
    AskFromShape(cfg, Start(cfg));
    TurnGrows(cfg, Start(cfg));
    hide AskFrom, InvokeAll, Answered;
    var turn := TakeTurn(cfg, Start(cfg));
    if turn.Go? {
      LoopGrows(cfg, turn.next, cfg.maxSteps - 1);
    }
  }

  lemma TurnGrows(cfg: Config, at: Locals)
    ensures match TakeTurn(cfg, at)
      case Go(next) =>
        |next.steps| > |at.steps| && at.steps <= next.steps && next.steps[|at.steps|].payload.ModelRequest?
      case Stop(end) => end.Completed? ==>
        |end.at.steps| > |at.steps| && at.steps <= end.at.steps && end.at.steps[|at.steps|].payload.ModelRequest?
  {
    TurnShape(cfg, at);
    hide TakeTurn, IsPairs, IsRetriesFrom;
    match TakeTurn(cfg, at)
    case Go(next) =>
      var s := next.steps[|at.steps|..];
      var n: nat :| IsTurnAt(s, n, cfg.maxRetries);
      assert s[..n][0] == s[0];
    case Stop(Completed(end, output, exceeded)) =>
      var s := end.steps[|at.steps|..];
      assert s[..|s| - 1][0] == s[0];
    case _ =>
  }

  lemma {:induction false} LoopGrows(cfg: Config, at: Locals, left: nat)
    ensures Loop(cfg, at, left).Completed? ==> at.steps <= Loop(cfg, at, left).at.steps
    decreases left
  {
    hide TakeTurn;
    if left > 0 {
      TurnGrows(cfg, at);
      var turn := TakeTurn(cfg, at);
      if turn.Go? {
        LoopGrows(cfg, turn.next, left - 1);
      }
    }
  }

  /** Main result: the stored trace of a completed run begins with a model request, and all its
      requests name the version's model and begin with its prompt and the task's input. */
  lemma StoredRequests(cfg: Config)
    requires Run(cfg).Completed? && cfg.maxSteps > 0
    ensures AllAskUnder(ToStorage(Run(cfg).at.steps), cfg.model, cfg.systemPrompt, cfg.input)
    ensures AllAskUnder(RedactEvents(ToStorage(Run(cfg).at.steps)), cfg.model, cfg.systemPrompt, cfg.input)
  {
    hide RaisedRightly, Run, Fits, AsksUnder, EventOf, RedactEvent;
    RunIsTold(cfg);
    FirstIsRequest(cfg);
    AllRequestsAsk(cfg, Run(cfg).at.steps);
  }

  lemma AllRequestsAsk(cfg: Config, steps: seq<TraceStep>)
    requires AllFit(cfg, steps) && steps != [] && steps[0].payload.ModelRequest?
    ensures AllAskUnder(ToStorage(steps), cfg.model, cfg.systemPrompt, cfg.input)
    ensures AllAskUnder(RedactEvents(ToStorage(steps)), cfg.model, cfg.systemPrompt, cfg.input)
  {
    hide Fits, AsksUnder, EventOf, RedactEvent;
    var events := ToStorage(steps);
    forall i | 0 <= i < |steps| { EventTypes(steps[i]); }
    forall i | 0 <= i < |steps| && steps[i].payload.ModelRequest?
      ensures AsksUnder(events[i], cfg.model, cfg.systemPrompt, cfg.input)
      ensures AsksUnder(RedactEvents(events)[i], cfg.model, cfg.systemPrompt, cfg.input)
    {
      RequestAsks(cfg, steps[..i], steps[i]);
      StillAsks(events[i], cfg.model, cfg.systemPrompt, cfg.input);
    }
  }

  lemma EventTypes(step: TraceStep)
    ensures EventOf(step).eventType == MODEL_REQUEST <==> step.payload.ModelRequest?
    ensures RedactEvent(EventOf(step)).eventType == EventOf(step).eventType
  {
  }
}
