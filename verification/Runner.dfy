/** runner/runner.py and runner/tool_proxy.py: one agent version run against one task. */
module Runner {
  import opened Json
  import opened Schema
  import opened Services
  import opened TraceModel
  import SupportEnvironment

  datatype ToolCallRequest = ToolCallRequest(callId: string, service: string, operation: string, arguments: Dict)

  datatype ModelReply = ModelReply(
    finishReason: string, content: Option<string>, toolCalls: seq<ToolCallRequest>,
    inputTokens: nat, outputTokens: nat)

  /** What one call of the model client does: answer, fail transiently, or raise anything else. */
  datatype ClientEvent = Reply(reply: ModelReply) | Transient(message: string) | Fatal

  /** The inputs of a run. `client(k)` is what the k-th model call of this run does, so an
      arbitrary client is an arbitrary function; `ids` and `clock` are the fresh step
      identifiers and tool durations of the run, `describe` the wording of tool errors. */
  datatype Config = Config(
    systemPrompt: string, model: string, input: string, initial: World,
    client: nat -> ClientEvent, ids: nat -> Id, clock: nat -> nat,
    describe: (ToolCall, ToolError) -> string, maxSteps: nat, maxRetries: nat)

  /** The local variables of a run. */
  datatype Locals = Locals(
    steps: seq<TraceStep>, world: World, messages: seq<Dict>, asked: nat, inputTokens: nat, outputTokens: nat)

  /** How a run ends: with a result, or with an exception that discards it. */
  datatype End = Completed(at: Locals, finalOutput: Option<string>, exceeded: bool) | Raised(at: Locals)

  function Decimal(n: nat): string {
    (if n < 10 then "" else Decimal(n / 10)) + [('0' as int + n % 10) as char]
  }

  /** s is the decimal numeral of n, without leading zeros. */
  ghost predicate IsNumeral(s: string, n: nat) {
    && s != "" && (forall i | 0 <= i < |s| :: '0' <= s[i] <= '9') && (n > 0 ==> s[0] != '0')
    && ValueOf(s) == n && (n == 0 ==> |s| == 1)
  }

  ghost function ValueOf(s: string): int {
    if s == "" then 0 else 10 * ValueOf(s[..|s| - 1]) + (s[|s| - 1] as int - '0' as int)
  }

  lemma {:induction false} DecimalIsNumeral(n: nat)
    ensures IsNumeral(Decimal(n), n)
  {
    var front := if n < 10 then "" else Decimal(n / 10);
    assert Decimal(n) == front + [('0' as int + n % 10) as char];
    if n >= 10 {
      DecimalIsNumeral(n / 10);
    }
    hide Decimal;
    OneMoreDigit(front, n / 10, n % 10);
  }

  lemma OneMoreDigit(front: string, n: nat, digit: nat)
    requires digit < 10 && (if n == 0 then front == "" else IsNumeral(front, n))
    ensures IsNumeral(front + [('0' as int + digit) as char], 10 * n + digit)
  {
    var last := ('0' as int + digit) as char;
    var s := front + [last];
    assert '0' <= last <= '9' && last as int - '0' as int == digit;
    assert s[..|s| - 1] == front && s[|s| - 1] == last;
    assert ValueOf(s) == 10 * ValueOf(front) + digit;
    assert front != "" ==> s[0] == front[0];
  }

  function StepsExceeded(cfg: Config): Payload {
    ErrorPayload("MaxStepsExceeded", "exceeded " + Decimal(cfg.maxSteps) + " steps without a final answer")
  }

  function VarsOf(c: ToolCallRequest): Dict {
    map["call_id" := Str(c.callId), "service" := Str(c.service), "operation" := Str(c.operation),
        "arguments" := Obj(c.arguments)]
  }

  function VarsOfAll(cs: seq<ToolCallRequest>): seq<Dict> {
    seq(|cs|, i requires 0 <= i < |cs| => VarsOf(cs[i]))
  }

  function CallOf(c: ToolCallRequest): ToolCall {
    ToolCall(c.service, c.operation, c.arguments)
  }

  function ErrorName(e: ToolError): string {
    match e
    case NotFoundError => "NotFoundError"
    case PolicyViolationError => "PolicyViolationError"
    case TypeError => "TypeError"
    case UnknownToolError => "UnknownToolError"
  }

  function TypeName(t: EventType): string {
    match t
    case MODEL_REQUEST => "model_request"
    case MODEL_RESPONSE => "model_response"
    case TOOL_CALL => "tool_call"
    case TOOL_RESULT => "tool_result"
    case RETRY => "retry"
    case ERROR => "error"
    case FINAL_ANSWER => "final_answer"
  }

  function SystemMessage(cfg: Config): Dict {
    map["role" := Str("system"), "content" := Str(cfg.systemPrompt)]
  }

  function UserMessage(cfg: Config): Dict {
    map["role" := Str("user"), "content" := Str(cfg.input)]
  }

  function AssistantMessage(calls: seq<ToolCallRequest>): Dict {
    map["role" := Str("assistant"), "tool_calls" := DictsJson(VarsOfAll(calls))]
  }

  function ToolMessage(callId: string, p: Payload): Dict {
    map["role" := Str("tool"), "call_id" := Str(callId),
        "content" := Obj(Dump(p)["event_type" := Str(TypeName(TypeOf(p)))])]
  }

  /** The step an append to this trace makes. */
  function NextStep(cfg: Config, steps: seq<TraceStep>, payload: Payload, parent: Option<Id>,
                    duration: Option<nat>): TraceStep {
    TraceStep(cfg.ids(|steps|), |steps|, payload, parent, duration)
  }

  function Push(cfg: Config, at: Locals, payload: Payload, parent: Option<Id>): Locals {
    at.(steps := at.steps + [NextStep(cfg, at.steps, payload, parent, None)])
  }

  function Start(cfg: Config): Locals {
    Locals([], cfg.initial, [SystemMessage(cfg), UserMessage(cfg)], 0, 0, 0)
  }

  function RequestPayload(cfg: Config, at: Locals): Payload {
    ModelRequest(at.messages, cfg.model, map[])
  }

  function ResponsePayload(r: ModelReply): Payload {
    ModelResponse(r.content, VarsOfAll(r.toolCalls), r.finishReason, Some(r.inputTokens), Some(r.outputTokens))
  }

  // ---------------------------------------------------------------- the run as a function

  /** `_complete_with_retries`, from the given attempt on. */
  function Ask(cfg: Config, at: Locals, request: Id, attempt: Positive): (Locals, Option<ModelReply>)
    decreases cfg.maxRetries + 1 - attempt
  {
    var next := at.(asked := at.asked + 1);
    match cfg.client(at.asked)
    case Reply(reply) => (next, Some(reply))
    case Fatal => (next, None)
    case Transient(message) =>
      if attempt > cfg.maxRetries then (Push(cfg, next, ErrorPayload("ModelError", message), Some(request)), None)
      else Ask(cfg, Push(cfg, next, RetryPayload(attempt, message), Some(request)), request, attempt + 1)
  }

  function OutcomePayload(cfg: Config, c: ToolCallRequest, outcome: Outcome): Payload
    requires !outcome.Escaped?
  {
    match outcome
    case Returned(value) => ResultPayload(c.callId, value)
    case Failed(error) => ErrorPayload(ErrorName(error), cfg.describe(CallOf(c), error))
  }

  /** `TracedToolProxy.invoke` and the tool message after it; false when an exception escapes. */
  function Invoke(cfg: Config, at: Locals, c: ToolCallRequest): (Locals, bool) {
    var called := Push(cfg, at, CallPayload(c.callId, c.service, c.operation, c.arguments), None);
    var effect := Step(at.world, CallOf(c));
    if effect.outcome.Escaped? then (called.(world := effect.world), false)
    else
      var payload := OutcomePayload(cfg, c, effect.outcome);
      var parent := Some(cfg.ids(|at.steps|));
      var step := NextStep(cfg, called.steps, payload, parent, Some(cfg.clock(|called.steps|)));
      (called.(steps := called.steps + [step], world := effect.world,
               messages := at.messages + [ToolMessage(c.callId, payload)]), true)
  }

  function InvokeAll(cfg: Config, at: Locals, calls: seq<ToolCallRequest>): (Locals, bool)
    decreases calls
  {
    if calls == [] then (at, true)
    else
      var (next, ok) := Invoke(cfg, at, calls[0]);
      if ok then InvokeAll(cfg, next, calls[1..]) else (next, false)
  }

  /** What one step of the main loop comes to: the run ends, or the next step starts. */
  datatype Turn = Stop(end: End) | Go(next: Locals)

  function TakeTurn(cfg: Config, at: Locals): Turn {
    var (asked, answer) := AskFrom(cfg, at);
    if answer.None? then Stop(Raised(asked))
    else
      var reply := answer.value;
      var answered := Answered(cfg, asked, cfg.ids(|at.steps|), reply);
      if reply.toolCalls == [] then
        var output := FinalText(reply);
        Stop(Completed(Push(cfg, answered, FinalAnswer(output), None), Some(output), false))
      else
        var (done, ok) := InvokeAll(cfg, Replying(answered, reply), reply.toolCalls);
        if ok then Go(done) else Stop(Raised(done))
  }

  /** The main loop with `left` steps to go. */
  function Loop(cfg: Config, at: Locals, left: nat): End
    decreases left
  {
    if left == 0 then Completed(Push(cfg, at, StepsExceeded(cfg), None), None, true)
    else
      match TakeTurn(cfg, at)
      case Stop(end) => end
      case Go(next) => Loop(cfg, next, left - 1)
  }

  /** A request step and the model calls it takes. */
  function AskFrom(cfg: Config, at: Locals): (Locals, Option<ModelReply>) {
    Ask(cfg, Push(cfg, at, RequestPayload(cfg, at), None), cfg.ids(|at.steps|), 1)
  }

  /** After the response step: the tokens are counted. */
  function Answered(cfg: Config, asked: Locals, request: Id, reply: ModelReply): Locals {
    Push(cfg, asked, ResponsePayload(reply), Some(request)).(
      inputTokens := asked.inputTokens + reply.inputTokens,
      outputTokens := asked.outputTokens + reply.outputTokens)
  }

  /** `reply.content or ""`. */
  function FinalText(reply: ModelReply): string {
    if reply.content.Some? then reply.content.value else ""
  }

  function Replying(at: Locals, reply: ModelReply): Locals {
    at.(messages := at.messages + [AssistantMessage(reply.toolCalls)])
  }

  function Run(cfg: Config): End {
    Loop(cfg, Start(cfg), cfg.maxSteps)
  }

  // ---------------------------------------------------------------- the run as the program does it

  /** `TracedToolProxy.invoke`: the call is recorded before it runs, its outcome after.
      None when an exception escapes. */
  method InvokeTraced(cfg: Config, trace: Trace, env: SupportEnvironment.SupportEnvironment, c: ToolCallRequest,
                      ghost at: Locals)
    returns (result: Option<TraceStep>)
    requires trace.Valid() && at.steps == trace.steps && at.world == env.View()
    modifies trace, env
    ensures trace.Valid()
    ensures var (next, ok) := Invoke(cfg, at, c);
      && trace.steps == next.steps && env.View() == next.world && result.Some? == ok
      && (ok ==> |next.steps| > 0 && result.value == next.steps[|next.steps| - 1]
                 && next.messages == at.messages + [ToolMessage(c.callId, result.value.payload)])
  {
    var callStep := trace.Append(cfg.ids(|trace.steps|), CallPayload(c.callId, c.service, c.operation, c.arguments),
                                 None, None);
    assert trace.steps[|trace.steps| - 1].id == callStep.value.id;
    var outcome := env.Invoke(CallOf(c));
    if outcome.Escaped? {
      return None;
    }
    result := trace.Append(cfg.ids(|trace.steps|), OutcomePayload(cfg, c, outcome),
                           Some(callStep.value.id), Some(cfg.clock(|trace.steps|)));
  }

  /** `_complete_with_retries`; None when it raises. */
  method CompleteWithRetries(cfg: Config, trace: Trace, request: Id, asked: nat, ghost at: Locals)
    returns (answer: Option<ModelReply>, calls: nat)
    requires trace.Valid() && at.steps == trace.steps && at.asked == asked && IdAmong(request, trace.steps)
    modifies trace
    ensures trace.Valid()
    ensures var (next, reply) := Ask(cfg, at, request, 1);
      trace.steps == next.steps && calls == next.asked && answer == reply
    ensures forall id | old(IdAmong(id, trace.steps)) :: IdAmong(id, trace.steps)
  {
    ghost var now := at;
    var attempt: Positive := 1;
    calls := asked;
    while true
      invariant trace.Valid() && now.steps == trace.steps && now.asked == calls && IdAmong(request, trace.steps)
      invariant attempt <= cfg.maxRetries + 1
      invariant Ask(cfg, now, request, attempt) == Ask(cfg, at, request, 1)
      invariant forall id | old(IdAmong(id, trace.steps)) :: IdAmong(id, trace.steps)
      decreases cfg.maxRetries + 1 - attempt
    {
      ghost var before := trace.steps;
      calls := calls + 1;
      match cfg.client(calls - 1)
      case Reply(reply) => return Some(reply), calls;
      case Fatal => return None, calls;
      case Transient(message) =>
        now := now.(asked := calls);
        if attempt > cfg.maxRetries {
          var _ := trace.Append(cfg.ids(|trace.steps|), ErrorPayload("ModelError", message), Some(request), None);
          IdsKept(before, trace.steps);
          return None, calls;
        }
        var _ := trace.Append(cfg.ids(|trace.steps|), RetryPayload(attempt, message), Some(request), None);
        IdsKept(before, trace.steps);
        now := Push(cfg, now, RetryPayload(attempt, message), Some(request));
        attempt := attempt + 1;
    }
  }

  lemma IdsKept(before: seq<TraceStep>, after: seq<TraceStep>)
    requires before <= after
    ensures forall id | IdAmong(id, before) :: IdAmong(id, after)
  {
    forall id | IdAmong(id, before) ensures IdAmong(id, after) {
      var j :| 0 <= j < |before| && before[j].id == id;
      assert after[j].id == id;
    }
  }

  /** The loop over the tool calls of one reply; false when an exception escapes. */
  method InvokeEach(cfg: Config, trace: Trace, env: SupportEnvironment.SupportEnvironment,
                    calls: seq<ToolCallRequest>, sofar: seq<Dict>, ghost at: Locals)
    returns (messages: seq<Dict>, ok: bool)
    requires trace.Valid() && at.steps == trace.steps && at.world == env.View() && at.messages == sofar
    modifies trace, env
    ensures trace.Valid()
    ensures InvokeAll(cfg, at, calls)
         == (at.(steps := trace.steps, world := env.View(), messages := messages), ok)
  {
    messages := sofar;
    ghost var now := at;
    var i := 0;
    while i < |calls|
      invariant 0 <= i <= |calls|
      invariant trace.Valid()
      invariant now == at.(steps := trace.steps, world := env.View(), messages := messages)
      invariant InvokeAll(cfg, at, calls) == InvokeAll(cfg, now, calls[i..])
    {
      assert calls[i..][1..] == calls[i + 1..];
      ghost var next := Invoke(cfg, now, calls[i]).0;
      var resultStep := InvokeTraced(cfg, trace, env, calls[i], now);
      if resultStep.None? {
        return messages, false;
      }
      messages := messages + [ToolMessage(calls[i].callId, resultStep.value.payload)];
      now := next;
      i := i + 1;
    }
    return messages, true;
  }

  /** The request, the retries and the response of one step; None when the client raises. */
  method RequestReply(cfg: Config, trace: Trace, messages: seq<Dict>, asked: nat, ghost at: Locals)
    returns (answer: Option<ModelReply>, calls: nat)
    requires trace.Valid() && at.steps == trace.steps && at.messages == messages && at.asked == asked
    modifies trace
    ensures trace.Valid()
    ensures var (next, reply) := AskFrom(cfg, at);
      && answer == reply && calls == next.asked
      && trace.steps == if reply.None? then next.steps else Answered(cfg, next, cfg.ids(|at.steps|), reply.value).steps
  {
    var requestStep := trace.Append(cfg.ids(|trace.steps|), ModelRequest(messages, cfg.model, map[]), None, None);
    var request := requestStep.value.id;
    assert trace.steps[|trace.steps| - 1].id == request;
    answer, calls := CompleteWithRetries(cfg, trace, request, asked, Push(cfg, at, RequestPayload(cfg, at), None));
    if answer.Some? {
      var _ := trace.Append(cfg.ids(|trace.steps|), ResponsePayload(answer.value), Some(request), None);
    }
  }

  /** One pass through the body of the main loop. `start` holds the locals but the trace
      and the environment, which are updated in place. */
  method RunTurn(cfg: Config, trace: Trace, env: SupportEnvironment.SupportEnvironment, start: Locals)
    returns (turn: Turn)
    requires trace.Valid() && start.steps == trace.steps && start.world == env.View()
    modifies trace, env
    ensures trace.Valid()
    ensures turn == TakeTurn(cfg, start)
    ensures turn.Go? ==> trace.steps == turn.next.steps && env.View() == turn.next.world
  {
    AskFrames(cfg, Push(cfg, start, RequestPayload(cfg, start), None), cfg.ids(|start.steps|), 1);
    ghost var next := AskFrom(cfg, start).0;
    var answer, asked := RequestReply(cfg, trace, start.messages, start.asked, start);
    if answer.None? {
      return Stop(Raised(start.(steps := trace.steps, asked := asked)));
    }
    var reply := answer.value;
    var answered := start.(steps := trace.steps, asked := asked,
                           inputTokens := start.inputTokens + reply.inputTokens,
                           outputTokens := start.outputTokens + reply.outputTokens);
    assert answered == Answered(cfg, next, cfg.ids(|start.steps|), reply);
    if reply.toolCalls == [] {
      var output := FinalText(reply);
      var _ := trace.Append(cfg.ids(|trace.steps|), FinalAnswer(output), None, None);
      return Stop(Completed(answered.(steps := trace.steps), Some(output), false));
    }
    var messages := start.messages + [AssistantMessage(reply.toolCalls)];
    var ok;
    messages, ok := InvokeEach(cfg, trace, env, reply.toolCalls, messages, Replying(answered, reply));
    var done := answered.(steps := trace.steps, world := env.View(), messages := messages);
    return if ok then Go(done) else Stop(Raised(done));
  }

  /** `run_task`: a trace and an environment of its own, the loop over steps, and inside it
      the retries and the tool calls. */
  method RunTask(cfg: Config) returns (end: End)
    ensures end == Run(cfg)
  {
    hide TakeTurn;
    var trace := new Trace();
    var env := new SupportEnvironment.SupportEnvironment(cfg.initial);
    var at := Start(cfg);
    var left := cfg.maxSteps;
    while left > 0
      invariant trace.Valid() && fresh(trace) && fresh(env)
      invariant trace.steps == at.steps && env.View() == at.world
      invariant Loop(cfg, at, left) == Run(cfg)
    {
      var turn := RunTurn(cfg, trace, env, at);
      match turn {
        case Stop(end_) => return end_;
        case Go(next) => at := next;
      }
      left := left - 1;
    }
    var _ := trace.Append(cfg.ids(|trace.steps|), StepsExceeded(cfg), None, None);
    return Completed(at.(steps := trace.steps), None, true);
  }

  /** Asking the model touches nothing but the trace and the call counter. */
  lemma {:induction false} AskFrames(cfg: Config, at: Locals, request: Id, attempt: Positive)
    ensures var next := Ask(cfg, at, request, attempt).0;
      next == at.(steps := next.steps, asked := next.asked) && at.steps <= next.steps
    decreases cfg.maxRetries + 1 - attempt
  {
    match cfg.client(at.asked)
    case Transient(message) =>
      if attempt <= cfg.maxRetries {
        AskFrames(cfg, Push(cfg, at.(asked := at.asked + 1), RetryPayload(attempt, message), Some(request)),
                  request, attempt + 1);
      }
    case _ =>
  }
}
