/** What the trace of every completed run looks like, and what can be read off it alone. */
module RunProperties {
  import opened Json
  import opened Schema
  import opened Services
  import opened TraceModel
  import opened Runner

  // ---------------------------------------------------------------- the grammar of a trace

  ghost predicate IsRetriesFrom(s: seq<TraceStep>, request: Id, attempt: nat) {
    forall i | 0 <= i < |s| ::
      s[i].payload.RetryPayload? && s[i].payload.attempt == attempt + i && s[i].parent == Some(request)
  }

  /** A request, at most `maxRetries` retries numbered from 1, and the response, all of them
      children of the request. */
  ghost predicate IsAsk(s: seq<TraceStep>, maxRetries: nat) {
    && 2 <= |s| <= maxRetries + 2
    && s[0].payload.ModelRequest? && s[0].parent.None?
    && IsRetriesFrom(s[1..|s| - 1], s[0].id, 1)
    && s[|s| - 1].payload.ModelResponse? && s[|s| - 1].parent == Some(s[0].id)
  }

  /** A recorded call and its outcome, for one requested call. */
  ghost predicate IsPair(call: TraceStep, outcome: TraceStep, requested: Dict) {
    && call.payload.CallPayload? && call.parent.None?
    && requested == Dump(call.payload)
    && outcome.parent == Some(call.id)
    && (outcome.payload.ErrorPayload?
        || (outcome.payload.ResultPayload? && outcome.payload.callId == call.payload.callId))
  }

  /** One pair for each requested call, in order. */
  ghost predicate IsPairs(s: seq<TraceStep>, requested: seq<Dict>) {
    if requested == [] then s == []
    else |s| >= 2 && IsPair(s[0], s[1], requested[0]) && IsPairs(s[2..], requested[1..])
  }

  /** A turn: the model is asked, requests tools, and each of them is run. */
  ghost predicate IsTurnAt(s: seq<TraceStep>, n: nat, maxRetries: nat) {
    && 2 <= n <= |s| && IsAsk(s[..n], maxRetries)
    && s[n - 1].payload.toolCalls != [] && IsPairs(s[n..], s[n - 1].payload.toolCalls)
  }

  ghost predicate IsTurn(s: seq<TraceStep>, maxRetries: nat) {
    exists n :: IsTurnAt(s, n, maxRetries)
  }

  /** The trace is cut into consecutive turns at these positions. */
  ghost predicate IsTurns(s: seq<TraceStep>, cuts: seq<nat>, maxRetries: nat) {
    && |cuts| > 0 && cuts[0] == 0 && cuts[|cuts| - 1] == |s|
    && forall i | 0 < i < |cuts| :: IsTurnBetween(s, cuts[i - 1], cuts[i], maxRetries)
  }

  ghost predicate IsTurnBetween(s: seq<TraceStep>, from: nat, to: nat, maxRetries: nat) {
    from <= to <= |s| && IsTurn(s[from..to], maxRetries)
  }

  /** The last turn: the model answers without requesting a tool. */
  ghost predicate IsAnswer(s: seq<TraceStep>, maxRetries: nat, output: string) {
    && |s| >= 3 && IsAsk(s[..|s| - 1], maxRetries)
    && s[|s| - 2].payload.toolCalls == []
    && output == (match s[|s| - 2].payload.reply case Some(t) => t case None => "")
    && s[|s| - 1].payload == FinalAnswer(output) && s[|s| - 1].parent.None?
  }

  /** The end of a trace that came after `turns` turns. */
  ghost predicate IsEnd(s: seq<TraceStep>, turns: nat, maxSteps: nat, maxRetries: nat,
                        finalOutput: Option<string>, exceeded: bool) {
    if exceeded
    then turns == maxSteps && finalOutput.None? && |s| == 1 && s[0].parent.None?
         && s[0].payload.ErrorPayload? && s[0].payload.errorType == "MaxStepsExceeded"
    else turns < maxSteps && finalOutput.Some? && IsAnswer(s, maxRetries, finalOutput.value)
  }

  ghost predicate IsRunCut(s: seq<TraceStep>, cuts: seq<nat>, maxSteps: nat, maxRetries: nat,
                           finalOutput: Option<string>, exceeded: bool) {
    && |cuts| > 0 && cuts[|cuts| - 1] <= |s|
    && IsTurns(s[..cuts[|cuts| - 1]], cuts, maxRetries)
    && IsEnd(s[cuts[|cuts| - 1]..], |cuts| - 1, maxSteps, maxRetries, finalOutput, exceeded)
  }

  /** The whole trace of a completed run. */
  ghost predicate IsRun(s: seq<TraceStep>, maxSteps: nat, maxRetries: nat, finalOutput: Option<string>,
                        exceeded: bool) {
    exists cuts :: IsRunCut(s, cuts, maxSteps, maxRetries, finalOutput, exceeded)
  }

  // ---------------------------------------------------------------- tokens and replay

  function Tokens(n: Option<nat>): nat {
    match n case Some(v) => v case None => 0
  }

  /** Token counts summed over the responses of a trace. */
  function InputTokens(s: seq<TraceStep>): nat {
    if s == [] then 0
    else
      var p := s[|s| - 1].payload;
      InputTokens(s[..|s| - 1]) + if p.ModelResponse? then Tokens(p.inputTokens) else 0
  }

  function OutputTokens(s: seq<TraceStep>): nat {
    if s == [] then 0
    else
      var p := s[|s| - 1].payload;
      OutputTokens(s[..|s| - 1]) + if p.ModelResponse? then Tokens(p.outputTokens) else 0
  }

  /** The name an error is recorded under. */
  ghost predicate IsNamed(name: string, e: ToolError) {
    match e
    case NotFoundError => name == "NotFoundError"
    case PolicyViolationError => name == "PolicyViolationError"
    case TypeError => name == "TypeError"
    case UnknownToolError => name == "UnknownToolError"
  }

  /** A payload records this outcome of a call. */
  ghost predicate Records(p: Payload, callId: string, outcome: Outcome) {
    match outcome
    case Returned(value) => p == ResultPayload(callId, value)
    case Failed(error) => p.ErrorPayload? && IsNamed(p.errorType, error)
    case Escaped(_) => false
  }

  function CallAt(p: Payload): ToolCall
    requires p.CallPayload?
  {
    ToolCall(p.service, p.operation, p.arguments)
  }

  /** Every recorded call is followed by the outcome that replaying the trace gives it. */
  ghost predicate Replays(s: seq<TraceStep>, initial: World) {
    forall i | 0 <= i < |s| && s[i].payload.CallPayload? ::
      && i + 1 < |s|
      && Records(s[i + 1].payload, s[i].payload.callId,
                 Step(After(initial, ExtractCalls(s[..i])), CallAt(s[i].payload)).outcome)
  }

  /** What holds of the locals whenever a turn starts. */
  ghost predicate Accounted(cfg: Config, at: Locals) {
    && ValidSteps(at.steps)
    && at.inputTokens == InputTokens(at.steps) && at.outputTokens == OutputTokens(at.steps)
    && at.world == After(cfg.initial, ExtractCalls(at.steps))
    && Replays(at.steps, cfg.initial)
  }

  // ---------------------------------------------------------------- adding steps

  lemma SnocReads(s: seq<TraceStep>, step: TraceStep)
    ensures if step.payload.CallPayload? then ExtractCalls(s + [step]) == ExtractCalls(s) + [CallAt(step.payload)]
            else ExtractCalls(s + [step]) == ExtractCalls(s)
    ensures InputTokens(s + [step])
         == InputTokens(s) + if step.payload.ModelResponse? then Tokens(step.payload.inputTokens) else 0
    ensures OutputTokens(s + [step])
         == OutputTokens(s) + if step.payload.ModelResponse? then Tokens(step.payload.outputTokens) else 0
  {
    assert (s + [step])[..|s|] == s;
  }

  lemma ValidPush(s: seq<TraceStep>, step: TraceStep)
    requires ValidSteps(s) && step.sequenceNo == |s|
    requires step.parent.Some? ==> IdAmong(step.parent.value, s)
    ensures ValidSteps(s + [step])
  {
    var r := s + [step];
    assert r[..|s|] == s;
    forall i | 0 <= i < |s| ensures r[..i] == s[..i] {}
  }

  lemma ReplaysPush(s: seq<TraceStep>, step: TraceStep, initial: World)
    requires Replays(s, initial) && !step.payload.CallPayload?
    ensures Replays(s + [step], initial)
  {
    var r := s + [step];
    forall i | 0 <= i < |r| && r[i].payload.CallPayload?
      ensures i + 1 < |r|
           && Records(r[i + 1].payload, r[i].payload.callId,
                      Step(After(initial, ExtractCalls(r[..i])), CallAt(r[i].payload)).outcome)
    {
      assert s[i] == r[i] && r[..i] == s[..i];
    }
  }

  /** Appending a step that calls no tool keeps the accounts, its tokens counted. */
  lemma QuietPush(cfg: Config, at: Locals, step: TraceStep, next: Locals)
    requires Accounted(cfg, at) && !step.payload.CallPayload? && step.sequenceNo == |at.steps|
    requires step.parent.Some? ==> IdAmong(step.parent.value, at.steps)
    requires next.steps == at.steps + [step] && next.world == at.world
    requires next.inputTokens
          == at.inputTokens + if step.payload.ModelResponse? then Tokens(step.payload.inputTokens) else 0
    requires next.outputTokens
          == at.outputTokens + if step.payload.ModelResponse? then Tokens(step.payload.outputTokens) else 0
    ensures Accounted(cfg, next)
  {
    SnocReads(at.steps, step);
    ValidPush(at.steps, step);
    ReplaysPush(at.steps, step, cfg.initial);
  }

  lemma PlainPush(cfg: Config, at: Locals, payload: Payload, parent: Option<Id>)
    requires Accounted(cfg, at) && !payload.CallPayload? && !payload.ModelResponse?
    requires parent.Some? ==> IdAmong(parent.value, at.steps)
    ensures Accounted(cfg, Push(cfg, at, payload, parent))
  {
    QuietPush(cfg, at, NextStep(cfg, at.steps, payload, parent, None), Push(cfg, at, payload, parent));
  }

  // ---------------------------------------------------------------- asking the model

  /** Counting a model call changes no account. */
  lemma TriedAccounted(cfg: Config, at: Locals)
    requires Accounted(cfg, at)
    ensures Accounted(cfg, at.(asked := at.asked + 1))
  {
  }

  lemma {:induction false} AskAccounted(cfg: Config, at: Locals, request: Id, attempt: Positive)
    requires Accounted(cfg, at) && IdAmong(request, at.steps)
    ensures Accounted(cfg, Ask(cfg, at, request, attempt).0)
    decreases cfg.maxRetries + 1 - attempt
  {
    hide Accounted, ExtractCalls, After, Step;
    var tried := at.(asked := at.asked + 1);
    TriedAccounted(cfg, at);
    match cfg.client(at.asked)
    case Transient(message) =>
      if attempt > cfg.maxRetries {
        PlainPush(cfg, tried, ErrorPayload("ModelError", message), Some(request));
      } else {
        var pushed := Push(cfg, tried, RetryPayload(attempt, message), Some(request));
        PlainPush(cfg, tried, RetryPayload(attempt, message), Some(request));
        IdsKept(at.steps, pushed.steps);
        AskAccounted(cfg, pushed, request, attempt + 1);
      }
    case _ =>
  }

  lemma {:induction false} AskShape(cfg: Config, at: Locals, request: Id, attempt: Positive)
    requires attempt <= cfg.maxRetries + 1
    ensures var (next, answer) := Ask(cfg, at, request, attempt);
      at.steps <= next.steps &&
      (answer.Some? ==>
         && |next.steps| - |at.steps| <= cfg.maxRetries + 1 - attempt
         && IsRetriesFrom(next.steps[|at.steps|..], request, attempt))
    decreases cfg.maxRetries + 1 - attempt
  {
    match cfg.client(at.asked)
    case Transient(message) =>
      if attempt <= cfg.maxRetries {
        var pushed := Push(cfg, at.(asked := at.asked + 1), RetryPayload(attempt, message), Some(request));
        AskShape(cfg, pushed, request, attempt + 1);
        var (next, answer) := Ask(cfg, at, request, attempt);
        var more, rest := next.steps[|at.steps|..], next.steps[|pushed.steps|..];
        assert more == [pushed.steps[|at.steps|]] + rest;
      }
    case _ =>
  }

  lemma AskFromAccounted(cfg: Config, at: Locals)
    requires Accounted(cfg, at)
    ensures var (asked, answer) := AskFrom(cfg, at);
      && Accounted(cfg, asked)
      && (answer.Some? ==> Accounted(cfg, Answered(cfg, asked, cfg.ids(|at.steps|), answer.value)))
  {
    var request := cfg.ids(|at.steps|);
    var pushed := Push(cfg, at, RequestPayload(cfg, at), None);
    PlainPush(cfg, at, RequestPayload(cfg, at), None);
    assert pushed.steps[|at.steps|].id == request;
    AskAccounted(cfg, pushed, request, 1);
    AskFrames(cfg, pushed, request, 1);
    var (asked, answer) := AskFrom(cfg, at);
    IdsKept(pushed.steps, asked.steps);
    if answer.Some? {
      QuietPush(cfg, asked, NextStep(cfg, asked.steps, ResponsePayload(answer.value), Some(request), None),
                Answered(cfg, asked, request, answer.value));
    }
  }

  lemma AskFromShape(cfg: Config, at: Locals)
    ensures var (asked, answer) := AskFrom(cfg, at);
      at.steps <= asked.steps &&
      (answer.Some? ==>
         var s := Answered(cfg, asked, cfg.ids(|at.steps|), answer.value).steps;
         && at.steps <= s && IsAsk(s[|at.steps|..], cfg.maxRetries)
         && s[|s| - 1].payload == ResponsePayload(answer.value))
  {
    var request := cfg.ids(|at.steps|);
    var pushed := Push(cfg, at, RequestPayload(cfg, at), None);
    AskShape(cfg, pushed, request, 1);
    var (asked, answer) := AskFrom(cfg, at);
    if answer.Some? {
      var response := NextStep(cfg, asked.steps, ResponsePayload(answer.value), Some(request), None);
      var retries := asked.steps[|pushed.steps|..];
      var s := (asked.steps + [response])[|at.steps|..];
      assert s == [pushed.steps[|at.steps|]] + retries + [response];
      assert s[1..|s| - 1] == retries;
    }
  }

  // ---------------------------------------------------------------- running the tools

  lemma InvokeAccounted(cfg: Config, at: Locals, c: ToolCallRequest)
    requires Accounted(cfg, at)
    ensures var (next, ok) := Invoke(cfg, at, c); ok ==> Accounted(cfg, next)
  {
    var (next, ok) := Invoke(cfg, at, c);
    if ok {
      var call := NextStep(cfg, at.steps, CallPayload(c.callId, c.service, c.operation, c.arguments), None, None);
      var s := at.steps + [call];
      var outcome := next.steps[|s|];
      assert next.steps == s + [outcome];
      SnocReads(at.steps, call);
      SnocReads(s, outcome);
      ValidPush(at.steps, call);
      assert s[|at.steps|].id == call.id;
      ValidPush(s, outcome);
      AfterOneMore(cfg.initial, ExtractCalls(at.steps), CallOf(c));
      ReplaysPair(at.steps, call, outcome, cfg.initial);
    }
  }

  lemma AfterOneMore(w: World, calls: seq<ToolCall>, call: ToolCall)
    ensures After(w, calls + [call]) == Step(After(w, calls), call).world
  {
    assert (calls + [call])[..|calls|] == calls;
  }

  lemma ReplaysPair(s: seq<TraceStep>, call: TraceStep, outcome: TraceStep, initial: World)
    requires Replays(s, initial) && call.payload.CallPayload? && !outcome.payload.CallPayload?
    requires Records(outcome.payload, call.payload.callId,
                     Step(After(initial, ExtractCalls(s)), CallAt(call.payload)).outcome)
    ensures Replays(s + [call] + [outcome], initial)
  {
    hide Step, After, Records, ExtractCalls;
    var r := s + [call] + [outcome];
    forall i | 0 <= i < |r| && r[i].payload.CallPayload?
      ensures i + 1 < |r|
           && Records(r[i + 1].payload, r[i].payload.callId,
                      Step(After(initial, ExtractCalls(r[..i])), CallAt(r[i].payload)).outcome)
    {
      assert r[..|s|] == s;
      if i < |s| {
        assert s[i] == r[i] && r[..i] == s[..i];
      }
    }
  }

  lemma InvokeShape(cfg: Config, at: Locals, c: ToolCallRequest)
    ensures var (next, ok) := Invoke(cfg, at, c);
      && at.steps <= next.steps
      && (ok ==> && |next.steps| == |at.steps| + 2
                 && IsPair(next.steps[|at.steps|], next.steps[|at.steps| + 1], VarsOf(c)))
  {
  }

  lemma {:induction false} InvokeAllAccounted(cfg: Config, at: Locals, calls: seq<ToolCallRequest>)
    requires Accounted(cfg, at)
    ensures var (next, ok) := InvokeAll(cfg, at, calls); ok ==> Accounted(cfg, next)
    decreases calls
  {
    if calls == [] {
    } else {
      InvokeAccounted(cfg, at, calls[0]);
      var (one, ok) := Invoke(cfg, at, calls[0]);
      if ok {
        InvokeAllAccounted(cfg, one, calls[1..]);
      }
    }
  }

  lemma {:induction false} InvokeAllShape(cfg: Config, at: Locals, calls: seq<ToolCallRequest>)
    ensures var (next, ok) := InvokeAll(cfg, at, calls);
      && at.steps <= next.steps
      && (ok ==> IsPairs(next.steps[|at.steps|..], VarsOfAll(calls)))
    decreases calls
  {
    if calls == [] {
    } else {
      InvokeShape(cfg, at, calls[0]);
      var (one, ok) := Invoke(cfg, at, calls[0]);
      if ok {
        InvokeAllShape(cfg, one, calls[1..]);
        var next := InvokeAll(cfg, one, calls[1..]).0;
        var s := next.steps[|at.steps|..];
        assert s[2..] == next.steps[|one.steps|..];
        assert s[0] == one.steps[|at.steps|] && s[1] == one.steps[|at.steps| + 1];
        assert VarsOfAll(calls)[1..] == VarsOfAll(calls[1..]);
      }
    }
  }

  // ---------------------------------------------------------------- one turn

  lemma TurnAccounted(cfg: Config, at: Locals)
    requires Accounted(cfg, at)
    ensures match TakeTurn(cfg, at)
      case Go(next) => Accounted(cfg, next)
      case Stop(end) => end.Completed? ==> Accounted(cfg, end.at)
  {
    AskFromAccounted(cfg, at);
    var (asked, answer) := AskFrom(cfg, at);
    if answer.Some? {
      var reply := answer.value;
      var answered := Answered(cfg, asked, cfg.ids(|at.steps|), reply);
      if reply.toolCalls == [] {
        PlainPush(cfg, answered, FinalAnswer(FinalText(reply)), None);
      } else {
        InvokeAllAccounted(cfg, Replying(answered, reply), reply.toolCalls);
      }
    }
  }

  /** A turn that goes on has the shape of a turn; one that completes the run has the
      shape of an answer. */
  ghost predicate TurnShaped(cfg: Config, at: Locals, turn: Turn) {
    match turn
    case Go(next) => at.steps <= next.steps && IsTurn(next.steps[|at.steps|..], cfg.maxRetries)
    case Stop(Raised(_)) => true
    case Stop(Completed(end, output, exceeded)) =>
      at.steps <= end.steps && !exceeded && output.Some?
      && IsAnswer(end.steps[|at.steps|..], cfg.maxRetries, output.value)
  }

  lemma TurnShape(cfg: Config, at: Locals)
    ensures TurnShaped(cfg, at, TakeTurn(cfg, at))
  {
    AskFromShape(cfg, at);
    var (asked, answer) := AskFrom(cfg, at);
    if answer.Some? {
      var reply := answer.value;
      var answered := Answered(cfg, asked, cfg.ids(|at.steps|), reply);
      if reply.toolCalls == [] {
        AnswerShape(cfg, at, answered, reply);
      } else {
        ToolTurnShape(cfg, at, answered, reply);
      }
    }
  }

  lemma AnswerShape(cfg: Config, at: Locals, answered: Locals, reply: ModelReply)
    requires at.steps <= answered.steps && IsAsk(answered.steps[|at.steps|..], cfg.maxRetries)
    requires answered.steps[|answered.steps| - 1].payload == ResponsePayload(reply) && reply.toolCalls == []
    ensures var end := Push(cfg, answered, FinalAnswer(FinalText(reply)), None);
      at.steps <= end.steps && IsAnswer(end.steps[|at.steps|..], cfg.maxRetries, FinalText(reply))
  {
    var s := Push(cfg, answered, FinalAnswer(FinalText(reply)), None).steps[|at.steps|..];
    assert s[..|s| - 1] == answered.steps[|at.steps|..];
    assert VarsOfAll(reply.toolCalls) == [];
  }

  lemma ToolTurnShape(cfg: Config, at: Locals, answered: Locals, reply: ModelReply)
    requires at.steps <= answered.steps && IsAsk(answered.steps[|at.steps|..], cfg.maxRetries)
    requires answered.steps[|answered.steps| - 1].payload == ResponsePayload(reply) && reply.toolCalls != []
    ensures var (done, ok) := InvokeAll(cfg, Replying(answered, reply), reply.toolCalls);
      ok ==> at.steps <= done.steps && IsTurn(done.steps[|at.steps|..], cfg.maxRetries)
  {
    InvokeAllShape(cfg, Replying(answered, reply), reply.toolCalls);
    var (done, ok) := InvokeAll(cfg, Replying(answered, reply), reply.toolCalls);
    if ok {
      var s, n := done.steps[|at.steps|..], |answered.steps| - |at.steps|;
      assert s[..n] == answered.steps[|at.steps|..];
      assert s[n..] == done.steps[|answered.steps|..];
      assert |VarsOfAll(reply.toolCalls)| > 0;
      assert IsTurnAt(s, n, cfg.maxRetries);
    }
  }

  // ---------------------------------------------------------------- main results

  lemma {:induction false} LoopAccounted(cfg: Config, at: Locals, left: nat)
    requires Accounted(cfg, at)
    ensures var end := Loop(cfg, at, left); end.Completed? ==> Accounted(cfg, end.at)
    decreases left
  {
    if left == 0 {
      PlainPush(cfg, at, StepsExceeded(cfg), None);
    } else {
      TurnAccounted(cfg, at);
      var turn := TakeTurn(cfg, at);
      if turn.Go? {
        LoopAccounted(cfg, turn.next, left - 1);
      }
    }
  }

  lemma {:induction false} LoopShape(cfg: Config, at: Locals, cuts: seq<nat>, left: nat)
    requires IsTurns(at.steps, cuts, cfg.maxRetries) && |cuts| - 1 + left == cfg.maxSteps
    ensures var end := Loop(cfg, at, left);
      end.Completed? ==> IsRun(end.at.steps, cfg.maxSteps, cfg.maxRetries, end.finalOutput, end.exceeded)
    decreases left
  {
    hide TakeTurn;
    if left == 0 {
      var s := Push(cfg, at, StepsExceeded(cfg), None).steps;
      EndsRun(at.steps, s, cuts, cfg.maxSteps, cfg.maxRetries, None, true);
    } else {
      TurnShape(cfg, at);
      match TakeTurn(cfg, at)
      case Go(next) =>
        OneMoreTurn(at.steps, next.steps, cuts, cfg.maxRetries);
        LoopShape(cfg, next, cuts + [|next.steps|], left - 1);
      case Stop(Completed(end, output, exceeded)) =>
        EndsRun(at.steps, end.steps, cuts, cfg.maxSteps, cfg.maxRetries, output, exceeded);
      case Stop(Raised(_)) =>
    }
  }

  lemma OneMoreTurn(s: seq<TraceStep>, t: seq<TraceStep>, cuts: seq<nat>, maxRetries: nat)
    requires IsTurns(s, cuts, maxRetries) && s <= t && IsTurn(t[|s|..], maxRetries)
    ensures IsTurns(t, cuts + [|t|], maxRetries)
  {
    var longer := cuts + [|t|];
    assert t[|s|..|t|] == t[|s|..];
    forall i | 0 < i < |longer| ensures IsTurnBetween(t, longer[i - 1], longer[i], maxRetries) {
      if i < |cuts| {
        assert IsTurnBetween(s, cuts[i - 1], cuts[i], maxRetries);
        assert t[cuts[i - 1]..cuts[i]] == s[cuts[i - 1]..cuts[i]];
      }
    }
  }

  lemma EndsRun(s: seq<TraceStep>, t: seq<TraceStep>, cuts: seq<nat>, maxSteps: nat, maxRetries: nat,
                finalOutput: Option<string>, exceeded: bool)
    requires IsTurns(s, cuts, maxRetries) && s <= t
    requires IsEnd(t[|s|..], |cuts| - 1, maxSteps, maxRetries, finalOutput, exceeded)
    ensures IsRun(t, maxSteps, maxRetries, finalOutput, exceeded)
  {
    assert t[..|s|] == s;
    assert IsRunCut(t, cuts, maxSteps, maxRetries, finalOutput, exceeded);
  }

  lemma StartAccounted(cfg: Config)
    ensures Accounted(cfg, Start(cfg))
  {
  }

  /** Main result: the trace of every completed run is fewer than `maxSteps` tool turns and
      then an answer, or exactly `maxSteps` tool turns and then the step-limit error. */
  lemma TraceGrammar(cfg: Config)
    ensures var end := Run(cfg);
      end.Completed? ==>
        && ValidSteps(end.at.steps)
        && IsRun(end.at.steps, cfg.maxSteps, cfg.maxRetries, end.finalOutput, end.exceeded)
  {
    StartAccounted(cfg);
    LoopAccounted(cfg, Start(cfg), cfg.maxSteps);
    LoopShape(cfg, Start(cfg), [0], cfg.maxSteps);
  }

  /** Main result: everything the result of a run reports can be recomputed from its trace.
      The final state is the replay of the recorded calls from the initial state, each
      recorded outcome is the one the replay gives, and the token totals are the sums over
      the recorded responses. */
  lemma ReplayComplete(cfg: Config)
    ensures var end := Run(cfg);
      end.Completed? ==>
        && end.at.world == After(cfg.initial, ExtractCalls(end.at.steps))
        && Replays(end.at.steps, cfg.initial)
        && end.at.inputTokens == InputTokens(end.at.steps)
        && end.at.outputTokens == OutputTokens(end.at.steps)
  {
    StartAccounted(cfg);
    LoopAccounted(cfg, Start(cfg), cfg.maxSteps);
  }

  /** A trace is never empty, so every attempt has a first event to store. */
  lemma TraceNotEmpty(cfg: Config)
    ensures Run(cfg).Completed? ==> Run(cfg).at.steps != []
  {
    LoopShape(cfg, Start(cfg), [0], cfg.maxSteps);
  }
}
