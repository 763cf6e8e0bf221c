/** backend/app/trace.py: the ordered, append-only record of one run, and its storage form. */
module TraceModel {
  import opened Json
  import opened Redaction
  import opened Schema

  type Id = nat
  type Positive = n: int | 1 <= n witness 1

  datatype EventType = MODEL_REQUEST | MODEL_RESPONSE | TOOL_CALL | TOOL_RESULT | RETRY | ERROR | FINAL_ANSWER

  datatype Payload =
    | ModelRequest(messages: seq<Dict>, model: string, params: Dict)
    | ModelResponse(reply: Option<string>, toolCalls: seq<Dict>, finishReason: string,
                    inputTokens: Option<nat>, outputTokens: Option<nat>)
    | CallPayload(callId: string, service: string, operation: string, arguments: Dict)
    | ResultPayload(callId: string, result: Json)
    | RetryPayload(attempt: Positive, reason: string)
    | ErrorPayload(errorType: string, message: string)
    | FinalAnswer(content: string)

  datatype TraceStep = TraceStep(
    id: Id, sequenceNo: nat, payload: Payload, parent: Option<Id>, duration: Option<nat>)

  /** The row a step is stored as. */
  datatype Event = Event(
    id: Id, sequenceNo: nat, eventType: EventType, payload: Dict, parent: Option<Id>, duration: Option<nat>)

  function TypeOf(p: Payload): EventType {
    match p
    case ModelRequest(_, _, _) => MODEL_REQUEST
    case ModelResponse(_, _, _, _, _) => MODEL_RESPONSE
    case CallPayload(_, _, _, _) => TOOL_CALL
    case ResultPayload(_, _) => TOOL_RESULT
    case RetryPayload(_, _) => RETRY
    case ErrorPayload(_, _) => ERROR
    case FinalAnswer(_) => FINAL_ANSWER
  }

  // ---------------------------------------------------------------- payloads as JSON

  function DictsJson(ds: seq<Dict>): Json {
    Arr(seq(|ds|, i requires 0 <= i < |ds| => Obj(ds[i])))
  }

  function TextJson(t: Option<string>): Json {
    match t case None => Null case Some(s) => Str(s)
  }

  function CountJson(n: Option<nat>): Json {
    match n case None => Null case Some(v) => Num(v)
  }

  /** `payload.model_dump(mode="json", exclude={"event_type"})`. */
  function Dump(p: Payload): Dict {
    match p
    case ModelRequest(messages, model, params) =>
      map["messages" := DictsJson(messages), "model" := Str(model), "params" := Obj(params)]
    case ModelResponse(reply, toolCalls, finishReason, inputTokens, outputTokens) =>
      map["content" := TextJson(reply), "tool_calls" := DictsJson(toolCalls),
          "finish_reason" := Str(finishReason),
          "input_tokens" := CountJson(inputTokens), "output_tokens" := CountJson(outputTokens)]
    case CallPayload(callId, service, operation, arguments) =>
      map["call_id" := Str(callId), "service" := Str(service), "operation" := Str(operation),
          "arguments" := Obj(arguments)]
    case ResultPayload(callId, result) => map["call_id" := Str(callId), "result" := result]
    case RetryPayload(attempt, reason) => map["attempt" := Num(attempt), "reason" := Str(reason)]
    case ErrorPayload(errorType, message) => map["error_type" := Str(errorType), "message" := Str(message)]
    case FinalAnswer(content) => map["content" := Str(content)]
  }

  predicate IsText(d: Dict, key: string) {
    key in d && d[key].Str?
  }

  predicate IsOptionalText(d: Dict, key: string) {
    Get(d, key).Null? || Get(d, key).Str?
  }

  predicate IsOptionalCount(d: Dict, key: string) {
    Get(d, key).Null? || (Get(d, key).Num? && Get(d, key).n >= 0)
  }

  predicate AreDicts(v: Json) {
    v.Arr? && forall i | 0 <= i < |v.items| :: v.items[i].Obj?
  }

  function Dicts(v: Json): seq<Dict>
    requires AreDicts(v)
  {
    seq(|v.items|, i requires 0 <= i < |v.items| => v.items[i].fields)
  }

  function Text(v: Json): Option<string> {
    if v.Str? then Some(v.s) else None
  }

  function Count(v: Json): Option<nat> {
    if v.Num? && v.n >= 0 then Some(v.n) else None
  }

  /** A key that may be absent, and then reads as the schema's default. */
  function Default(d: Dict, key: string, default: Json): Json {
    if key in d then d[key] else default
  }

  /** Validation of a stored payload against the schema its event type selects. */
  function Parse(eventType: EventType, d: Dict): Option<Payload> {
    match eventType
    case MODEL_REQUEST =>
      var params := Default(d, "params", Obj(map[]));
      if "messages" in d && AreDicts(d["messages"]) && IsText(d, "model") && params.Obj?
      then Some(ModelRequest(Dicts(d["messages"]), d["model"].s, params.fields)) else None
    case MODEL_RESPONSE =>
      var toolCalls := Default(d, "tool_calls", Arr([]));
      if IsOptionalText(d, "content") && AreDicts(toolCalls) && IsText(d, "finish_reason")
         && IsOptionalCount(d, "input_tokens") && IsOptionalCount(d, "output_tokens")
      then Some(ModelResponse(Text(Get(d, "content")), Dicts(toolCalls), d["finish_reason"].s,
                              Count(Get(d, "input_tokens")), Count(Get(d, "output_tokens")))) else None
    case TOOL_CALL =>
      var arguments := Default(d, "arguments", Obj(map[]));
      if IsText(d, "call_id") && IsText(d, "service") && IsText(d, "operation") && arguments.Obj?
      then Some(CallPayload(d["call_id"].s, d["service"].s, d["operation"].s, arguments.fields)) else None
    case TOOL_RESULT =>
      if IsText(d, "call_id") then Some(ResultPayload(d["call_id"].s, Get(d, "result"))) else None
    case RETRY =>
      if "attempt" in d && d["attempt"].Num? && d["attempt"].n >= 1 && IsText(d, "reason")
      then Some(RetryPayload(d["attempt"].n, d["reason"].s)) else None
    case ERROR =>
      if IsText(d, "error_type") && IsText(d, "message")
      then Some(ErrorPayload(d["error_type"].s, d["message"].s)) else None
    case FINAL_ANSWER =>
      if IsText(d, "content") then Some(FinalAnswer(d["content"].s)) else None
  }

  ghost predicate Texts(d: Dict, keys: set<string>) {
    forall k | k in keys :: Get(d, k).Str?
  }

  /** What a stored payload needs in order to be accepted as one of each type; other keys are
      ignored, and keys with a default may be missing. */
  lemma AcceptedPayloads(t: EventType, d: Dict)
    ensures Parse(t, d).Some? ==> TypeOf(Parse(t, d).value) == t
    ensures Parse(t, d).Some? <==> match t
      case MODEL_REQUEST =>
        Texts(d, {"model"}) && AreDicts(Get(d, "messages")) && ("params" in d ==> d["params"].Obj?)
      case MODEL_RESPONSE =>
        && Texts(d, {"finish_reason"}) && (Get(d, "content").Str? || Get(d, "content") == Null)
        && ("tool_calls" in d ==> AreDicts(d["tool_calls"]))
        && forall k | k in {"input_tokens", "output_tokens"} ::
             Get(d, k) == Null || (Get(d, k).Num? && Get(d, k).n >= 0)
      case TOOL_CALL => Texts(d, {"call_id", "service", "operation"}) && ("arguments" in d ==> d["arguments"].Obj?)
      case TOOL_RESULT => Texts(d, {"call_id"})
      case RETRY => Texts(d, {"reason"}) && Get(d, "attempt").Num? && Get(d, "attempt").n >= 1
      case ERROR => Texts(d, {"error_type", "message"})
      case FINAL_ANSWER => Texts(d, {"content"})
  {
    forall k { TextIs(d, k); }
  }

  lemma TextIs(d: Dict, k: string)
    ensures IsText(d, k) <==> Texts(d, {k})
  {
  }

  // ---------------------------------------------------------------- redaction, on payloads

  function RedactDicts(ds: seq<Dict>): seq<Dict> {
    seq(|ds|, i requires 0 <= i < |ds| => RedactDict(ds[i]))
  }

  /** What is left of a payload once its stored form has been redacted. */
  function RedactPayload(p: Payload): Payload {
    match p
    case ModelRequest(messages, model, params) => ModelRequest(RedactDicts(messages), model, RedactDict(params))
    case ModelResponse(reply, toolCalls, finishReason, inTok, outTok) =>
      ModelResponse(reply, RedactDicts(toolCalls), finishReason, inTok, outTok)
    case CallPayload(callId, service, operation, arguments) =>
      CallPayload(callId, service, operation, RedactDict(arguments))
    case ResultPayload(callId, result) => ResultPayload(callId, Redact(result))
    case _ => p
  }

  function RedactEvent(e: Event): Event {
    e.(payload := RedactDict(e.payload))
  }

  function RedactEvents(events: seq<Event>): seq<Event> {
    seq(|events|, i requires 0 <= i < |events| => RedactEvent(events[i]))
  }

  lemma RedactDictsJson(ds: seq<Dict>)
    ensures Redact(DictsJson(ds)) == DictsJson(RedactDicts(ds))
  {
    forall i | 0 <= i < |ds| ensures Redact(Obj(ds[i])) == Obj(RedactDict(ds[i])) {}
    assert Redact(DictsJson(ds)).items == DictsJson(RedactDicts(ds)).items;
  }

  lemma DictsBack(ds: seq<Dict>)
    ensures AreDicts(DictsJson(ds)) && Dicts(DictsJson(ds)) == ds
  {
    assert Dicts(DictsJson(ds)) == ds;
  }

  /** Redacting the stored form of a payload gives the stored form of the redacted payload. */
  lemma RedactDump(p: Payload)
    ensures RedactDict(Dump(p)) == Dump(RedactPayload(p))
  {
    SchemaKeysInsensitive();
    var a, b := RedactDict(Dump(p)), Dump(RedactPayload(p));
    forall k | k in Dump(p) ensures !Sensitive(k) {
      DumpKeys(p, k);
    }
    match p {
      case ModelRequest(messages, _, _) => RedactDictsJson(messages);
      case ModelResponse(_, toolCalls, _, _, _) => RedactDictsJson(toolCalls);
      case _ =>
    }
    assert a.Keys == Dump(p).Keys == b.Keys;
    forall k | k in a ensures a[k] == b[k] {
      assert a[k] == Redact(Dump(p)[k]);
    }
  }

  lemma DumpKeys(p: Payload, k: string)
    requires k in Dump(p)
    ensures k in SCHEMA_KEYS
  {
    var s := SCHEMA_KEYS;
    assert s[0] == "messages" && s[1] == "model" && s[2] == "params" && s[3] == "content";
    assert s[4] == "tool_calls" && s[5] == "finish_reason" && s[6] == "input_tokens" && s[7] == "output_tokens";
    assert s[8] == "call_id" && s[9] == "service" && s[10] == "operation" && s[11] == "arguments";
    assert s[12] == "result" && s[13] == "attempt" && s[14] == "reason" && s[15] == "error_type";
    assert s[16] == "message";
  }

  /** A dumped payload validates back to itself. */
  lemma ParseDump(p: Payload)
    ensures Parse(TypeOf(p), Dump(p)) == Some(p)
  {
    match p
    case ModelRequest(messages, _, _) => DictsBack(messages);
    case ModelResponse(_, toolCalls, _, _, _) => DictsBack(toolCalls);
    case _ =>
  }

  // ---------------------------------------------------------------- the trace as a list

  ghost predicate IdAmong(id: Id, steps: seq<TraceStep>) {
    exists j | 0 <= j < |steps| :: steps[j].id == id
  }

  /** What every trace keeps: dense sequence numbers, and parents among the earlier steps. */
  ghost predicate ValidSteps(steps: seq<TraceStep>) {
    forall i | 0 <= i < |steps| ::
      && steps[i].sequenceNo == i
      && (steps[i].parent.Some? ==> IdAmong(steps[i].parent.value, steps[..i]))
  }

  function EventOf(s: TraceStep): Event {
    Event(s.id, s.sequenceNo, TypeOf(s.payload), Dump(s.payload), s.parent, s.duration)
  }

  /** How a step is stored: its type and, under these names, the fields of its payload. */
  lemma StoredFields(s: TraceStep)
    ensures var e, p := EventOf(s), s.payload;
      && e.id == s.id && e.sequenceNo == s.sequenceNo && e.parent == s.parent && e.duration == s.duration
      && (e.eventType == MODEL_REQUEST <==> p.ModelRequest?) && (e.eventType == MODEL_RESPONSE <==> p.ModelResponse?)
      && (e.eventType == TOOL_CALL <==> p.CallPayload?) && (e.eventType == TOOL_RESULT <==> p.ResultPayload?)
      && (e.eventType == RETRY <==> p.RetryPayload?) && (e.eventType == ERROR <==> p.ErrorPayload?)
      && (e.eventType == FINAL_ANSWER <==> p.FinalAnswer?)
      && (p.ModelRequest? ==> e.payload.Keys == {"messages", "model", "params"}
                              && Get(e.payload, "model") == Str(p.model) && Get(e.payload, "params") == Obj(p.params))
      && (p.ModelResponse? ==>
            && e.payload.Keys == {"content", "tool_calls", "finish_reason", "input_tokens", "output_tokens"}
            && Get(e.payload, "content") == (if p.reply.Some? then Str(p.reply.value) else Null)
            && Get(e.payload, "finish_reason") == Str(p.finishReason)
            && Get(e.payload, "input_tokens") == (if p.inputTokens.Some? then Num(p.inputTokens.value) else Null)
            && Get(e.payload, "output_tokens") == (if p.outputTokens.Some? then Num(p.outputTokens.value) else Null))
      && (p.CallPayload? ==>
            && e.payload.Keys == {"call_id", "service", "operation", "arguments"}
            && Get(e.payload, "call_id") == Str(p.callId) && Get(e.payload, "service") == Str(p.service)
            && Get(e.payload, "operation") == Str(p.operation) && Get(e.payload, "arguments") == Obj(p.arguments))
      && (p.ResultPayload? ==> e.payload.Keys == {"call_id", "result"}
                               && Get(e.payload, "call_id") == Str(p.callId) && Get(e.payload, "result") == p.result)
      && (p.RetryPayload? ==> e.payload.Keys == {"attempt", "reason"}
                              && Get(e.payload, "attempt") == Num(p.attempt)
                              && Get(e.payload, "reason") == Str(p.reason))
      && (p.ErrorPayload? ==> e.payload.Keys == {"error_type", "message"}
                              && Get(e.payload, "error_type") == Str(p.errorType)
                              && Get(e.payload, "message") == Str(p.message))
      && (p.FinalAnswer? ==> e.payload.Keys == {"content"} && Get(e.payload, "content") == Str(p.content))
  {
    DistinctKeys();
  }

  lemma DistinctKeys()
    ensures "service" != "call_id" && "operation" != "arguments" && "content" != "call_id"
    ensures "model" != "messages" && "params" != "messages" && "model" != "params"
  {
    assert "service"[0] == 's' && "call_id"[0] == 'c' && "content"[1] == 'o' && "call_id"[1] == 'a';
  }

  function ToStorage(steps: seq<TraceStep>): seq<Event> {
    seq(|steps|, i requires 0 <= i < |steps| => EventOf(steps[i]))
  }

  function RedactStep(s: TraceStep): TraceStep {
    s.(payload := RedactPayload(s.payload))
  }

  function RedactSteps(steps: seq<TraceStep>): seq<TraceStep> {
    seq(|steps|, i requires 0 <= i < |steps| => RedactStep(steps[i]))
  }

  /** `extract_tool_calls`: the calls of a trace, in order. */
  function ExtractCalls(steps: seq<TraceStep>): seq<ToolCall> {
    if steps == [] then []
    else
      var last := steps[|steps| - 1].payload;
      ExtractCalls(steps[..|steps| - 1])
        + if last.CallPayload? then [ToolCall(last.service, last.operation, last.arguments)] else []
  }

  function RedactCalls(calls: seq<ToolCall>): seq<ToolCall> {
    seq(|calls|, i requires 0 <= i < |calls| => calls[i].(arguments := RedactDict(calls[i].arguments)))
  }

  /** The calls read off a redacted trace are the redacted calls of the trace. */
  lemma {:induction false} ExtractCommutesWithRedaction(steps: seq<TraceStep>)
    ensures ExtractCalls(RedactSteps(steps)) == RedactCalls(ExtractCalls(steps))
  {
    if steps != [] {
      var front := steps[..|steps| - 1];
      ExtractCommutesWithRedaction(front);
      assert RedactSteps(steps)[..|steps| - 1] == RedactSteps(front);
    }
  }

  // ---------------------------------------------------------------- ordering of events

  /** Stable insertion behind every event that is not later. */
  function Insert(events: seq<Event>, e: Event): seq<Event> {
    if events == [] || events[|events| - 1].sequenceNo <= e.sequenceNo then events + [e]
    else Insert(events[..|events| - 1], e) + [events[|events| - 1]]
  }

  /** `sorted(events, key=lambda event: event.sequence_no)`. */
  function Sorted(events: seq<Event>): seq<Event> {
    if events == [] then []
    else Insert(Sorted(events[..|events| - 1]), events[|events| - 1])
  }

  ghost predicate Ascending(events: seq<Event>) {
    forall i, j | 0 <= i < j < |events| :: events[i].sequenceNo <= events[j].sequenceNo
  }

  /** Insertion adds one event and keeps the others. */
  lemma {:induction false} InsertAdds(events: seq<Event>, e: Event)
    ensures multiset(Insert(events, e)) == multiset(events) + multiset{e}
    ensures forall i | 0 <= i < |Insert(events, e)| :: Insert(events, e)[i] in events || Insert(events, e)[i] == e
  {
    if events == [] || events[|events| - 1].sequenceNo <= e.sequenceNo {
    } else {
      InsertAdds(events[..|events| - 1], e);
      assert events == events[..|events| - 1] + [events[|events| - 1]];
    }
  }

  lemma {:induction false} InsertKeepsOrder(events: seq<Event>, e: Event)
    requires Ascending(events)
    ensures Ascending(Insert(events, e))
  {
    if events == [] || events[|events| - 1].sequenceNo <= e.sequenceNo {
    } else {
      var front := events[..|events| - 1];
      InsertKeepsOrder(front, e);
      InsertAdds(front, e);
    }
  }

  /** Sorting orders the events and keeps them all. */
  lemma {:induction false} SortedIsSorted(events: seq<Event>)
    ensures Ascending(Sorted(events)) && multiset(Sorted(events)) == multiset(events)
  {
    if events == [] {
    } else {
      hide Ascending, Insert;
      var front, last := events[..|events| - 1], events[|events| - 1];
      SortedIsSorted(front);
      InsertKeepsOrder(Sorted(front), last);
      InsertAdds(Sorted(front), last);
      assert events == front + [last];
    }
  }

  lemma {:induction false} SortedOfAscending(events: seq<Event>)
    requires Ascending(events)
    ensures Sorted(events) == events
  {
    if events != [] {
      var front, last := events[..|events| - 1], events[|events| - 1];
      SortedOfAscending(front);
      assert front == [] || front[|front| - 1].sequenceNo <= last.sequenceNo;
      assert Insert(front, last) == front + [last] == events;
    }
  }

  // ---------------------------------------------------------------- reading a trace back

  datatype TraceError = SequenceGap(at: nat) | UnknownParent(at: nat) | BadPayload(at: nat)

  datatype Read = Steps(steps: seq<TraceStep>) | Rejected(error: TraceError)

  ghost predicate EarlierId(ordered: seq<Event>, i: nat, id: Id)
    requires i <= |ordered|
  {
    exists j | 0 <= j < i :: ordered[j].id == id
  }

  /** The event at place `i` is in sequence, has an earlier parent if any, and a payload
      of the shape its type prescribes. */
  ghost predicate Readable(ordered: seq<Event>, i: nat)
    requires i < |ordered|
  {
    && ordered[i].sequenceNo == i
    && (ordered[i].parent.Some? ==> EarlierId(ordered, i, ordered[i].parent.value))
    && Parse(ordered[i].eventType, ordered[i].payload).Some?
  }

  ghost predicate ReadsAs(e: Event, s: TraceStep) {
    && Parse(e.eventType, e.payload) == Some(s.payload)
    && s.id == e.id && s.sequenceNo == e.sequenceNo && s.parent == e.parent && s.duration == e.duration
  }

  /** What reading a list of stored events yields: all of them, each turned back into a
      step, when every one is readable; otherwise the fault of the first that is not. */
  ghost predicate ReadsBack(events: seq<Event>, r: Read) {
    var ordered := Sorted(events);
    match r
    case Steps(steps) => |steps| == |ordered| && ReadsPrefix(ordered, steps)
    case Rejected(error) =>
      && error.at < |ordered|
      && (forall i | 0 <= i < error.at :: Readable(ordered, i))
      && Fault(ordered, error)
  }

  /** `steps` is the reading of the first |steps| events. */
  ghost predicate ReadsPrefix(ordered: seq<Event>, steps: seq<TraceStep>) {
    && |steps| <= |ordered|
    && forall i | 0 <= i < |steps| :: Readable(ordered, i) && ReadsAs(ordered[i], steps[i])
  }

  lemma ReadsOneMore(ordered: seq<Event>, steps: seq<TraceStep>, step: TraceStep)
    requires ReadsPrefix(ordered, steps) && |steps| < |ordered|
    requires Readable(ordered, |steps|) && ReadsAs(ordered[|steps|], step)
    ensures ReadsPrefix(ordered, steps + [step])
  {
  }

  ghost predicate Fault(ordered: seq<Event>, error: TraceError)
    requires error.at < |ordered|
  {
    match error
    case SequenceGap(at) => ordered[at].sequenceNo != at
    case UnknownParent(at) => ordered[at].parent.Some? && !EarlierId(ordered, at, ordered[at].parent.value)
    case BadPayload(at) => Parse(ordered[at].eventType, ordered[at].payload).None?
  }

  lemma SameIds(ordered: seq<Event>, steps: seq<TraceStep>, i: nat, id: Id)
    requires i == |steps| && ReadsPrefix(ordered, steps)
    ensures EarlierId(ordered, i, id) <==> IdAmong(id, steps)
  {
    if EarlierId(ordered, i, id) {
      var j :| 0 <= j < i && ordered[j].id == id;
      assert ReadsAs(ordered[j], steps[j]) && steps[j].id == id;
    }
    if IdAmong(id, steps) {
      var j :| 0 <= j < |steps| && steps[j].id == id;
      assert ReadsAs(ordered[j], steps[j]) && ordered[j].id == id;
    }
  }

  lemma StepAdded(steps: seq<TraceStep>, ids: set<Id>, step: TraceStep)
    requires ValidSteps(steps) && forall id :: id in ids <==> IdAmong(id, steps)
    requires step.sequenceNo == |steps| && (step.parent.Some? ==> step.parent.value in ids)
    ensures ValidSteps(steps + [step])
    ensures forall id :: id in ids + {step.id} <==> IdAmong(id, steps + [step])
  {
    var after := steps + [step];
    assert after[..|steps|] == steps;
    forall i | 0 <= i < |steps| ensures after[..i] == steps[..i] {}
    forall id ensures id in ids + {step.id} <==> IdAmong(id, after) {
      if id == step.id {
        assert after[|steps|].id == id;
      } else if IdAmong(id, steps) {
        var j :| 0 <= j < |steps| && steps[j].id == id;
        assert after[j].id == id;
      }
    }
  }

  /** The log of one run, growing step by step. */
  class Trace {
    var steps: seq<TraceStep>
    var stepIds: set<Id>

    ghost predicate Valid()
      reads this
    {
      && ValidSteps(steps)
      && (forall id :: id in stepIds <==> IdAmong(id, steps))
    }

    constructor ()
      ensures Valid() && steps == []
    {
      steps, stepIds := [], {};
    }

    /** `append`; None is the ValueError for a parent that is not in the trace. `id` is
        the fresh identifier of the new step. */
    method Append(id: Id, payload: Payload, parent: Option<Id>, duration: Option<nat>) returns (r: Option<TraceStep>)
      requires Valid()
      modifies this
      ensures Valid()
      ensures r.Some? <==> parent.None? || old(IdAmong(parent.value, steps))
      ensures r.None? ==> steps == old(steps)
      ensures r.Some? ==> r.value == TraceStep(id, |old(steps)|, payload, parent, duration)
      ensures r.Some? ==> steps == old(steps) + [r.value]
    {
      if parent.Some? && parent.value !in stepIds {
        return None;
      }
      var step := TraceStep(id, |steps|, payload, parent, duration);
      StepAdded(steps, stepIds, step);
      steps := steps + [step];
      stepIds := stepIds + {id};
      return Some(step);
    }

    /** `from_storage`. */
    method FromStorage(events: seq<Event>) returns (r: Read)
      requires Valid() && steps == []
      modifies this
      ensures ReadsBack(events, r)
      ensures r.Steps? ==> Valid() && steps == r.steps
    {
      var ordered := Sorted(events);
      for i := 0 to |ordered|
        invariant Valid() && |steps| == i && ReadsPrefix(ordered, steps)
      {
        var event := ordered[i];
        if event.sequenceNo != i {
          return Rejected(SequenceGap(i));
        }
        if event.parent.Some? {
          SameIds(ordered, steps, i, event.parent.value);
        }
        if event.parent.Some? && event.parent.value !in stepIds {
          return Rejected(UnknownParent(i));
        }
        var payload := Parse(event.eventType, event.payload);
        if payload.None? {
          return Rejected(BadPayload(i));
        }
        var step := TraceStep(event.id, event.sequenceNo, payload.value, event.parent, event.duration);
        StepAdded(steps, stepIds, step);
        ReadsOneMore(ordered, steps, step);
        steps := steps + [step];
        stepIds := stepIds + {event.id};
      }
      return Steps(steps);
    }
  }

  /** Reading is total and single-valued on success: a list is accepted exactly when every
      event of the sorted list is readable, and then only one list of steps is a reading. */
  lemma {:induction false} ReadsBackUnique(events: seq<Event>, r: Read, s: Read)
    requires ReadsBack(events, r) && ReadsBack(events, s) && r.Steps?
    ensures s == r
  {
    var ordered := Sorted(events);
    assert forall i | 0 <= i < |ordered| :: Readable(ordered, i);
    if s.Steps? {
      forall i | 0 <= i < |ordered| ensures r.steps[i] == s.steps[i] {
        assert ReadsAs(ordered[i], r.steps[i]) && ReadsAs(ordered[i], s.steps[i]);
      }
    }
  }

  /** A list of stored events is accepted exactly when, sorted, its numbers are 0, 1, 2, ...,
      every parent is an earlier event and every payload fits its type. */
  lemma AcceptedIffReadable(events: seq<Event>)
    ensures (exists steps :: ReadsBack(events, Steps(steps)))
        <==> forall i | 0 <= i < |Sorted(events)| :: Readable(Sorted(events), i)
  {
    var ordered := Sorted(events);
    if forall i | 0 <= i < |ordered| :: Readable(ordered, i) {
      var steps := seq(|ordered|, i requires 0 <= i < |ordered| && Readable(ordered, i) =>
        TraceStep(ordered[i].id, ordered[i].sequenceNo, Parse(ordered[i].eventType, ordered[i].payload).value,
                  ordered[i].parent, ordered[i].duration));
      forall i | 0 <= i < |steps| ensures ReadsAs(ordered[i], steps[i]) {
        assert Readable(ordered, i);
      }
      assert ReadsBack(events, Steps(steps));
    }
  }
}
