/** backend/app/comparison.py: where two traces of a task first diverge. */
module Comparison {
  import opened Json
  import opened Redaction
  import opened TraceModel

  datatype DivergenceType =
    WRONG_TOOL | INVALID_TOOL_ARGUMENT | TOOL_ERROR | PREMATURE_TERMINATION | FINAL_ANSWER_MISMATCH

  /** `_event_divergence`. */
  function EventDivergence(left: Event, right: Event): Option<DivergenceType> {
    var leftErrored, rightErrored := left.eventType == ERROR, right.eventType == ERROR;
    if leftErrored != rightErrored then Some(TOOL_ERROR)
    else if leftErrored && rightErrored then
      if left.payload == right.payload then None else Some(TOOL_ERROR)
    else if left.eventType != right.eventType then Some(WRONG_TOOL)
    else if left.eventType == TOOL_CALL
         && (Get(left.payload, "service"), Get(left.payload, "operation"))
         != (Get(right.payload, "service"), Get(right.payload, "operation")) then Some(WRONG_TOOL)
    else if left.eventType == TOOL_CALL && Get(left.payload, "arguments") != Get(right.payload, "arguments") then
      Some(INVALID_TOOL_ARGUMENT)
    else if left.eventType == FINAL_ANSWER && Get(left.payload, "content") != Get(right.payload, "content") then
      Some(FINAL_ANSWER_MISMATCH)
    else None
  }

  /** Which divergence is found between two events, from their types and payloads. */
  lemma DivergenceTypes(a: Event, b: Event)
    ensures var d, calls := EventDivergence(a, b), a.eventType == TOOL_CALL && b.eventType == TOOL_CALL;
      var sameTool := Get(a.payload, "service") == Get(b.payload, "service")
                      && Get(a.payload, "operation") == Get(b.payload, "operation");
      && (d == Some(TOOL_ERROR) <==>
            (a.eventType == ERROR || b.eventType == ERROR) && (a.eventType != b.eventType || a.payload != b.payload))
      && (d == Some(WRONG_TOOL) <==>
            || (a.eventType != ERROR && b.eventType != ERROR && a.eventType != b.eventType)
            || (calls && !sameTool))
      && (d == Some(INVALID_TOOL_ARGUMENT) <==>
            calls && sameTool && Get(a.payload, "arguments") != Get(b.payload, "arguments"))
      && (d == Some(FINAL_ANSWER_MISMATCH) <==>
            && a.eventType == FINAL_ANSWER && b.eventType == FINAL_ANSWER
            && Get(a.payload, "content") != Get(b.payload, "content"))
      && d != Some(PREMATURE_TERMINATION)
  {
  }

  /** The part of an event that divergence looks at. */
  datatype Projection =
    | Failure(payload: Dict)
    | Call(service: Json, operation: Json, arguments: Json)
    | Answer(content: Json)
    | Other(eventType: EventType)

  function Project(e: Event): Projection {
    match e.eventType
    case ERROR => Failure(e.payload)
    case TOOL_CALL =>
      Call(Get(e.payload, "service"), Get(e.payload, "operation"), Get(e.payload, "arguments"))
    case FINAL_ANSWER => Answer(Get(e.payload, "content"))
    case t => Other(t)
  }

  /** Two events do not diverge exactly when they have the same projection, so not
      diverging is an equivalence; and swapping the runs does not change the type. */
  lemma DivergenceIsProjection(a: Event, b: Event)
    ensures EventDivergence(a, b).None? <==> Project(a) == Project(b)
    ensures EventDivergence(a, b) == EventDivergence(b, a)
  {
  }

  /** The length of the longest common prefix of two traces, under the projection. */
  function CommonPrefix(a: seq<Event>, b: seq<Event>): nat {
    if a == [] || b == [] || Project(a[0]) != Project(b[0]) then 0
    else 1 + CommonPrefix(a[1..], b[1..])
  }

  lemma {:induction false} CommonPrefixIs(a: seq<Event>, b: seq<Event>, n: nat)
    requires n <= |a| && n <= |b|
    requires forall i | 0 <= i < n :: Project(a[i]) == Project(b[i])
    requires n == |a| || n == |b| || Project(a[n]) != Project(b[n])
    ensures CommonPrefix(a, b) == n
  {
    if n > 0 {
      CommonPrefixIs(a[1..], b[1..], n - 1);
    }
  }

  lemma {:induction false} CommonPrefixAgrees(a: seq<Event>, b: seq<Event>)
    ensures var n := CommonPrefix(a, b);
      && n <= |a| && n <= |b|
      && (forall i | 0 <= i < n :: Project(a[i]) == Project(b[i]))
      && (n == |a| || n == |b| || Project(a[n]) != Project(b[n]))
  {
    if a != [] && b != [] && Project(a[0]) == Project(b[0]) {
      CommonPrefixAgrees(a[1..], b[1..]);
      var n := CommonPrefix(a, b);
      forall i | 0 <= i < n ensures Project(a[i]) == Project(b[i]) {
        if i > 0 {
          assert a[i] == a[1..][i - 1] && b[i] == b[1..][i - 1];
        }
      }
      assert n < |a| && n < |b| ==> a[n] == a[1..][n - 1] && b[n] == b[1..][n - 1];
    }
  }

  /** What an attribution shows: the two payloads with the sequence number of the baseline
      event, or the lengths of two traces of which one ends early. */
  datatype Evidence =
    | Payloads(baseline: Dict, candidate: Dict, sequenceNo: nat)
    | Counts(baselineEvents: nat, candidateEvents: nat)

  /** `at` is the index the scan stopped at. */
  datatype Attribution = Attribution(
    at: nat, baseline: Option<Id>, candidate: Option<Id>, divergence: DivergenceType, evidence: Evidence)

  function PayloadsOf(left: Event, right: Event): Evidence {
    Payloads(left.payload, right.payload, left.sequenceNo)
  }

  /** What the attribution of two traces must be: none exactly when their projections are
      equal; otherwise it points at the least index where they differ, with the type of
      that difference and the two payloads, or the end of the shorter one. */
  ghost predicate Attributes(r: Option<Attribution>, a: seq<Event>, b: seq<Event>) {
    var n := CommonPrefix(a, b);
    if n < |a| && n < |b| then
      && EventDivergence(a[n], b[n]).Some?
      && r == Some(Attribution(n, Some(a[n].id), Some(b[n].id), EventDivergence(a[n], b[n]).value,
                               PayloadsOf(a[n], b[n])))
    else if n < |a| then r == Some(Attribution(n, Some(a[n].id), None, PREMATURE_TERMINATION, Counts(|a|, |b|)))
    else if n < |b| then r == Some(Attribution(n, None, Some(b[n].id), PREMATURE_TERMINATION, Counts(|a|, |b|)))
    else r == None
  }

  /** `_first_divergence`: a scan that returns at the first divergence. */
  method FirstDivergence(baseline: seq<Event>, candidate: seq<Event>) returns (r: Option<Attribution>)
    ensures Attributes(r, baseline, candidate)
  {
    var i := 0;
    while i < |baseline| && i < |candidate|
      invariant 0 <= i <= |baseline| && i <= |candidate|
      invariant forall j | 0 <= j < i :: Project(baseline[j]) == Project(candidate[j])
    {
      DivergenceIsProjection(baseline[i], candidate[i]);
      var divergence := EventDivergence(baseline[i], candidate[i]);
      if divergence.Some? {
        CommonPrefixIs(baseline, candidate, i);
        return Some(Attribution(i, Some(baseline[i].id), Some(candidate[i].id), divergence.value,
                                Payloads(baseline[i].payload, candidate[i].payload, baseline[i].sequenceNo)));
      }
      i := i + 1;
    }
    CommonPrefixIs(baseline, candidate, i);
    if |baseline| != |candidate| {
      var counts := Counts(|baseline|, |candidate|);
      if |candidate| < |baseline| {
        return Some(Attribution(i, Some(baseline[|candidate|].id), None, PREMATURE_TERMINATION, counts));
      }
      return Some(Attribution(i, None, Some(candidate[|baseline|].id), PREMATURE_TERMINATION, counts));
    }
    return None;
  }

  /** Two events that do not diverge: of the same type, and errors with the same payload,
      calls of the same tool with the same arguments, or answers with the same content. */
  ghost predicate Alike(a: Event, b: Event) {
    && a.eventType == b.eventType
    && (a.eventType == ERROR ==> a.payload == b.payload)
    && (a.eventType == TOOL_CALL ==>
          forall k | k in {"service", "operation", "arguments"} :: Get(a.payload, k) == Get(b.payload, k))
    && (a.eventType == FINAL_ANSWER ==> Get(a.payload, "content") == Get(b.payload, "content"))
  }

  lemma AlikeIsProjection(a: Event, b: Event)
    ensures Alike(a, b) <==> Project(a) == Project(b)
    ensures Alike(a, b) <==> EventDivergence(a, b).None?
  {
  }

  /** Main result: what an attribution says, without the recursion: up to the index it gives
      the traces are alike, and there either two events differ, or one trace has ended. */
  lemma AttributionIsFirst(r: Option<Attribution>, a: seq<Event>, b: seq<Event>)
    requires Attributes(r, a, b)
    ensures match r
      case None => |a| == |b| && forall i | 0 <= i < |a| :: Alike(a[i], b[i])
      case Some(x) =>
        && x.at <= |a| && x.at <= |b| && (forall i | 0 <= i < x.at :: Alike(a[i], b[i]))
        && if x.at < |a| && x.at < |b| then
             && !Alike(a[x.at], b[x.at]) && EventDivergence(a[x.at], b[x.at]) == Some(x.divergence)
             && x.baseline == Some(a[x.at].id) && x.candidate == Some(b[x.at].id)
             && x.evidence == Payloads(a[x.at].payload, b[x.at].payload, a[x.at].sequenceNo)
           else
             && |a| != |b| && x.divergence == PREMATURE_TERMINATION && x.evidence == Counts(|a|, |b|)
             && x.baseline == (if |b| < |a| then Some(a[|b|].id) else None)
             && x.candidate == (if |a| < |b| then Some(b[|a|].id) else None)
  {
    hide EventDivergence, Alike, Project;
    CommonPrefixAgrees(a, b);
    forall i | 0 <= i < |a| && i < |b| { AlikeIsProjection(a[i], b[i]); }
  }

  // ---------------------------------------------------------------- first divergence is a distance

  /** There is no divergence exactly when the projections of the two traces are equal. */
  lemma NoneIffSame(r: Option<Attribution>, a: seq<Event>, b: seq<Event>)
    requires Attributes(r, a, b)
    ensures r.None? <==> |a| == |b| && forall i | 0 <= i < |a| :: Project(a[i]) == Project(b[i])
  {
    CommonPrefixAgrees(a, b);
  }

  /** The evidence with its sides exchanged; the sequence number is then the other event's. */
  function Swapped(evidence: Evidence, other: nat): Evidence {
    match evidence
    case Payloads(left, right, _) => Payloads(right, left, other)
    case Counts(left, right) => Counts(right, left)
  }

  /** Swapping the runs keeps the place and the type, and swaps the evidence. */
  lemma SwapKeepsDivergence(r: Option<Attribution>, s: Option<Attribution>, a: seq<Event>, b: seq<Event>)
    requires Attributes(r, a, b) && Attributes(s, b, a)
    ensures if r.None? then s.None?
            else exists other ::
              && s == Some(Attribution(r.value.at, r.value.candidate, r.value.baseline, r.value.divergence,
                                       Swapped(r.value.evidence, other)))
              && (r.value.at < |a| && r.value.at < |b| ==> other == b[r.value.at].sequenceNo)
  {
    CommonPrefixAgrees(a, b);
    var n := CommonPrefix(a, b);
    CommonPrefixIs(b, a, n);
    if n < |a| && n < |b| {
      DivergenceIsProjection(a[n], b[n]);
      assert s.value.evidence == Swapped(r.value.evidence, b[n].sequenceNo);
    } else if r.Some? {
      assert s.value.evidence == Swapped(r.value.evidence, 0);
    }
  }

  /** Two traces cannot diverge before both have diverged from a third. */
  lemma {:induction false} Ultrametric(a: seq<Event>, b: seq<Event>, c: seq<Event>)
    ensures CommonPrefix(a, c) >= CommonPrefix(a, b) || CommonPrefix(a, c) >= CommonPrefix(b, c)
  {
    CommonPrefixAgrees(a, b);
    CommonPrefixAgrees(b, c);
    CommonPrefixAgrees(a, c);
    var n, m := CommonPrefix(a, b), CommonPrefix(b, c);
    var k := if n <= m then n else m;
    forall i | 0 <= i < k ensures Project(a[i]) == Project(c[i]) {
      assert Project(a[i]) == Project(b[i]);
    }
  }

  // ---------------------------------------------------------------- redaction

  /** The tool of a call is named by strings (or not named), as every recorded call is. */
  ghost predicate NamesTool(e: Event) {
    e.eventType == TOOL_CALL ==>
      !Get(e.payload, "service").Obj? && !Get(e.payload, "service").Arr?
      && !Get(e.payload, "operation").Obj? && !Get(e.payload, "operation").Arr?
  }

  /** Redaction reads through on the keys that divergence looks at. */
  lemma RedactGet(d: Dict, k: string)
    requires k in SCHEMA_KEYS
    ensures Get(RedactDict(d), k) == Redact(Get(d, k))
  {
    SchemaKeysInsensitive();
  }

  lemma RedactKeys(d: Dict)
    ensures Get(RedactDict(d), "service") == Redact(Get(d, "service"))
    ensures Get(RedactDict(d), "operation") == Redact(Get(d, "operation"))
    ensures Get(RedactDict(d), "arguments") == Redact(Get(d, "arguments"))
    ensures Get(RedactDict(d), "content") == Redact(Get(d, "content"))
  {
    assert SCHEMA_KEYS[9] == "service" && SCHEMA_KEYS[10] == "operation";
    assert SCHEMA_KEYS[11] == "arguments" && SCHEMA_KEYS[3] == "content";
    RedactGet(d, "service");
    RedactGet(d, "operation");
    RedactGet(d, "arguments");
    RedactGet(d, "content");
  }

  predicate SameTool(a: Dict, b: Dict) {
    Get(a, "service") == Get(b, "service") && Get(a, "operation") == Get(b, "operation")
  }

  /** Two calls of different tools whose difference redaction removes. */
  predicate HidesTool(a: Event, b: Event) {
    && a.eventType == b.eventType == TOOL_CALL
    && !SameTool(a.payload, b.payload) && SameTool(RedactDict(a.payload), RedactDict(b.payload))
  }

  /** Tools named by strings are never hidden. */
  lemma NamedToolsShow(a: Event, b: Event)
    requires NamesTool(a) && NamesTool(b)
    ensures !HidesTool(a, b)
  {
    RedactKeys(a.payload);
    RedactKeys(b.payload);
  }

  function CallOfNamed(who: string, arguments: int): Event {
    Event(0, 0, TOOL_CALL, map["service" := Obj(map["name" := Str(who)]), "arguments" := Num(arguments)], None, None)
  }

  lemma NameIsHidden(who: string)
    ensures Redact(Obj(map["name" := Str(who)])) == Obj(map["name" := Str(REDACTED)])
  {
    assert Lower("name") == "name" && Sensitive("name");
  }

  lemma NamedFields(who: string, arguments: int)
    ensures var d := CallOfNamed(who, arguments).payload;
      && Get(d, "service") == Obj(map["name" := Str(who)]) && Get(d, "operation") == Null
      && Get(d, "arguments") == Num(arguments)
  {
  }

  /** Tools named by objects can be, and then the arguments are blamed. */
  lemma ToolCanBeHidden()
    ensures exists a, b ::
      && HidesTool(a, b) && EventDivergence(a, b) == Some(WRONG_TOOL)
      && EventDivergence(RedactEvent(a), RedactEvent(b)) == Some(INVALID_TOOL_ARGUMENT)
  {
    var a, b := CallOfNamed("x", 0), CallOfNamed("y", 1);
    NamedFields("x", 0);
    NamedFields("y", 1);
    var x, y := map["name" := Str("x")], map["name" := Str("y")];
    assert x["name"] != y["name"];
    RedactKeys(a.payload);
    RedactKeys(b.payload);
    NameIsHidden("x");
    NameIsHidden("y");
    hide Get, Redact, RedactDict, CallOfNamed;
    assert HidesTool(a, b);
  }

  /** Redaction makes no two events diverge that did not; and a divergence it leaves
      visible keeps its type, unless what it removed was the difference of the tools. */
  lemma RedactedDivergence(a: Event, b: Event)
    ensures EventDivergence(a, b).None? ==> EventDivergence(RedactEvent(a), RedactEvent(b)).None?
    ensures EventDivergence(RedactEvent(a), RedactEvent(b)).Some? ==>
      (EventDivergence(RedactEvent(a), RedactEvent(b)) == EventDivergence(a, b) <==> !HidesTool(a, b))
  {
    hide Redact, RedactDict, Get;
    RedactKeys(a.payload);
    RedactKeys(b.payload);
  }

  /** The same attribution of redacted traces. */
  function RedactEvidence(evidence: Evidence): Evidence {
    match evidence
    case Payloads(left, right, n) => Payloads(RedactDict(left), RedactDict(right), n)
    case Counts(_, _) => evidence
  }

  /** Main result: redaction only delays the first divergence of two traces; and when it
      stays where it was it keeps its type, and its evidence redacted, exactly when no difference of tools is hidden
      there. */
  lemma {:induction false} RedactionOnlyDelays(r: Option<Attribution>, s: Option<Attribution>, a: seq<Event>,
                                               b: seq<Event>)
    requires Attributes(r, a, b) && Attributes(s, RedactEvents(a), RedactEvents(b))
    ensures CommonPrefix(RedactEvents(a), RedactEvents(b)) >= CommonPrefix(a, b)
    ensures r.None? ==> s.None?
    ensures s.Some? ==> r.Some? && r.value.at <= s.value.at
    ensures s.Some? && r.Some? && r.value.at == s.value.at ==>
      var n := r.value.at;
      s.value == r.value.(evidence := RedactEvidence(r.value.evidence))
      <==> !(n < |a| && n < |b| && HidesTool(a[n], b[n]))
  {
    var ra, rb := RedactEvents(a), RedactEvents(b);
    var n, m := CommonPrefix(a, b), CommonPrefix(ra, rb);
    CommonPrefixAgrees(a, b);
    CommonPrefixAgrees(ra, rb);
    hide Project, EventDivergence, HidesTool, RedactEvent, RedactEvents, RedactDict;
    RedactedParts(a);
    RedactedParts(b);
    forall i | 0 <= i < n ensures Project(ra[i]) == Project(rb[i]) {
      RedactedDivergence(a[i], b[i]);
      DivergenceIsProjection(a[i], b[i]);
      DivergenceIsProjection(ra[i], rb[i]);
    }
    if m == n && n < |a| && n < |b| {
      RedactedDivergence(a[n], b[n]);
    }
  }

  lemma RedactedParts(a: seq<Event>)
    ensures |RedactEvents(a)| == |a|
    ensures forall i | 0 <= i < |a| ::
      && RedactEvents(a)[i] == RedactEvent(a[i]) && RedactEvents(a)[i].id == a[i].id
      && RedactEvents(a)[i].sequenceNo == a[i].sequenceNo && RedactEvents(a)[i].payload == RedactDict(a[i].payload)
  {
  }

  /** What redaction can hide: two payloads that agree off the sensitive keys are the same
      payload once stored, and only those are. */
  lemma HiddenIffAgree(a: Event, b: Event)
    ensures RedactEvent(a).payload == RedactEvent(b).payload <==> AgreeOffSensitive(Obj(a.payload), Obj(b.payload))
  {
    RedactKernel(Obj(a.payload), Obj(b.payload));
  }
}
