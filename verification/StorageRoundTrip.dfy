/** A trace survives storage: written in any order and read back, it is the same trace with
    its payloads redacted (backend/app/trace.py through backend/app/store.py). */
module StorageRoundTrip {
  import opened Json
  import opened TraceModel
  import opened Store
  import Redaction

  /** An order in which n events can be sent. */
  ghost predicate IsOrder(order: seq<nat>, n: nat) {
    && |order| == n
    && (forall i | 0 <= i < n :: order[i] < n)
    && (forall i, j | 0 <= i < j < n :: order[i] != order[j])
  }

  function Pick(events: seq<Event>, order: seq<nat>): seq<Event>
    requires forall i | 0 <= i < |order| :: order[i] < |events|
  {
    seq(|order|, i requires 0 <= i < |order| => events[order[i]])
  }

  /** Sending events one after the other; None when one is refused as a duplicate. */
  function StoreAll(incoming: seq<Event>): Option<seq<Event>> {
    if incoming == [] then Some([])
    else
      match StoreAll(incoming[..|incoming| - 1])
      case None => None
      case Some(events) =>
        var e := incoming[|incoming| - 1];
        if Holds(events, e.sequenceNo) then None else Some(Appended(events, e))
  }

  ghost predicate Numbered(events: seq<Event>) {
    forall i | 0 <= i < |events| :: events[i].sequenceNo == i
  }

  /** `r` is what a store holds after the first k sends: strictly ascending, and each event
      the redaction of one that was sent. */
  ghost predicate HoldsFirst(r: seq<Event>, events: seq<Event>, order: seq<nat>, k: nat)
    requires IsOrder(order, |events|) && k <= |order|
  {
    && |r| == k && StrictlyAscending(r)
    && forall e | e in r :: SentBefore(e, events, order, k)
  }

  ghost predicate SentBefore(e: Event, events: seq<Event>, order: seq<nat>, k: nat)
    requires IsOrder(order, |events|) && k <= |order|
  {
    exists j | 0 <= j < k :: e == RedactEvent(events[order[j]])
  }

  lemma OneMoreSend(before: seq<Event>, events: seq<Event>, order: seq<nat>, k: nat)
    requires Numbered(events) && IsOrder(order, |events|) && k < |order|
    requires HoldsFirst(before, events, order, k)
    ensures !Holds(before, order[k])
    ensures HoldsFirst(Appended(before, events[order[k]]), events, order, k + 1)
  {
    var e := events[order[k]];
    forall i | 0 <= i < |before| ensures before[i].sequenceNo != order[k] {
      assert before[i] in before && SentBefore(before[i], events, order, k);
      var j :| 0 <= j < k && before[i] == RedactEvent(events[order[j]]);
    }
    AppendedKeeps(before, e);
    var r := Appended(before, e);
    hide Appended, Sorted;
    assert |r| == |multiset(r)|;
    forall x | x in r ensures SentBefore(x, events, order, k + 1) {
      assert x in multiset(r);
      if x in before {
        assert SentBefore(x, events, order, k);
      } else {
        assert x == RedactEvent(events[order[k]]);
      }
    }
  }

  /** A store accepts events with not yet used numbers, and ends up with exactly the
      redacted events it was sent. */
  lemma {:induction false} StoreAllAccepts(events: seq<Event>, order: seq<nat>, k: nat)
    requires Numbered(events) && IsOrder(order, |events|) && k <= |order|
    ensures var r := StoreAll(Pick(events, order)[..k]);
      r.Some? && HoldsFirst(r.value, events, order, k)
  {
    if k > 0 {
      var sent := Pick(events, order);
      StoreAllAccepts(events, order, k - 1);
      assert sent[..k][..k - 1] == sent[..k - 1];
      OneMoreSend(StoreAll(sent[..k - 1]).value, events, order, k - 1);
    }
  }

  lemma {:induction false} AtLeastIndex(events: seq<Event>, i: nat)
    requires StrictlyAscending(events) && i < |events|
    ensures events[i].sequenceNo >= i
  {
    if i > 0 {
      AtLeastIndex(events, i - 1);
    }
  }

  lemma {:induction false} AtMostIndex(events: seq<Event>, i: nat)
    requires StrictlyAscending(events) && i < |events|
    requires forall j | 0 <= j < |events| :: events[j].sequenceNo < |events|
    ensures events[i].sequenceNo <= i
    decreases |events| - i
  {
    if i + 1 < |events| {
      AtMostIndex(events, i + 1);
    }
  }

  /** Whatever order the events of a trace are sent in, the store ends up with the redacted
      events in trace order. */
  lemma StoredInAnyOrder(events: seq<Event>, order: seq<nat>)
    requires Numbered(events) && IsOrder(order, |events|)
    ensures StoreAll(Pick(events, order)) == Some(RedactEvents(events))
  {
    var n := |events|;
    var sent := Pick(events, order);
    assert sent[..n] == sent;
    StoreAllAccepts(events, order, n);
    var r := StoreAll(sent).value;
    assert |r| == n;
    forall i | 0 <= i < n ensures r[i].sequenceNo < n && r[i] == RedactEvent(events[r[i].sequenceNo]) {
      assert r[i] in r && SentBefore(r[i], events, order, n);
      var j :| 0 <= j < n && r[i] == RedactEvent(events[order[j]]);
    }
    forall i | 0 <= i < n ensures r[i] == RedactEvents(events)[i] {
      AtLeastIndex(r, i);
      AtMostIndex(r, i);
    }
    assert r == RedactEvents(events);
  }

  lemma StepSurvives(steps: seq<TraceStep>, i: nat)
    requires ValidSteps(steps) && i < |steps|
    ensures var stored := RedactEvents(ToStorage(steps));
      Readable(stored, i) && ReadsAs(stored[i], RedactSteps(steps)[i])
  {
    var stored, step := RedactEvents(ToStorage(steps)), steps[i];
    RedactDump(step.payload);
    ParseDump(RedactPayload(step.payload));
    if step.parent.Some? {
      var j :| 0 <= j < i && steps[..i][j].id == step.parent.value;
      assert stored[j].id == step.parent.value;
    }
  }

  /** Main result: storage round trip. Any valid trace, sent in any order, is accepted, and
      reading it back succeeds and yields its redaction: same ids, order, parents and
      durations, every payload redacted, and the redacted tool calls. */
  lemma {:induction false} RoundTrip(steps: seq<TraceStep>, order: seq<nat>)
    requires ValidSteps(steps) && IsOrder(order, |steps|)
    ensures StoreAll(Pick(ToStorage(steps), order)) == Some(RedactEvents(ToStorage(steps)))
    ensures ReadsBack(RedactEvents(ToStorage(steps)), Steps(RedactSteps(steps)))
    ensures ExtractCalls(RedactSteps(steps)) == RedactCalls(ExtractCalls(steps))
  {
    var events := ToStorage(steps);
    StoredInAnyOrder(events, order);
    ExtractCommutesWithRedaction(steps);
    var stored, read := RedactEvents(events), RedactSteps(steps);
    assert Ascending(stored);
    SortedOfAscending(stored);
    forall i | 0 <= i < |steps| ensures Readable(stored, i) && ReadsAs(stored[i], read[i]) {
      StepSurvives(steps, i);
    }
  }

  /** A redacted trace is stored unchanged: a second pass through the store redacts nothing. */
  lemma RedactionStable(e: Event)
    ensures RedactEvent(RedactEvent(e)) == RedactEvent(e)
  {
    Redaction.RedactIdempotent(Obj(e.payload));
  }
}
