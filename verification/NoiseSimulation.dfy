/** Tool-result noise changes nothing but the noise: a task and its noisy variant answer
    every sequence of calls alike, and judge it alike. */
module NoiseSimulation {
  import opened Json
  import opened Schema
  import opened Services
  import opened Contracts
  import opened Judging
  import opened Mutations

  // ---------------------------------------------------------------- equality up to noise

  /** Equal records off the fields in `noise`. */
  ghost predicate RecordAlike(noise: set<string>, a: Dict, b: Dict) {
    forall k | k !in noise :: (k in a <==> k in b) && (k in a && k in b ==> a[k] == b[k])
  }

  ghost predicate TableAlike(noise: set<string>, a: Table, b: Table) {
    a.Keys == b.Keys && forall id | id in a :: RecordAlike(noise, a[id], b[id])
  }

  ghost predicate WorldAlike(noise: set<string>, a: World, b: World) {
    && TableAlike(noise, a.customers, b.customers)
    && TableAlike(noise, a.orders, b.orders)
    && TableAlike(noise, a.tickets, b.tickets)
    && a.refunds == b.refunds && a.replacements == b.replacements
  }

  /** The same success or the same failure, with results equal up to noise. */
  ghost predicate OutcomeAlike(noise: set<string>, a: Outcome, b: Outcome) {
    || a == b
    || (a.Returned? && b.Returned? && a.value.Obj? && b.value.Obj?
        && RecordAlike(noise, a.value.fields, b.value.fields))
  }

  ghost predicate EffectAlike(noise: set<string>, a: Effect, b: Effect) {
    WorldAlike(noise, a.world, b.world) && OutcomeAlike(noise, a.outcome, b.outcome)
  }

  ghost predicate Noise(noise: set<string>) {
    noise <= NOISE_FIELDS.Keys
  }

  /** No noise field is one that a service reads or writes. */
  lemma NoiseIsUnread(noise: set<string>)
    requires Noise(noise)
    ensures "customer_id" !in noise && "status" !in noise && "delivered_days_ago" !in noise
    ensures "total_cents" !in noise && "items" !in noise && "notes" !in noise
    ensures "escalation_count" !in noise
  {
    forall k | k in noise ensures |k| in {9, 12, 17} || (|k| == 16 && k[0] == 'w') {
      assert k in NOISE_FIELDS;
    }
  }

  // ---------------------------------------------------------------- the services

  lemma AlikeReads(noise: set<string>, a: Dict, b: Dict, k: string)
    requires RecordAlike(noise, a, b) && k !in noise
    ensures k in a <==> k in b
    ensures Get(a, k) == Get(b, k)
  {
  }

  lemma AlikeWrite(noise: set<string>, a: Dict, b: Dict, k: string, v: Json)
    requires RecordAlike(noise, a, b)
    ensures RecordAlike(noise, a[k := v], b[k := v])
  {
  }

  lemma TableWrite(noise: set<string>, s: Table, t: Table, id: string, a: Dict, b: Dict)
    requires TableAlike(noise, s, t) && RecordAlike(noise, a, b)
    ensures TableAlike(noise, s[id := a], t[id := b])
  {
  }

  lemma TableReads(noise: set<string>, s: Table, t: Table, id: string)
    requires TableAlike(noise, s, t) && id in s
    ensures id in t && RecordAlike(noise, s[id], t[id])
  {
  }

  lemma PoliciesAlike(noise: set<string>, w: World, v: World, id: Json)
    requires Noise(noise) && WorldAlike(noise, w, v)
    ensures CheckRefundPolicy(w, id) == CheckRefundPolicy(v, id)
    ensures CheckReplacementPolicy(w, id) == CheckReplacementPolicy(v, id)
  {
    hide Noise;
    NoiseIsUnread(noise);
    if Missing(w.orders, id).None? {
      var a, b := w.orders[id.s], v.orders[id.s];
      AlikeReads(noise, a, b, "status");
      AlikeReads(noise, a, b, "delivered_days_ago");
      AlikeReads(noise, a, b, "total_cents");
      assert Window(a, REFUND_WINDOW_DAYS) == Window(b, REFUND_WINDOW_DAYS);
      assert Window(a, REPLACEMENT_WINDOW_DAYS) == Window(b, REPLACEMENT_WINDOW_DAYS);
    }
  }

  lemma GuardAlike(noise: set<string>, w: World, v: World, id: Json, requester: Json)
    requires Noise(noise) && WorldAlike(noise, w, v)
    ensures OrderGuard(w, id, requester) == OrderGuard(v, id, requester)
  {
    hide Noise, RecordAlike;
    NoiseIsUnread(noise);
    if Missing(w.orders, id).None? {
      AlikeReads(noise, w.orders[id.s], v.orders[id.s], "customer_id");
    }
  }

  lemma GetAlike(noise: set<string>, s: Table, t: Table, id: Json)
    requires TableAlike(noise, s, t)
    ensures OutcomeAlike(noise, GetRecord(s, id), GetRecord(t, id))
  {
  }

  lemma CancelRecordAlike(noise: set<string>, a: Dict, b: Dict)
    requires Noise(noise) && RecordAlike(noise, a, b)
    ensures RecordAlike(noise, CancelRecord(a).0, CancelRecord(b).0)
    ensures OutcomeAlike(noise, CancelRecord(a).1, CancelRecord(b).1)
  {
    NoiseIsUnread(noise);
    AlikeReads(noise, a, b, "status");
    AlikeWrite(noise, a, b, "status", CANCELLED);
  }

  lemma CancelAlike(noise: set<string>, w: World, v: World, id: Json, requester: Json)
    requires Noise(noise) && WorldAlike(noise, w, v)
    ensures EffectAlike(noise, CancelOrder(w, id, requester), CancelOrder(v, id, requester))
  {
    GuardAlike(noise, w, v, id, requester);
    if OrderGuard(w, id, requester).None? {
      CancelRecordAlike(noise, w.orders[id.s], v.orders[id.s]);
      TableWrite(noise, w.orders, v.orders, id.s, CancelRecord(w.orders[id.s]).0, CancelRecord(v.orders[id.s]).0);
    }
  }

  lemma ScanAlike(noise: set<string>, a: Dict, b: Dict, sku: Json)
    requires Noise(noise) && RecordAlike(noise, a, b)
    ensures ScanOrder(a, sku) == ScanOrder(b, sku)
  {
    hide Noise, RecordAlike;
    NoiseIsUnread(noise);
    AlikeReads(noise, a, b, "items");
  }

  lemma ReplaceAlike(noise: set<string>, w: World, v: World, id: Json, requester: Json, sku: Json, reason: Json)
    requires Noise(noise) && WorldAlike(noise, w, v)
    ensures EffectAlike(noise, ReplaceItem(w, id, requester, sku, reason), ReplaceItem(v, id, requester, sku, reason))
  {
    hide CheckReplacementPolicy, CheckRefundPolicy, Noise, ScanOrder, IssueReplacement, RecordAlike, OrderGuard,
      TableAlike;
    GuardAlike(noise, w, v, id, requester);
    PoliciesAlike(noise, w, v, id);
    if OrderGuard(w, id, requester).None? {
      GuardPassed(w, id, requester);
      TableReads(noise, w.orders, v.orders, id.s);
      ScanAlike(noise, w.orders[id.s], v.orders[id.s], sku);
    }
  }

  lemma RefundAlike(noise: set<string>, w: World, v: World, id: Json, requester: Json, amount: Json, reason: Json)
    requires Noise(noise) && WorldAlike(noise, w, v)
    ensures EffectAlike(noise, CreateRefund(w, id, requester, amount, reason),
                        CreateRefund(v, id, requester, amount, reason))
  {
    GuardAlike(noise, w, v, id, requester);
    PoliciesAlike(noise, w, v, id);
  }

  lemma AddNoteAlike(noise: set<string>, a: Dict, b: Dict, note: Json)
    requires Noise(noise) && RecordAlike(noise, a, b)
    ensures AddNote(a, note).Some? <==> AddNote(b, note).Some?
    ensures AddNote(a, note).Some? ==> RecordAlike(noise, AddNote(a, note).value, AddNote(b, note).value)
  {
    NoiseIsUnread(noise);
    AlikeReads(noise, a, b, "notes");
  }

  lemma UpdateRecordAlike(noise: set<string>, a: Dict, b: Dict, status: Json, note: Json)
    requires Noise(noise) && RecordAlike(noise, a, b)
    ensures RecordAlike(noise, UpdateRecord(a, status, note).0, UpdateRecord(b, status, note).0)
    ensures OutcomeAlike(noise, UpdateRecord(a, status, note).1, UpdateRecord(b, status, note).1)
  {
    var a', b' := if status.Null? then a else a["status" := status], if status.Null? then b else b["status" := status];
    AlikeWrite(noise, a, b, "status", status);
    AddNoteAlike(noise, a', b', note);
  }

  lemma UpdateAlike(noise: set<string>, w: World, v: World, id: Json, status: Json, note: Json)
    requires Noise(noise) && WorldAlike(noise, w, v)
    ensures EffectAlike(noise, UpdateTicket(w, id, status, note), UpdateTicket(v, id, status, note))
  {
    if Missing(w.tickets, id).None? {
      var a, b := w.tickets[id.s], v.tickets[id.s];
      UpdateRecordAlike(noise, a, b, status, note);
      TableWrite(noise, w.tickets, v.tickets, id.s, UpdateRecord(a, status, note).0, UpdateRecord(b, status, note).0);
    }
  }

  lemma EscalatedAlike(noise: set<string>, a: Dict, b: Dict, reason: Json)
    requires Noise(noise) && RecordAlike(noise, a, b)
    ensures RecordAlike(noise, Escalated(a, reason).0, Escalated(b, reason).0)
    ensures OutcomeAlike(noise, Escalated(a, reason).1, Escalated(b, reason).1)
  {
    NoiseIsUnread(noise);
    var a', b' := a["status" := ESCALATED], b["status" := ESCALATED];
    AlikeWrite(noise, a, b, "status", ESCALATED);
    AlikeReads(noise, a', b', "escalation_count");
    if CountUp(a').Some? {
      AlikeWrite(noise, a', b', "escalation_count", CountUp(a').value["escalation_count"]);
      AddNoteAlike(noise, CountUp(a').value, CountUp(b').value, reason);
    }
  }

  lemma EscalateRecordAlike(noise: set<string>, a: Dict, b: Dict, reason: Json)
    requires Noise(noise) && RecordAlike(noise, a, b)
    ensures RecordAlike(noise, EscalateRecord(a, reason).0, EscalateRecord(b, reason).0)
    ensures OutcomeAlike(noise, EscalateRecord(a, reason).1, EscalateRecord(b, reason).1)
  {
    NoiseIsUnread(noise);
    AlikeReads(noise, a, b, "status");
    EscalatedAlike(noise, a, b, reason);
  }

  lemma EscalateAlike(noise: set<string>, w: World, v: World, id: Json, reason: Json)
    requires Noise(noise) && WorldAlike(noise, w, v)
    ensures EffectAlike(noise, EscalateTicket(w, id, reason), EscalateTicket(v, id, reason))
  {
    if Missing(w.tickets, id).None? {
      var a, b := w.tickets[id.s], v.tickets[id.s];
      EscalateRecordAlike(noise, a, b, reason);
      TableWrite(noise, w.tickets, v.tickets, id.s, EscalateRecord(a, reason).0, EscalateRecord(b, reason).0);
    }
  }

  /** One call, on two states equal up to noise. */
  lemma {:induction false} StepAlike(noise: set<string>, w: World, v: World, call: ToolCall)
    requires Noise(noise) && WorldAlike(noise, w, v)
    ensures EffectAlike(noise, Step(w, call), Step(v, call))
  {
    hide GetRecord, CancelOrder, ReplaceItem, CreateRefund, UpdateTicket, EscalateTicket;
    hide CheckRefundPolicy, CheckReplacementPolicy;
    var a := call.arguments;
    match (call.service, call.operation)
    case ("customer", "get_customer") => GetAlike(noise, w.customers, v.customers, Get(a, "customer_id"));
    case ("order", "get_order") => GetAlike(noise, w.orders, v.orders, Get(a, "order_id"));
    case ("order", "cancel_order") =>
      CancelAlike(noise, w, v, Get(a, "order_id"), Get(a, "requesting_customer_id"));
    case ("order", "replace_item") =>
      ReplaceAlike(noise, w, v, Get(a, "order_id"), Get(a, "requesting_customer_id"), Get(a, "sku"), Get(a, "reason"));
    case ("policy", "check_refund_policy") => PoliciesAlike(noise, w, v, Get(a, "order_id"));
    case ("policy", "check_replacement_policy") => PoliciesAlike(noise, w, v, Get(a, "order_id"));
    case ("refund", "create_refund") =>
      RefundAlike(noise, w, v, Get(a, "order_id"), Get(a, "requesting_customer_id"), Get(a, "amount_cents"),
                  Get(a, "reason"));
    case ("ticket", "update_ticket") =>
      UpdateAlike(noise, w, v, Get(a, "ticket_id"), Get(a, "status"), Get(a, "note"));
    case ("ticket", "escalate_ticket") => EscalateAlike(noise, w, v, Get(a, "ticket_id"), Get(a, "reason"));
    case _ =>
  }

  /** Every call of a sequence succeeds or fails alike, and leads to alike states. */
  lemma {:induction false} RunAlike(noise: set<string>, w: World, v: World, calls: seq<ToolCall>)
    requires Noise(noise) && WorldAlike(noise, w, v)
    ensures WorldAlike(noise, After(w, calls), After(v, calls))
    ensures forall i | 0 <= i < |calls| ::
      OutcomeAlike(noise, Step(After(w, calls[..i]), calls[i]).outcome, Step(After(v, calls[..i]), calls[i]).outcome)
  {
    if calls == [] {
    } else {
      var front, last := calls[..|calls| - 1], calls[|calls| - 1];
      RunAlike(noise, w, v, front);
      StepAlike(noise, After(w, front), After(v, front), last);
      forall i | 0 <= i < |calls| - 1 ensures calls[..i] == front[..i] {}
    }
  }

  // ---------------------------------------------------------------- the verdict

  /** The expected state says nothing about a noise field of an entity of this collection. */
  ghost predicate SilentOnTable(noise: set<string>, expected: Json) {
    expected.Obj? ==>
      forall id | id in expected.fields :: SilentOnRecord(noise, expected.fields[id])
  }

  ghost predicate SilentOnRecord(noise: set<string>, expected: Json) {
    expected.Obj? ==> expected.fields.Keys !! noise
  }

  ghost predicate Silent(noise: set<string>, expectedFinal: Dict) {
    && ("customers" in expectedFinal ==> SilentOnTable(noise, expectedFinal["customers"]))
    && ("orders" in expectedFinal ==> SilentOnTable(noise, expectedFinal["orders"]))
    && ("tickets" in expectedFinal ==> SilentOnTable(noise, expectedFinal["tickets"]))
  }

  lemma RecordVerdict(noise: set<string>, expected: Json, a: Dict, b: Dict)
    requires SilentOnRecord(noise, expected) && RecordAlike(noise, a, b)
    ensures Contains(expected, Obj(a)) <==> Contains(expected, Obj(b))
  {
    if expected.Obj? {
      forall k | k in expected.fields ensures k in a <==> k in b {}
    }
  }

  lemma TableVerdict(noise: set<string>, expected: Json, s: Table, t: Table)
    requires SilentOnTable(noise, expected) && TableAlike(noise, s, t)
    ensures Contains(expected, TableJson(s)) <==> Contains(expected, TableJson(t))
  {
    if expected.Obj? {
      forall id | id in expected.fields && id in s
        ensures Contains(expected.fields[id], Obj(s[id])) <==> Contains(expected.fields[id], Obj(t[id]))
      {
        RecordVerdict(noise, expected.fields[id], s[id], t[id]);
      }
    }
  }

  lemma PartVerdict(noise: set<string>, expectedFinal: Dict, w: World, v: World, c: string)
    requires Silent(noise, expectedFinal) && WorldAlike(noise, w, v)
    requires c in COLLECTIONS && c in expectedFinal
    ensures Contains(expectedFinal[c], TableJson(Part(w, c))) <==> Contains(expectedFinal[c], TableJson(Part(v, c)))
  {
    if c == "customers" || c == "orders" || c == "tickets" {
      TableVerdict(noise, expectedFinal[c], Part(w, c), Part(v, c));
    }
  }

  lemma VerdictAlike(noise: set<string>, expectedFinal: Dict, w: World, v: World)
    requires Silent(noise, expectedFinal) && WorldAlike(noise, w, v)
    ensures Contains(Obj(expectedFinal), Snapshot(w)) <==> Contains(Obj(expectedFinal), Snapshot(v))
  {
    hide Contains, TableJson, Part, WorldAlike, Silent;
    ContainsObjects(expectedFinal, Snapshot(w).fields);
    ContainsObjects(expectedFinal, Snapshot(v).fields);
    forall c | c in COLLECTIONS && c in expectedFinal
      ensures Contains(expectedFinal[c], Snapshot(w).fields[c]) <==> Contains(expectedFinal[c], Snapshot(v).fields[c])
    {
      PartVerdict(noise, expectedFinal, w, v, c);
    }
  }

  lemma TableSame(noise: set<string>, t: Table)
    ensures TableAlike(noise, t, t)
  {
  }

  lemma NoiseIsAlike(w: World, d: Draw)
    requires NoiseChoice(w, d)
    ensures Noise({d.field}) && WorldAlike({d.field}, w, AddNoise(w, d))
  {
    var t := TableOf(w, d.collection);
    TableSame({d.field}, w.customers);
    TableSame({d.field}, w.orders);
    TableSame({d.field}, w.tickets);
    TableSame({d.field}, t);
    var record := t[d.entity][d.field := Str(NOISE_FIELDS[d.field])];
    assert RecordAlike({d.field}, t[d.entity], record);
    TableWrite({d.field}, t, t, d.entity, t[d.entity], record);
    assert t[d.entity := t[d.entity]] == t;
    hide TableAlike;
  }

  /** A task whose seeded state differs by noise only, and whose contract is the same. */
  ghost predicate NoisyVersion(noise: set<string>, task: Task, noisy: Task) {
    && Noise(noise) && WorldAlike(noise, task.initial, noisy.initial)
    && noisy.expected == task.expected && noisy.forbidden == task.forbidden
    && noisy.expectedFinal == task.expectedFinal
  }

  lemma NoisyVerdict(noise: set<string>, task: Task, noisy: Task, calls: seq<ToolCall>)
    requires NoisyVersion(noise, task, noisy) && Silent(noise, task.expectedFinal)
    ensures Verdict(task, calls) <==> Verdict(noisy, calls)
  {
    RunAlike(noise, task.initial, noisy.initial, calls);
    VerdictAlike(noise, task.expectedFinal, After(task.initial, calls), After(noisy.initial, calls));
  }

  /** Main result: for every call sequence, the task and its noisy variant let each call
      succeed or fail alike, end in states equal up to the noise field, and give the same
      verdict whenever the expected final state says nothing about that field. */
  lemma {:induction false} NoisePreservesMeaning(task: Task, d: Draw, calls: seq<ToolCall>)
    requires NoiseChoice(task.initial, d) && DrawFits(task, ToolResultNoise, d)
    ensures var noisy, noise := Mutate(task, ToolResultNoise, d).task, {d.field};
      && NoisyVersion(noise, task, noisy)
      && WorldAlike(noise, After(task.initial, calls), After(noisy.initial, calls))
      && (forall i | 0 <= i < |calls| ::
            OutcomeAlike(noise, Step(After(task.initial, calls[..i]), calls[i]).outcome,
                         Step(After(noisy.initial, calls[..i]), calls[i]).outcome))
      && (Silent(noise, task.expectedFinal) ==> (Verdict(task, calls) <==> Verdict(noisy, calls)))
  {
    var noisy, noise := Mutate(task, ToolResultNoise, d).task, {d.field};
    NoiseIsAlike(task.initial, d);
    RunAlike(noise, task.initial, noisy.initial, calls);
    if Silent(noise, task.expectedFinal) {
      NoisyVerdict(noise, task, noisy, calls);
    }
  }
}
