/** What every run of the support services keeps, whatever calls are made in whatever order,
    and whether or not they succeed. */
module SupportSafety {
  import opened Json
  import opened Schema
  import opened Services

  // ---------------------------------------------------------------- one run, as a relation

  /** An order never appears or disappears; the only change is a cancellation, from a
      cancellable status, and only of the status. */
  ghost predicate OrderEvolves(before: Dict, after: Dict) {
    || after == before
    || (after == before["status" := CANCELLED] && "status" in before && before["status"].Str?
        && before["status"].s in CANCELLABLE_STATUSES)
  }

  ghost predicate WithinWindow(order: Dict, window: int) {
    && Get(order, "status") == DELIVERED
    && Get(order, "delivered_days_ago").Num? && order["delivered_days_ago"].n <= window
  }

  /** The entry is a refund of its order that the policy allows in this very state. */
  ghost predicate RefundJustified(orders: Table, id: string, refund: Dict) {
    && id in orders && WithinWindow(orders[id], REFUND_WINDOW_DAYS)
    && refund.Keys == {"order_id", "amount_cents", "reason"} && refund["order_id"] == Str(id)
    && refund["amount_cents"].Num? && Get(orders[id], "total_cents").Num?
    && refund["amount_cents"].n <= orders[id]["total_cents"].n
  }

  ghost predicate HasItem(order: Dict, sku: Json) {
    && Get(order, "items").Arr?
    && exists i | 0 <= i < |order["items"].items| :: IsItem(order["items"].items[i], sku)
  }

  ghost predicate IsItem(item: Json, sku: Json) {
    item.Obj? && "sku" in item.fields && item.fields["sku"] == sku
  }

  ghost predicate ReplacementJustified(orders: Table, id: string, replacement: Dict) {
    && id in orders && WithinWindow(orders[id], REPLACEMENT_WINDOW_DAYS)
    && replacement.Keys == {"order_id", "sku", "reason"} && replacement["order_id"] == Str(id)
    && HasItem(orders[id], replacement["sku"])
  }

  ghost predicate NotesGrow(before: Dict, after: Dict) {
    "notes" in before ==>
      && "notes" in after
      && if before["notes"].Arr? then after["notes"].Arr? && before["notes"].items <= after["notes"].items
         else after["notes"] == before["notes"]
  }

  ghost predicate CounterGrows(before: Dict, after: Dict) {
    "escalation_count" in before ==>
      && "escalation_count" in after
      && if before["escalation_count"].Num?
         then after["escalation_count"].Num? && before["escalation_count"].n <= after["escalation_count"].n
         else after["escalation_count"] == before["escalation_count"]
  }

  predicate Volatile(field: string) {
    field == "status" || field == "notes" || field == "escalation_count"
  }

  /** Notes are only appended, the escalation counter only grows, and no other field but
      the status changes. */
  ghost predicate TicketEvolves(before: Dict, after: Dict) {
    && NotesGrow(before, after)
    && CounterGrows(before, after)
    && (forall k | !Volatile(k) :: k in before <==> k in after)
    && (forall k | !Volatile(k) && k in before && k in after :: before[k] == after[k])
  }

  ghost predicate OrdersEvolve(before: Table, after: Table) {
    after.Keys == before.Keys && forall id | id in before :: OrderEvolves(before[id], after[id])
  }

  ghost predicate TicketsEvolve(before: Table, after: Table) {
    after.Keys == before.Keys && forall id | id in before :: TicketEvolves(before[id], after[id])
  }

  /** Entries are never altered or removed. */
  ghost predicate Extends(before: Table, after: Table) {
    before.Keys <= after.Keys && forall id | id in before :: after[id] == before[id]
  }

  ghost predicate RefundsJustified(before: Table, after: Table, orders: Table) {
    forall id | id in after && id !in before :: RefundJustified(orders, id, after[id])
  }

  ghost predicate ReplacementsJustified(before: Table, after: Table, orders: Table) {
    forall id | id in after && id !in before :: ReplacementJustified(orders, id, after[id])
  }

  /** `w` can follow `w0` in a run. */
  ghost predicate Evolves(w0: World, w: World) {
    && w.customers == w0.customers
    && OrdersEvolve(w0.orders, w.orders)
    && Extends(w0.refunds, w.refunds) && RefundsJustified(w0.refunds, w.refunds, w.orders)
    && Extends(w0.replacements, w.replacements)
    && ReplacementsJustified(w0.replacements, w.replacements, w.orders)
    && TicketsEvolve(w0.tickets, w.tickets)
  }

  // ---------------------------------------------------------------- single operations

  lemma SameEvolves(w: World)
    ensures Evolves(w, w)
  {
  }

  /** Rewriting one ticket within the rules. */
  lemma OneTicketEvolves(w: World, id: string, ticket: Dict)
    requires id in w.tickets && TicketEvolves(w.tickets[id], ticket)
    ensures Evolves(w, w.(tickets := w.tickets[id := ticket]))
  {
    SameEvolves(w);
  }

  lemma CancelEvolves(w: World, id: Json, requester: Json)
    ensures Evolves(w, CancelOrder(w, id, requester).world)
  {
    SameEvolves(w);
    var e := CancelOrder(w, id, requester);
    if e.world != w {
      assert OrdersEvolve(w.orders, e.world.orders);
    }
  }

  lemma {:induction false} HitHasItem(items: seq<Json>, sku: Json)
    requires ScanItems(items, sku) == Hit
    ensures exists i | 0 <= i < |items| :: IsItem(items[i], sku)
  {
    if IsItem(items[0], sku) {
    } else {
      HitHasItem(items[1..], sku);
      var i :| 0 <= i < |items[1..]| && IsItem(items[1..][i], sku);
      assert items[i + 1] == items[1..][i];
    }
  }

  lemma EligibleForReplacement(w: World, id: Json)
    requires SaysEligible(CheckReplacementPolicy(w, id))
    ensures id.Str? && id.s in w.orders && WithinWindow(w.orders[id.s], REPLACEMENT_WINDOW_DAYS)
  {
  }

  lemma EligibleForRefund(w: World, id: Json)
    requires SaysEligible(CheckRefundPolicy(w, id))
    ensures id.Str? && id.s in w.orders && WithinWindow(w.orders[id.s], REFUND_WINDOW_DAYS)
    ensures Get(CheckRefundPolicy(w, id).value.fields, "max_refund_cents") == Get(w.orders[id.s], "total_cents")
  {
  }

  lemma HitMeansHasItem(order: Dict, sku: Json)
    requires ScanOrder(order, sku) == Hit
    ensures HasItem(order, sku)
  {
    HitHasItem(order["items"].items, sku);
  }

  lemma IssuedReplacement(table: Table, id: string, scan: Scan, policy: Outcome, sku: Json, reason: Json)
    ensures var after := IssueReplacement(table, id, scan, policy, sku, reason).0;
      after == table
      || (scan == Hit && SaysEligible(policy) && id !in table
          && after == table[id := ReplacementRecord(Str(id), sku, reason)])
  {
  }

  lemma ReplaceEvolves(w: World, id: Json, requester: Json, sku: Json, reason: Json)
    ensures Evolves(w, ReplaceItem(w, id, requester, sku, reason).world)
  {
    SameEvolves(w);
    hide CheckReplacementPolicy, SaysEligible, OrdersEvolve, TicketsEvolve, RefundsJustified, IssueReplacement,
      ScanOrder, WithinWindow, HasItem, OrderGuard;
    if OrderGuard(w, id, requester).None? {
      GuardPassed(w, id, requester);
      var scan, policy := ScanOrder(w.orders[id.s], sku), CheckReplacementPolicy(w, id);
      IssuedReplacement(w.replacements, id.s, scan, policy, sku, reason);
      if scan == Hit && SaysEligible(policy) {
        EligibleForReplacement(w, id);
        HitMeansHasItem(w.orders[id.s], sku);
      }
    }
  }

  lemma RefundEvolves(w: World, id: Json, requester: Json, amount: Json, reason: Json)
    ensures Evolves(w, CreateRefund(w, id, requester, amount, reason).world)
  {
    SameEvolves(w);
    hide CheckRefundPolicy, SaysEligible;
    var e := CreateRefund(w, id, requester, amount, reason);
    if e.world != w {
      EligibleForRefund(w, id);
      assert RefundJustified(w.orders, id.s, e.world.refunds[id.s]);
      hide WithinWindow;
    }
  }

  lemma TicketEvolvesTransitive(a: Dict, b: Dict, c: Dict)
    requires TicketEvolves(a, b) && TicketEvolves(b, c)
    ensures TicketEvolves(a, c)
  {
    assert NotesGrow(a, c) && CounterGrows(a, c);
    forall k | !Volatile(k) ensures k in a <==> k in c {
      assert k in a <==> k in b;
    }
  }

  lemma StatusWriteEvolves(ticket: Dict, status: Json)
    ensures TicketEvolves(ticket, ticket["status" := status])
  {
  }

  lemma CountUpEvolves(ticket: Dict)
    requires CountUp(ticket).Some?
    ensures TicketEvolves(ticket, CountUp(ticket).value)
  {
  }

  lemma AddNoteEvolves(ticket: Dict, note: Json)
    requires AddNote(ticket, note).Some?
    ensures TicketEvolves(ticket, AddNote(ticket, note).value)
  {
  }

  lemma UpdateRecordEvolves(ticket: Dict, status: Json, note: Json)
    ensures TicketEvolves(ticket, UpdateRecord(ticket, status, note).0)
  {
    var moved := if status.Null? then ticket else ticket["status" := status];
    StatusWriteEvolves(ticket, status);
    assert TicketEvolves(ticket, moved);
    if !note.Null? && AddNote(moved, note).Some? {
      AddNoteEvolves(moved, note);
      TicketEvolvesTransitive(ticket, moved, AddNote(moved, note).value);
    }
  }

  lemma UpdateEvolves(w: World, id: Json, status: Json, note: Json)
    ensures Evolves(w, UpdateTicket(w, id, status, note).world)
  {
    SameEvolves(w);
    if Missing(w.tickets, id).None? {
      UpdateRecordEvolves(w.tickets[id.s], status, note);
      OneTicketEvolves(w, id.s, UpdateRecord(w.tickets[id.s], status, note).0);
    }
  }

  lemma EscalatedEvolves(ticket: Dict, reason: Json)
    ensures TicketEvolves(ticket, Escalated(ticket, reason).0)
  {
    var moved := ticket["status" := ESCALATED];
    StatusWriteEvolves(ticket, ESCALATED);
    if CountUp(moved).Some? {
      var counted := CountUp(moved).value;
      CountUpEvolves(moved);
      TicketEvolvesTransitive(ticket, moved, counted);
      if AddNote(counted, reason).Some? {
        AddNoteEvolves(counted, reason);
        TicketEvolvesTransitive(ticket, counted, AddNote(counted, reason).value);
      }
    }
  }

  lemma EscalateEvolves(w: World, id: Json, reason: Json)
    ensures Evolves(w, EscalateTicket(w, id, reason).world)
  {
    SameEvolves(w);
    if Missing(w.tickets, id).None? {
      var ticket := w.tickets[id.s];
      EscalatedEvolves(ticket, reason);
      assert TicketEvolves(ticket, ticket);
      OneTicketEvolves(w, id.s, EscalateRecord(ticket, reason).0);
    }
  }

  lemma StepEvolves(w: World, call: ToolCall)
    ensures Evolves(w, Step(w, call).world)
  {
    var a := call.arguments;
    if Step(w, call).world != w {
      match (call.service, call.operation)
      case ("order", "cancel_order") =>
        CancelEvolves(w, a["order_id"], a["requesting_customer_id"]);
      case ("order", "replace_item") =>
        ReplaceEvolves(w, a["order_id"], a["requesting_customer_id"], a["sku"], a["reason"]);
      case ("refund", "create_refund") =>
        RefundEvolves(w, a["order_id"], a["requesting_customer_id"], a["amount_cents"], a["reason"]);
      case ("ticket", "update_ticket") =>
        UpdateEvolves(w, a["ticket_id"], Get(a, "status"), Get(a, "note"));
      case ("ticket", "escalate_ticket") =>
        EscalateEvolves(w, a["ticket_id"], a["reason"]);
      case _ =>
    }
  }

  // ---------------------------------------------------------------- whole runs

  lemma JustifiedPersists(before: Table, after: Table, id: string, entry: Dict)
    requires OrdersEvolve(before, after)
    ensures RefundJustified(before, id, entry) ==> RefundJustified(after, id, entry)
    ensures ReplacementJustified(before, id, entry) ==> ReplacementJustified(after, id, entry)
  {
    assert id in before ==> OrderEvolves(before[id], after[id]);
  }

  lemma EvolvesTransitive(a: World, b: World, c: World)
    requires Evolves(a, b) && Evolves(b, c)
    ensures Evolves(a, c)
  {
    assert TicketsEvolve(a.tickets, c.tickets) by {
      forall id | id in a.tickets ensures TicketEvolves(a.tickets[id], c.tickets[id]) {
        TicketEvolvesTransitive(a.tickets[id], b.tickets[id], c.tickets[id]);
      }
    }
    assert OrdersEvolve(a.orders, c.orders) by {
      forall id | id in a.orders ensures OrderEvolves(a.orders[id], c.orders[id]) {
        assert OrderEvolves(a.orders[id], b.orders[id]) && OrderEvolves(b.orders[id], c.orders[id]);
      }
    }
    forall id, entry { JustifiedPersists(b.orders, c.orders, id, entry); }
  }

  /** Every state a run reaches follows its initial state: refund and replacement entries
      are never altered or removed, and every entry the run added is justified by the
      final state. */
  lemma {:induction false} RunEvolves(w: World, calls: seq<ToolCall>)
    ensures Evolves(w, After(w, calls))
  {
    if calls == [] {
    } else {
      var before := After(w, calls[..|calls| - 1]);
      RunEvolves(w, calls[..|calls| - 1]);
      StepEvolves(before, calls[|calls| - 1]);
      EvolvesTransitive(w, before, After(w, calls));
    }
  }

  /** No order is both cancelled and refunded or replaced by the same run. */
  lemma NeverCancelledAndPaid(w: World, calls: seq<ToolCall>, id: string)
    ensures var end := After(w, calls);
      id in w.orders && id in end.orders && end.orders[id] != w.orders[id] ==>
        && Get(end.orders[id], "status") == CANCELLED
        && (id in end.refunds ==> id in w.refunds)
        && (id in end.replacements ==> id in w.replacements)
  {
    RunEvolves(w, calls);
    var end := After(w, calls);
    if id in w.orders && end.orders[id] != w.orders[id] {
      assert OrderEvolves(w.orders[id], end.orders[id]);
      assert CANCELLED.s[0] != DELIVERED.s[0];
      assert id in end.refunds && id !in w.refunds ==> RefundJustified(end.orders, id, end.refunds[id]);
    }
  }

  /** The policy answers for an order are the same in every state of a run. */
  lemma {:induction false} PolicyStable(w: World, calls: seq<ToolCall>, id: Json)
    ensures CheckRefundPolicy(After(w, calls), id) == CheckRefundPolicy(w, id)
    ensures CheckReplacementPolicy(After(w, calls), id) == CheckReplacementPolicy(w, id)
  {
    RunEvolves(w, calls);
    var end := After(w, calls);
    assert CANCELLED.s[0] != DELIVERED.s[0];
    assert id.Str? && id.s in w.orders ==> OrderEvolves(w.orders[id.s], end.orders[id.s]);
  }

  /** An entry justified by a state is one its policy allows. */
  lemma JustifiedMeansEligible(w: World, id: string)
    ensures id in w.refunds && RefundJustified(w.orders, id, w.refunds[id])
            ==> SaysEligible(CheckRefundPolicy(w, Str(id)))
    ensures id in w.replacements && ReplacementJustified(w.orders, id, w.replacements[id])
            ==> SaysEligible(CheckReplacementPolicy(w, Str(id)))
  {
  }

  /** An order the policy refuses at the start never acquires a refund or a replacement,
      whatever calls come in between. */
  lemma IneligibleStaysUnpaid(w: World, calls: seq<ToolCall>, id: string)
    ensures !SaysEligible(CheckRefundPolicy(w, Str(id))) && id !in w.refunds
            ==> id !in After(w, calls).refunds
    ensures !SaysEligible(CheckReplacementPolicy(w, Str(id))) && id !in w.replacements
            ==> id !in After(w, calls).replacements
  {
    RunEvolves(w, calls);
    PolicyStable(w, calls, Str(id));
    var end := After(w, calls);
    hide CheckRefundPolicy, CheckReplacementPolicy, After;
    if id in end.refunds && id !in w.refunds {
      assert RefundJustified(end.orders, id, end.refunds[id]);
      JustifiedMeansEligible(end, id);
    }
    if id in end.replacements && id !in w.replacements {
      assert ReplacementJustified(end.orders, id, end.replacements[id]);
      JustifiedMeansEligible(end, id);
    }
  }

  // ---------------------------------------------------------------- failed calls

  /** The one call that changes the state and then fails: escalating an escalatable ticket
      whose counter is present but not a number writes the status before it raises. */
  ghost predicate HalfEscalates(w: World, call: ToolCall) {
    && call.service == "ticket" && call.operation == "escalate_ticket"
    && Binds(call.arguments, {"ticket_id", "reason"}, {})
    && HalfEscalatesTicket(w, call.arguments["ticket_id"])
  }

  ghost predicate HalfEscalatesTicket(w: World, id: Json) {
    && Missing(w.tickets, id).None?
    && var ticket := w.tickets[id.s];
       && Get(ticket, "status").Str? && ticket["status"].s in ESCALATABLE_STATUSES
       && "escalation_count" in ticket && !ticket["escalation_count"].Num?
  }

  lemma FailedOrderCallIsIdentity(w: World, id: Json, requester: Json)
    ensures CancelOrder(w, id, requester).outcome.Failed? ==> CancelOrder(w, id, requester).world == w
  {
  }

  lemma FailedPaymentIsIdentity(w: World, id: Json, requester: Json, x: Json, reason: Json)
    ensures ReplaceItem(w, id, requester, x, reason).outcome.Failed?
            ==> ReplaceItem(w, id, requester, x, reason).world == w
    ensures CreateRefund(w, id, requester, x, reason).outcome.Failed?
            ==> CreateRefund(w, id, requester, x, reason).world == w
  {
    hide CheckReplacementPolicy, CheckRefundPolicy, ScanOrder;
  }

  lemma FailedUpdateIsIdentity(w: World, id: Json, status: Json, note: Json)
    ensures UpdateTicket(w, id, status, note).outcome.Failed? ==> UpdateTicket(w, id, status, note).world == w
  {
  }

  lemma FailedEscalation(w: World, id: Json, reason: Json)
    requires EscalateTicket(w, id, reason).outcome.Failed?
    ensures EscalateTicket(w, id, reason).world == w <==> !HalfEscalatesTicket(w, id)
  {
    if HalfEscalatesTicket(w, id) {
      var ticket := w.tickets[id.s];
      assert ticket["status"].s != ESCALATED.s by {
        assert |ticket["status"].s| < |ESCALATED.s|;
      }
      assert EscalateTicket(w, id, reason).world.tickets[id.s]["status"] == ESCALATED;
    }
  }

  /** A failed call leaves the state as it was, except exactly in that case. */
  lemma {:induction false} FailedCallIsIdentityUnless(w: World, call: ToolCall)
    requires Step(w, call).outcome.Failed?
    ensures Step(w, call).world == w <==> !HalfEscalates(w, call)
  {
    hide CancelOrder, ReplaceItem, CreateRefund, UpdateTicket, EscalateTicket, HalfEscalatesTicket;
    hide CheckReplacementPolicy, CheckRefundPolicy, GetRecord;
    var a := call.arguments;
    match (call.service, call.operation)
    case ("order", "cancel_order") =>
      FailedOrderCallIsIdentity(w, Get(a, "order_id"), Get(a, "requesting_customer_id"));
    case ("order", "replace_item") =>
      FailedPaymentIsIdentity(w, Get(a, "order_id"), Get(a, "requesting_customer_id"), Get(a, "sku"), Get(a, "reason"));
    case ("refund", "create_refund") =>
      FailedPaymentIsIdentity(w, Get(a, "order_id"), Get(a, "requesting_customer_id"), Get(a, "amount_cents"),
                              Get(a, "reason"));
    case ("ticket", "update_ticket") =>
      FailedUpdateIsIdentity(w, Get(a, "ticket_id"), Get(a, "status"), Get(a, "note"));
    case ("ticket", "escalate_ticket") =>
      if Binds(a, {"ticket_id", "reason"}, {}) {
        FailedEscalation(w, a["ticket_id"], a["reason"]);
      }
    case _ =>
  }

  /** Such a call exists: the claim that failed calls never change the state is false. */
  lemma FailedCallCanChangeState()
    ensures exists w, call :: Step(w, call).outcome == Failed(TypeError) && Step(w, call).world != w
  {
    var ticket := map["status" := Str("open"), "escalation_count" := Null];
    var w := World(map[], map[], map[], map[], map["T" := ticket]);
    var call := ToolCall("ticket", "escalate_ticket", map["ticket_id" := Str("T"), "reason" := Str("r")]);
    assert call.arguments.Keys == {"ticket_id", "reason"};
    assert HalfEscalates(w, call);
    FailedCallIsIdentityUnless(w, call);
  }
}
