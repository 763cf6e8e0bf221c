/** tool_environment/environment.py and services.py: the state one task run mutates. */
module SupportEnvironment {
  import opened Json
  import opened Schema
  import opened Services

  class SupportEnvironment {
    var customers: Table
    var orders: Table
    var refunds: Table
    var replacements: Table
    var tickets: Table

    /** The abstract state, and also what `snapshot` copies out. */
    function View(): World
      reads this
    {
      World(customers, orders, refunds, replacements, tickets)
    }

    constructor (initial: World)
      ensures View() == initial
    {
      customers, orders, refunds := initial.customers, initial.orders, initial.refunds;
      replacements, tickets := initial.replacements, initial.tickets;
    }

    method CancelOrder(id: Json, requester: Json) returns (outcome: Outcome)
      modifies this`orders
      ensures Effect(View(), outcome) == Services.CancelOrder(old(View()), id, requester)
    {
      var refused := OrderGuard(View(), id, requester);
      if refused.Some? {
        return refused.value;
      }
      var order := orders[id.s];
      if "status" !in order {
        return Escaped(KeyError);
      }
      var cancellable := InStatusSet(order["status"], CANCELLABLE_STATUSES);
      if cancellable.None? {
        return Failed(TypeError);
      }
      if !cancellable.value {
        return Failed(PolicyViolationError);
      }
      order := order["status" := CANCELLED];
      orders := orders[id.s := order];
      return Returned(Obj(order));
    }

    method ReplaceItem(id: Json, requester: Json, sku: Json, reason: Json) returns (outcome: Outcome)
      modifies this`replacements
      ensures Effect(View(), outcome) == Services.ReplaceItem(old(View()), id, requester, sku, reason)
    {
      var refused := OrderGuard(View(), id, requester);
      if refused.Some? {
        return refused.value;
      }
      match ScanOrder(orders[id.s], sku) {
        case Miss => return Failed(NotFoundError);
        case BadKey => return Escaped(KeyError);
        case BadType => return Failed(TypeError);
        case Hit =>
      }
      if id.s in replacements {
        return Failed(PolicyViolationError);
      }
      var policy := CheckReplacementPolicy(View(), id);
      if !policy.Returned? {
        return policy;
      }
      if !SaysEligible(policy) {
        return Failed(PolicyViolationError);
      }
      var replacement := ReplacementRecord(id, sku, reason);
      replacements := replacements[id.s := replacement];
      return Returned(Obj(replacement));
    }

    method CreateRefund(id: Json, requester: Json, amount: Json, reason: Json) returns (outcome: Outcome)
      modifies this`refunds
      ensures Effect(View(), outcome) == Services.CreateRefund(old(View()), id, requester, amount, reason)
    {
      var refused := OrderGuard(View(), id, requester);
      if refused.Some? {
        return refused.value;
      }
      if id.s in refunds {
        return Failed(PolicyViolationError);
      }
      var policy := CheckRefundPolicy(View(), id);
      if !policy.Returned? {
        return policy;
      }
      if !SaysEligible(policy) {
        return Failed(PolicyViolationError);
      }
      var exceeds := Exceeds(amount, Get(policy.value.fields, "max_refund_cents"));
      if exceeds.None? {
        return Failed(TypeError);
      }
      if exceeds.value {
        return Failed(PolicyViolationError);
      }
      var refund := RefundRecord(id, amount, reason);
      refunds := refunds[id.s := refund];
      return Returned(Obj(refund));
    }

    method UpdateTicket(id: Json, status: Json, note: Json) returns (outcome: Outcome)
      modifies this`tickets
      ensures Effect(View(), outcome) == Services.UpdateTicket(old(View()), id, status, note)
    {
      var missing := Missing(tickets, id);
      if missing.Some? {
        return Failed(missing.value);
      }
      var ticket := tickets[id.s];
      if !status.Null? {
        ticket := ticket["status" := status];
      }
      if !note.Null? {
        var noted := AddNote(ticket, note);
        if noted.None? {
          tickets := tickets[id.s := ticket];
          return Escaped(AttributeError);
        }
        ticket := noted.value;
      }
      tickets := tickets[id.s := ticket];
      return Returned(Obj(ticket));
    }

    method EscalateTicket(id: Json, reason: Json) returns (outcome: Outcome)
      modifies this`tickets
      ensures Effect(View(), outcome) == Services.EscalateTicket(old(View()), id, reason)
    {
      var missing := Missing(tickets, id);
      if missing.Some? {
        return Failed(missing.value);
      }
      var ticket := tickets[id.s];
      if "status" !in ticket {
        return Escaped(KeyError);
      }
      var escalatable := InStatusSet(ticket["status"], ESCALATABLE_STATUSES);
      if escalatable.None? {
        return Failed(TypeError);
      }
      if !escalatable.value {
        return Failed(PolicyViolationError);
      }
      // `ticket` aliases the stored record, so every way out leaves its writes in the table.
      ticket := ticket["status" := ESCALATED];
      var counted := CountUp(ticket);
      if counted.None? {
        tickets := tickets[id.s := ticket];
        return Failed(TypeError);
      }
      ticket := counted.value;
      var noted := AddNote(ticket, reason);
      if noted.None? {
        tickets := tickets[id.s := ticket];
        return Escaped(AttributeError);
      }
      ticket := noted.value;
      tickets := tickets[id.s := ticket];
      return Returned(Obj(ticket));
    }

    /** Resolving and running one tool call. */
    method Invoke(call: ToolCall) returns (outcome: Outcome)
      modifies this
      ensures Effect(View(), outcome) == Step(old(View()), call)
    {
      var a := call.arguments;
      match (call.service, call.operation) {
        case ("customer", "get_customer") =>
          if Binds(a, {"customer_id"}, {}) { return GetRecord(customers, a["customer_id"]); }
        case ("order", "get_order") =>
          if Binds(a, {"order_id"}, {}) { return GetRecord(orders, a["order_id"]); }
        case ("order", "cancel_order") =>
          if Binds(a, {"order_id", "requesting_customer_id"}, {}) {
            outcome := CancelOrder(a["order_id"], a["requesting_customer_id"]);
            return;
          }
        case ("order", "replace_item") =>
          if Binds(a, {"order_id", "requesting_customer_id", "sku", "reason"}, {}) {
            outcome := ReplaceItem(a["order_id"], a["requesting_customer_id"], a["sku"], a["reason"]);
            return;
          }
        case ("policy", "check_refund_policy") =>
          if Binds(a, {"order_id"}, {}) { return CheckRefundPolicy(View(), a["order_id"]); }
        case ("policy", "check_replacement_policy") =>
          if Binds(a, {"order_id"}, {}) { return CheckReplacementPolicy(View(), a["order_id"]); }
        case ("refund", "create_refund") =>
          if Binds(a, {"order_id", "requesting_customer_id", "amount_cents", "reason"}, {}) {
            outcome := CreateRefund(a["order_id"], a["requesting_customer_id"], a["amount_cents"], a["reason"]);
            return;
          }
        case ("ticket", "update_ticket") =>
          if Binds(a, {"ticket_id"}, {"status", "note"}) {
            outcome := UpdateTicket(a["ticket_id"], Get(a, "status"), Get(a, "note"));
            return;
          }
        case ("ticket", "escalate_ticket") =>
          if Binds(a, {"ticket_id", "reason"}, {}) {
            outcome := EscalateTicket(a["ticket_id"], a["reason"]);
            return;
          }
        case _ => return Failed(UnknownToolError);
      }
      return Failed(TypeError);
    }
  }
}
