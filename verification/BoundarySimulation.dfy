/** The boundary variant of a full-refund task asks for the same thing at another price: a
    sequence of calls passes the task exactly when the sequence with its refund amounts
    shifted passes the variant. */
module BoundarySimulation {
  import opened Json
  import opened Schema
  import opened Services
  import opened Contracts
  import opened Judging
  import opened Mutations
  import SupportSafety

  // ---------------------------------------------------------------- shifted calls and states

  predicate OnOrder(call: ToolCall, order: string) {
    IsRefund(call.service, call.operation) && Get(call.arguments, "order_id") == Str(order)
  }

  /** The same call with its refund amount on that order shifted. */
  function ShiftCall(call: ToolCall, order: string, delta: int): ToolCall {
    if OnOrder(call, order) && Get(call.arguments, "amount_cents").Num?
    then call.(arguments := Amount(call.arguments, call.arguments["amount_cents"].n + delta))
    else call
  }

  function ShiftCalls(calls: seq<ToolCall>, order: string, delta: int): seq<ToolCall> {
    seq(|calls|, i requires 0 <= i < |calls| => ShiftCall(calls[i], order, delta))
  }

  /** `b` is `a` with a number under `k` that is larger by `delta`. */
  ghost predicate ShiftedAt(a: Dict, b: Dict, k: string, delta: int) {
    && k in a && a[k].Num? && b == a[k := Num(a[k].n + delta)]
  }

  ghost predicate ShiftedTable(a: Table, b: Table, order: string, k: string, delta: int) {
    && a.Keys == b.Keys
    && (forall id | id in a && id != order :: a[id] == b[id])
    && (order in a ==> ShiftedAt(a[order], b[order], k, delta))
  }

  /** The order's total is shifted, and so is its refund once there is one. */
  ghost predicate Shifted(a: World, b: World, order: string, delta: int) {
    && a.customers == b.customers && a.tickets == b.tickets && a.replacements == b.replacements
    && order in a.orders && ShiftedTable(a.orders, b.orders, order, "total_cents", delta)
    && ShiftedTable(a.refunds, b.refunds, order, "amount_cents", delta)
  }

  /** The same failure, or a success on both sides. */
  ghost predicate SameKind(a: Outcome, b: Outcome) {
    a == b || (a.Returned? && b.Returned?)
  }

  ghost predicate EffectShifted(a: Effect, b: Effect, order: string, delta: int) {
    Shifted(a.world, b.world, order, delta) && SameKind(a.outcome, b.outcome)
  }

  // ---------------------------------------------------------------- the services

  lemma ShiftReads(a: Dict, b: Dict, k: string, delta: int, other: string)
    requires ShiftedAt(a, b, k, delta) && other != k
    ensures other in a <==> other in b
    ensures Get(a, other) == Get(b, other)
  {
  }

  lemma GuardShifted(w: World, v: World, order: string, delta: int, id: Json, requester: Json)
    requires Shifted(w, v, order, delta)
    ensures OrderGuard(w, id, requester) == OrderGuard(v, id, requester)
  {
    if id == Str(order) {
      ShiftReads(w.orders[order], v.orders[order], "total_cents", delta, "customer_id");
    }
  }

  lemma ReplacementPolicyShifted(w: World, v: World, order: string, delta: int, id: Json)
    requires Shifted(w, v, order, delta)
    ensures CheckReplacementPolicy(w, id) == CheckReplacementPolicy(v, id)
  {
    var a, b := w.orders[order], v.orders[order];
    ShiftReads(a, b, "total_cents", delta, "status");
    ShiftReads(a, b, "total_cents", delta, "delivered_days_ago");
    assert Window(a, REPLACEMENT_WINDOW_DAYS) == Window(b, REPLACEMENT_WINDOW_DAYS);
  }

  lemma RefundPolicyShifted(w: World, v: World, order: string, delta: int, id: Json)
    requires Shifted(w, v, order, delta)
    ensures id != Str(order) ==> CheckRefundPolicy(w, id) == CheckRefundPolicy(v, id)
    ensures var p, q := CheckRefundPolicy(w, id), CheckRefundPolicy(v, id);
      && SameKind(p, q)
      && (SaysEligible(p) <==> SaysEligible(q))
      && (id == Str(order) && SaysEligible(p) ==>
            && Get(p.value.fields, "max_refund_cents") == w.orders[order]["total_cents"]
            && Get(q.value.fields, "max_refund_cents") == Num(w.orders[order]["total_cents"].n + delta))
  {
    var a, b := w.orders[order], v.orders[order];
    ShiftReads(a, b, "total_cents", delta, "status");
    ShiftReads(a, b, "total_cents", delta, "delivered_days_ago");
    assert Window(a, REFUND_WINDOW_DAYS) == Window(b, REFUND_WINDOW_DAYS);
  }

  lemma WriteShifted(r: Table, s: Table, order: string, k: string, delta: int, id: string, a: Dict, b: Dict)
    requires ShiftedTable(r, s, order, k, delta)
    requires if id == order then ShiftedAt(a, b, k, delta) else a == b
    ensures ShiftedTable(r[id := a], s[id := b], order, k, delta)
  {
  }

  lemma WithRefunds(w: World, v: World, order: string, delta: int, r: Table, s: Table)
    requires Shifted(w, v, order, delta) && ShiftedTable(r, s, order, "amount_cents", delta)
    ensures Shifted(w.(refunds := r), v.(refunds := s), order, delta)
  {
  }

  lemma WithReplacements(w: World, v: World, order: string, delta: int, t: Table)
    requires Shifted(w, v, order, delta)
    ensures Shifted(w.(replacements := t), v.(replacements := t), order, delta)
  {
  }

  lemma WithOrder(w: World, v: World, order: string, delta: int, id: string, a: Dict, b: Dict)
    requires Shifted(w, v, order, delta) && id in w.orders
    requires if id == order then ShiftedAt(a, b, "total_cents", delta) else a == b
    ensures Shifted(w.(orders := w.orders[id := a]), v.(orders := v.orders[id := b]), order, delta)
  {
    WriteShifted(w.orders, v.orders, order, "total_cents", delta, id, a, b);
  }

  lemma CancelRecordShifted(a: Dict, b: Dict, delta: int)
    requires ShiftedAt(a, b, "total_cents", delta)
    ensures ShiftedAt(CancelRecord(a).0, CancelRecord(b).0, "total_cents", delta)
    ensures SameKind(CancelRecord(a).1, CancelRecord(b).1)
  {
    ShiftReads(a, b, "total_cents", delta, "status");
    assert |"status"| != |"total_cents"|;
    assert b["status" := CANCELLED] == a["status" := CANCELLED]["total_cents" := Num(a["total_cents"].n + delta)];
  }

  lemma CancelShifted(w: World, v: World, order: string, delta: int, id: Json, requester: Json)
    requires Shifted(w, v, order, delta)
    ensures EffectShifted(CancelOrder(w, id, requester), CancelOrder(v, id, requester), order, delta)
  {
    GuardShifted(w, v, order, delta, id, requester);
    if OrderGuard(w, id, requester).None? {
      GuardPassed(w, id, requester);
      if id == Str(order) {
        CancelRecordShifted(w.orders[order], v.orders[order], delta);
      }
      WithOrder(w, v, order, delta, id.s, CancelRecord(w.orders[id.s]).0, CancelRecord(v.orders[id.s]).0);
    }
    hide CancelRecord, ShiftedAt, ShiftedTable, OrderGuard;
  }

  lemma ScanShifted(w: World, v: World, order: string, delta: int, id: string, sku: Json)
    requires Shifted(w, v, order, delta) && id in w.orders
    ensures ScanOrder(w.orders[id], sku) == ScanOrder(v.orders[id], sku)
  {
    if id == order {
      ShiftReads(w.orders[order], v.orders[order], "total_cents", delta, "items");
    }
  }

  lemma ReplaceShifted(w: World, v: World, order: string, delta: int, id: Json, requester: Json, sku: Json,
                       reason: Json)
    requires Shifted(w, v, order, delta)
    ensures EffectShifted(ReplaceItem(w, id, requester, sku, reason), ReplaceItem(v, id, requester, sku, reason),
                          order, delta)
  {
    hide CheckReplacementPolicy, CheckRefundPolicy, OrderGuard, IssueReplacement, ScanOrder, ShiftedTable;
    GuardShifted(w, v, order, delta, id, requester);
    ReplacementPolicyShifted(w, v, order, delta, id);
    if OrderGuard(w, id, requester).None? {
      GuardPassed(w, id, requester);
      ScanShifted(w, v, order, delta, id.s, sku);
      var scan, policy := ScanOrder(w.orders[id.s], sku), CheckReplacementPolicy(w, id);
      WithReplacements(w, v, order, delta, IssueReplacement(w.replacements, id.s, scan, policy, sku, reason).0);
    }
  }

  /** Shifting the amount with the limit decides the comparison alike. */
  lemma IssueShifted(r: Table, s: Table, order: string, delta: int, p: Outcome, q: Outcome,
                     amount: Json, reason: Json, total: int)
    requires ShiftedTable(r, s, order, "amount_cents", delta)
    requires SameKind(p, q) && (SaysEligible(p) <==> SaysEligible(q))
    requires SaysEligible(p) ==>
      && Get(p.value.fields, "max_refund_cents") == Num(total)
      && Get(q.value.fields, "max_refund_cents") == Num(total + delta)
    ensures var shifted := if amount.Num? then Num(amount.n + delta) else amount;
      var a, b := IssueRefund(r, order, p, amount, reason), IssueRefund(s, order, q, shifted, reason);
      ShiftedTable(a.0, b.0, order, "amount_cents", delta) && SameKind(a.1, b.1)
  {
    if order !in r && SaysEligible(p) && amount.Num? {
      var a, b := RefundRecord(Str(order), amount, reason), RefundRecord(Str(order), Num(amount.n + delta), reason);
      assert b == a["amount_cents" := Num(amount.n + delta)];
    }
  }

  lemma RefundShifted(w: World, v: World, order: string, delta: int, id: Json, requester: Json, amount: Json,
                      reason: Json)
    requires Shifted(w, v, order, delta)
    ensures var shifted := if id == Str(order) && amount.Num? then Num(amount.n + delta) else amount;
      EffectShifted(CreateRefund(w, id, requester, amount, reason), CreateRefund(v, id, requester, shifted, reason),
                    order, delta)
  {
    hide CheckReplacementPolicy, CheckRefundPolicy, OrderGuard, IssueRefund, ShiftedTable, SaysEligible;
    GuardShifted(w, v, order, delta, id, requester);
    RefundPolicyShifted(w, v, order, delta, id);
    if OrderGuard(w, id, requester).None? {
      GuardPassed(w, id, requester);
      var p, q := CheckRefundPolicy(w, id), CheckRefundPolicy(v, id);
      var shifted := if id == Str(order) && amount.Num? then Num(amount.n + delta) else amount;
      if id == Str(order) {
        TotalIsNumber(w, v, order, delta);
        IssueShifted(w.refunds, v.refunds, order, delta, p, q, amount, reason, w.orders[order]["total_cents"].n);
      } else {
        OtherIssue(w.refunds, v.refunds, order, delta, id.s, p, amount, reason);
      }
      WithRefunds(w, v, order, delta, IssueRefund(w.refunds, id.s, p, amount, reason).0,
                  IssueRefund(v.refunds, id.s, q, shifted, reason).0);
    }
  }

  lemma TotalIsNumber(w: World, v: World, order: string, delta: int)
    requires Shifted(w, v, order, delta)
    ensures "total_cents" in w.orders[order] && w.orders[order]["total_cents"].Num?
  {
  }

  lemma OtherIssue(r: Table, s: Table, order: string, delta: int, id: string, p: Outcome, amount: Json, reason: Json)
    requires ShiftedTable(r, s, order, "amount_cents", delta) && id != order
    ensures var a, b := IssueRefund(r, id, p, amount, reason), IssueRefund(s, id, p, amount, reason);
      ShiftedTable(a.0, b.0, order, "amount_cents", delta) && a.1 == b.1
  {
  }

  lemma CustomersSame(w: World, v: World, order: string, delta: int)
    requires Shifted(w, v, order, delta)
    ensures w.customers == v.customers
  {
  }

  /** A call that is no refund, on both states. */
  lemma OtherStepShifted(w: World, v: World, order: string, delta: int, call: ToolCall)
    requires Shifted(w, v, order, delta) && !IsRefund(call.service, call.operation)
    ensures EffectShifted(Step(w, call), Step(v, call), order, delta)
  {
    hide GetRecord, CancelOrder, ReplaceItem, CreateRefund, UpdateTicket, EscalateTicket;
    hide CheckRefundPolicy, CheckReplacementPolicy, Shifted;
    var a := call.arguments;
    CustomersSame(w, v, order, delta);
    match (call.service, call.operation)
    case ("order", "get_order") => GetShifted(w, v, order, delta, Get(a, "order_id"));
    case ("order", "cancel_order") =>
      CancelShifted(w, v, order, delta, Get(a, "order_id"), Get(a, "requesting_customer_id"));
    case ("order", "replace_item") =>
      ReplaceShifted(w, v, order, delta, Get(a, "order_id"), Get(a, "requesting_customer_id"), Get(a, "sku"),
                     Get(a, "reason"));
    case ("policy", "check_refund_policy") => RefundPolicyShifted(w, v, order, delta, Get(a, "order_id"));
    case ("policy", "check_replacement_policy") => ReplacementPolicyShifted(w, v, order, delta, Get(a, "order_id"));
    case ("ticket", "update_ticket") =>
      TicketsShifted(w, v, order, delta, Get(a, "ticket_id"), Get(a, "status"), Get(a, "note"), Get(a, "reason"));
    case ("ticket", "escalate_ticket") =>
      TicketsShifted(w, v, order, delta, Get(a, "ticket_id"), Get(a, "status"), Get(a, "note"), Get(a, "reason"));
    case _ =>
  }

  /** One call, and the shifted call on the shifted state. */
  lemma StepShifted(w: World, v: World, order: string, delta: int, call: ToolCall)
    requires Shifted(w, v, order, delta)
    ensures EffectShifted(Step(w, call), Step(v, ShiftCall(call, order, delta)), order, delta)
  {
    hide Step, Shifted, EffectShifted;
    if IsRefund(call.service, call.operation) {
      RefundCallShifted(w, v, order, delta, call);
    } else {
      OtherStepShifted(w, v, order, delta, call);
    }
  }

  lemma GetShifted(w: World, v: World, order: string, delta: int, id: Json)
    requires Shifted(w, v, order, delta)
    ensures SameKind(GetRecord(w.orders, id), GetRecord(v.orders, id))
  {
  }

  lemma TicketsShifted(w: World, v: World, order: string, delta: int, id: Json, status: Json, note: Json, reason: Json)
    requires Shifted(w, v, order, delta)
    ensures EffectShifted(UpdateTicket(w, id, status, note), UpdateTicket(v, id, status, note), order, delta)
    ensures EffectShifted(EscalateTicket(w, id, reason), EscalateTicket(v, id, reason), order, delta)
  {
    hide UpdateRecord, EscalateRecord, ShiftedTable;
  }

  lemma RefundCallShifted(w: World, v: World, order: string, delta: int, call: ToolCall)
    requires Shifted(w, v, order, delta) && IsRefund(call.service, call.operation)
    ensures EffectShifted(Step(w, call), Step(v, ShiftCall(call, order, delta)), order, delta)
  {
    var a, b := call.arguments, ShiftCall(call, order, delta).arguments;
    hide CreateRefund;
    assert a.Keys == b.Keys;
    if Binds(a, {"order_id", "requesting_customer_id", "amount_cents", "reason"}, {}) {
      RefundShifted(w, v, order, delta, a["order_id"], a["requesting_customer_id"], a["amount_cents"], a["reason"]);
      AmountOnly(a, 0);
      assert b["order_id"] == a["order_id"] && b["requesting_customer_id"] == a["requesting_customer_id"]
          && b["reason"] == a["reason"];
    }
  }

  lemma AmountOnly(a: Dict, n: int)
    ensures "order_id" != "amount_cents" && "requesting_customer_id" != "amount_cents" && "reason" != "amount_cents"
  {
    assert |"order_id"| != |"amount_cents"| && |"requesting_customer_id"| != |"amount_cents"|
        && |"reason"| != |"amount_cents"|;
  }

  lemma {:induction false} RunShifted(w: World, v: World, order: string, delta: int, calls: seq<ToolCall>)
    requires Shifted(w, v, order, delta)
    ensures Shifted(After(w, calls), After(v, ShiftCalls(calls, order, delta)), order, delta)
  {
    hide Step, Shifted, ShiftCall;
    if calls == [] {
    } else {
      var n, shifted := |calls| - 1, ShiftCalls(calls, order, delta);
      RunShifted(w, v, order, delta, calls[..n]);
      assert ShiftCalls(calls[..n], order, delta) == shifted[..n];
      StepShifted(After(w, calls[..n]), After(v, shifted[..n]), order, delta, calls[n]);
    }
  }

  /** Each call of the sequence fails with the same error on both sides, or succeeds on both. */
  lemma OutcomesShifted(w: World, v: World, order: string, delta: int, calls: seq<ToolCall>, i: nat)
    requires Shifted(w, v, order, delta) && i < |calls|
    ensures var shifted := ShiftCalls(calls, order, delta);
      SameKind(Step(After(w, calls[..i]), calls[i]).outcome, Step(After(v, shifted[..i]), shifted[i]).outcome)
  {
    hide Step, Shifted, ShiftCall;
    RunShifted(w, v, order, delta, calls[..i]);
    assert ShiftCalls(calls[..i], order, delta) == ShiftCalls(calls, order, delta)[..i];
    StepShifted(After(w, calls[..i]), After(v, ShiftCalls(calls, order, delta)[..i]), order, delta, calls[i]);
  }

  // ---------------------------------------------------------------- the contract

  /** The action does not tell amounts of refunds on that order apart. */
  predicate AmountBlind(service: string, operation: string, arguments: Dict, order: string) {
    || !IsRefund(service, operation)
    || "amount_cents" !in arguments
    || ("order_id" in arguments && arguments["order_id"] != Str(order))
  }

  /** The task asks for that one full refund and nothing else about its amount: the order
      has no refund yet, the other actions are blind to its amount except for a forbidden
      refund one cent above the total, and the expected final state, where it mentions the
      refund, mentions the full amount, and does not mention the order's total. */
  ghost predicate AsksFullRefund(task: Task, r: FullRefund) {
    AsksOneAmount(task, r) && !MentionsTotal(task.expectedFinal, r.order)
  }

  /** The same but for the order's total. */
  ghost predicate AsksOneAmount(task: Task, r: FullRefund) {
    && r.order !in task.initial.refunds
    && (forall i | 0 <= i < |task.expected| && i != r.index ::
          var e := task.expected[i]; AmountBlind(e.service, e.operation, e.arguments, r.order))
    && (forall i | 0 <= i < |task.forbidden| ::
          var f := task.forbidden[i];
          if OneCentAbove(f, r) then f.operation == "create_refund"
          else AmountBlind(f.service, f.operation, f.arguments, r.order))
    && RefundFits(task.expectedFinal, r)
  }

  /** Where the contract mentions the refund of the order, it asks for the full amount. */
  ghost predicate RefundFits(expectedFinal: Dict, r: FullRefund) {
    "refunds" in expectedFinal && expectedFinal["refunds"].Obj?
    && r.order in expectedFinal["refunds"].fields && expectedFinal["refunds"].fields[r.order].Obj? ==>
      Get(expectedFinal["refunds"].fields[r.order].fields, "amount_cents") == Num(r.total)
  }

  /** The contract says what the order's total must be in the end. */
  predicate MentionsTotal(expectedFinal: Dict, order: string) {
    && "orders" in expectedFinal && expectedFinal["orders"].Obj?
    && order in expectedFinal["orders"].fields && expectedFinal["orders"].fields[order].Obj?
    && "total_cents" in expectedFinal["orders"].fields[order].fields
  }

  ghost predicate FinalFits(expectedFinal: Dict, r: FullRefund) {
    RefundFits(expectedFinal, r) && !MentionsTotal(expectedFinal, r.order)
  }

  /** A blind action matches a call exactly when it matches the shifted call. */
  lemma BlindMatches(service: string, operation: string, arguments: Dict, call: ToolCall, order: string, delta: int)
    requires AmountBlind(service, operation, arguments, order)
    ensures Matches(service, operation, arguments, call)
        <==> Matches(service, operation, arguments, ShiftCall(call, order, delta))
  {
    AmountOnly(arguments, 0);
    var a, b := call.arguments, ShiftCall(call, order, delta).arguments;
    forall k | k != "amount_cents" ensures Get(a, k) == Get(b, k) && (k in a <==> k in b) {}
    if Matches(service, operation, arguments, call) {
      forall k | k in arguments ensures k in b && b[k] == arguments[k] {
        assert k in a && a[k] == arguments[k];
        assert "order_id" in arguments ==> a["order_id"] == arguments["order_id"];
      }
    }
    if Matches(service, operation, arguments, ShiftCall(call, order, delta)) {
      forall k | k in arguments ensures k in a && a[k] == arguments[k] {
        assert k in b && b[k] == arguments[k];
        assert "order_id" in arguments ==> b["order_id"] == arguments["order_id"];
      }
    }
  }

  /** An action with an amount on that order matches a call exactly when the action with
      the shifted amount matches the shifted call. */
  lemma AmountMatches(service: string, operation: string, arguments: Dict, amount: int, call: ToolCall,
                      order: string, delta: int)
    requires IsRefund(service, operation) && Get(arguments, "order_id") == Str(order)
    requires Get(arguments, "amount_cents") == Num(amount)
    ensures Matches(service, operation, arguments, call)
        <==> Matches(service, operation, Amount(arguments, amount + delta), ShiftCall(call, order, delta))
  {
    AmountOnly(arguments, 0);
    var a, b, shifted := call.arguments, ShiftCall(call, order, delta).arguments, Amount(arguments, amount + delta);
    forall k | k != "amount_cents" ensures Get(a, k) == Get(b, k) && (k in a <==> k in b) {}
    assert arguments["order_id"] == Str(order) && shifted["order_id"] == Str(order);
    if Matches(service, operation, arguments, call) {
      assert a["order_id"] == Str(order) && a["amount_cents"] == Num(amount);
      forall k | k in shifted ensures k in b && b[k] == shifted[k] {
        assert k in arguments && k in a && a[k] == arguments[k];
      }
    }
    if Matches(service, operation, shifted, ShiftCall(call, order, delta)) {
      assert b["order_id"] == Str(order) && b["amount_cents"] == Num(amount + delta);
      assert OnOrder(call, order);
      forall k | k in arguments ensures k in a && a[k] == arguments[k] {
        assert k in shifted && k in b && b[k] == shifted[k];
      }
    }
  }

  lemma BlindMatched(service: string, operation: string, arguments: Dict, calls: seq<ToolCall>, order: string,
                     delta: int)
    requires AmountBlind(service, operation, arguments, order)
    ensures Matched(service, operation, arguments, calls)
        <==> Matched(service, operation, arguments, ShiftCalls(calls, order, delta))
  {
    hide Matches, AmountBlind, ShiftCall;
    var shifted := ShiftCalls(calls, order, delta);
    forall i | 0 <= i < |calls|
      ensures Matches(service, operation, arguments, calls[i]) <==> Matches(service, operation, arguments, shifted[i])
    {
      BlindMatches(service, operation, arguments, calls[i], order, delta);
    }
  }

  lemma AmountMatched(service: string, operation: string, arguments: Dict, amount: int, calls: seq<ToolCall>,
                      order: string, delta: int)
    requires IsRefund(service, operation) && Get(arguments, "order_id") == Str(order)
    requires Get(arguments, "amount_cents") == Num(amount)
    ensures Matched(service, operation, arguments, calls)
        <==> Matched(service, operation, Amount(arguments, amount + delta), ShiftCalls(calls, order, delta))
  {
    var shifted, args := ShiftCalls(calls, order, delta), Amount(arguments, amount + delta);
    forall i | 0 <= i < |calls|
      ensures Matches(service, operation, arguments, calls[i]) <==> Matches(service, operation, args, shifted[i])
    {
      AmountMatches(service, operation, arguments, amount, calls[i], order, delta);
    }
    hide Matches, Amount, ShiftCall;
  }

  lemma ExpectedShifted(task: Task, r: FullRefund, delta: int, calls: seq<ToolCall>, i: nat)
    requires FindFullRefund(task) == Some(r) && AsksFullRefund(task, r) && i < |task.expected|
    ensures Met(task.expected[i], calls)
        <==> Met(Boundary(task, r, r.total + delta).expected[i], ShiftCalls(calls, r.order, delta))
  {
    var e := task.expected[i];
    if i == r.index {
      AmountMatched(e.service, e.operation, e.arguments, r.total, calls, r.order, delta);
    } else {
      assert AmountBlind(e.service, e.operation, e.arguments, r.order);
      BlindMatched(e.service, e.operation, e.arguments, calls, r.order, delta);
    }
    hide Matched, AmountBlind, FindFullRefund, AsksFullRefund;
  }

  lemma ForbiddenShifted(task: Task, r: FullRefund, delta: int, calls: seq<ToolCall>, i: nat)
    requires FindFullRefund(task) == Some(r) && AsksFullRefund(task, r) && i < |task.forbidden|
    ensures Seen(task.forbidden[i], calls)
        <==> Seen(Boundary(task, r, r.total + delta).forbidden[i], ShiftCalls(calls, r.order, delta))
  {
    var f := task.forbidden[i];
    if OneCentAbove(f, r) {
      AmountMatched(f.service, f.operation, f.arguments, r.total + 1, calls, r.order, delta);
    } else {
      assert AmountBlind(f.service, f.operation, f.arguments, r.order);
      BlindMatched(f.service, f.operation, f.arguments, calls, r.order, delta);
    }
    hide Matched, AmountBlind, FindFullRefund, AsksFullRefund;
  }

  /** Records that differ by a shifted number, under contracts that mention it shifted, or
      do not mention it. */
  lemma ShiftedRecordVerdict(e: Json, f: Json, a: Dict, b: Dict, k: string, delta: int)
    requires ShiftedAt(a, b, k, delta)
    requires if e.Obj? && k in e.fields then e.fields[k].Num? && f == Obj(e.fields[k := Num(e.fields[k].n + delta)])
             else f == e
    ensures Contains(e, Obj(a)) <==> Contains(f, Obj(b))
  {
    if e.Obj? {
      forall j | j in e.fields
        ensures (j in a && Contains(e.fields[j], a[j])) <==> (j in b && Contains(f.fields[j], b[j]))
      {
      }
      ContainsObjects(e.fields, a);
      ContainsObjects(f.fields, b);
      assert f.fields.Keys == e.fields.Keys;
    }
  }

  lemma ShiftedTableVerdict(e: Json, f: Json, s: Table, t: Table, order: string, k: string, delta: int)
    requires ShiftedTable(s, t, order, k, delta)
    requires if e.Obj? && order in e.fields && e.fields[order].Obj? && k in e.fields[order].fields
             then e.fields[order].fields[k].Num?
                  && var d := e.fields[order].fields;
                     f == Obj(e.fields[order := Obj(d[k := Num(d[k].n + delta)])])
             else f == e
    ensures Contains(e, TableJson(s)) <==> Contains(f, TableJson(t))
  {
    if e.Obj? {
      assert f.fields.Keys == e.fields.Keys;
      forall id | id in e.fields && id in s
        ensures Contains(e.fields[id], Obj(s[id])) <==> Contains(f.fields[id], Obj(t[id]))
      {
        if id == order {
          ShiftedRecordVerdict(e.fields[id], f.fields[id], s[id], t[id], k, delta);
        }
      }
      ContainsObjects(e.fields, TableJson(s).fields);
      ContainsObjects(f.fields, TableJson(t).fields);
    }
  }

  lemma PartShifted(expectedFinal: Dict, r: FullRefund, delta: int, w: World, v: World, c: string)
    requires FinalFits(expectedFinal, r) && Shifted(w, v, r.order, delta)
    requires c in COLLECTIONS && c in expectedFinal
    ensures var shifted := ShiftFinal(expectedFinal, r.order, r.total + delta);
      && c in shifted
      && (Contains(expectedFinal[c], TableJson(Part(w, c))) <==> Contains(shifted[c], TableJson(Part(v, c))))
  {
    var shifted := ShiftFinal(expectedFinal, r.order, r.total + delta);
    if c == "orders" {
      ShiftedTableVerdict(expectedFinal[c], shifted[c], w.orders, v.orders, r.order, "total_cents", delta);
    } else if c == "refunds" {
      ShiftedTableVerdict(expectedFinal[c], shifted[c], w.refunds, v.refunds, r.order, "amount_cents", delta);
    }
  }

  lemma FinalShifted(expectedFinal: Dict, r: FullRefund, delta: int, w: World, v: World)
    requires FinalFits(expectedFinal, r) && Shifted(w, v, r.order, delta)
    ensures Contains(Obj(expectedFinal), Snapshot(w))
        <==> Contains(Obj(ShiftFinal(expectedFinal, r.order, r.total + delta)), Snapshot(v))
  {
    var shifted := ShiftFinal(expectedFinal, r.order, r.total + delta);
    assert shifted.Keys == expectedFinal.Keys;
    hide Contains, TableJson, Part, Shifted, FinalFits, ShiftFinal;
    ContainsObjects(expectedFinal, Snapshot(w).fields);
    ContainsObjects(shifted, Snapshot(v).fields);
    forall c | c in COLLECTIONS && c in expectedFinal
      ensures Contains(expectedFinal[c], Snapshot(w).fields[c]) <==> Contains(shifted[c], Snapshot(v).fields[c])
    {
      PartShifted(expectedFinal, r, delta, w, v, c);
    }
  }

  lemma StartShifted(task: Task, r: FullRefund, delta: int)
    requires FindFullRefund(task) == Some(r) && AsksFullRefund(task, r)
    ensures Shifted(task.initial, Boundary(task, r, r.total + delta).initial, r.order, delta)
  {
  }

  /** Main result: a call sequence passes a full-refund task exactly when the sequence with
      every refund amount on that order shifted by the same delta passes the variant. */
  lemma BoundaryPreservesMeaning(task: Task, r: FullRefund, delta: int, calls: seq<ToolCall>)
    requires FindFullRefund(task) == Some(r) && AsksFullRefund(task, r)
    ensures Verdict(task, calls)
        <==> Verdict(Boundary(task, r, r.total + delta), ShiftCalls(calls, r.order, delta))
  {
    var variant, shifted := Boundary(task, r, r.total + delta), ShiftCalls(calls, r.order, delta);
    StartShifted(task, r, delta);
    RunShifted(task.initial, variant.initial, r.order, delta, calls);
    FinalShifted(task.expectedFinal, r, delta, After(task.initial, calls), After(variant.initial, shifted));
    hide Met, Seen, Shifted, AsksFullRefund, FindFullRefund, Contains, After, ShiftCalls, OneCentAbove;
    forall i | 0 <= i < |task.expected| ensures Met(task.expected[i], calls) <==> Met(variant.expected[i], shifted) {
      ExpectedShifted(task, r, delta, calls, i);
    }
    forall i | 0 <= i < |task.forbidden|
      ensures Seen(task.forbidden[i], calls) <==> Seen(variant.forbidden[i], shifted)
    {
      ForbiddenShifted(task, r, delta, calls, i);
    }
    AllMet(task.expected, calls, variant.expected, shifted);
    NoneSeen(task.forbidden, calls, variant.forbidden, shifted);
  }

  lemma AllMet(es: seq<ExpectedAction>, calls: seq<ToolCall>, fs: seq<ExpectedAction>, others: seq<ToolCall>)
    requires |es| == |fs| && forall i | 0 <= i < |es| :: Met(es[i], calls) <==> Met(fs[i], others)
    ensures (forall e | e in es :: Met(e, calls)) <==> (forall f | f in fs :: Met(f, others))
  {
    hide Met;
    assert forall i | 0 <= i < |es| :: es[i] in es && fs[i] in fs;
  }

  lemma NoneSeen(es: seq<ForbiddenAction>, calls: seq<ToolCall>, fs: seq<ForbiddenAction>, others: seq<ToolCall>)
    requires |es| == |fs| && forall i | 0 <= i < |es| :: Seen(es[i], calls) <==> Seen(fs[i], others)
    ensures (forall e | e in es :: !Seen(e, calls)) <==> (forall f | f in fs :: !Seen(f, others))
  {
    hide Seen;
    assert forall i | 0 <= i < |es| :: es[i] in es && fs[i] in fs;
  }

  // ---------------------------------------------------------------- when the meaning is lost

  /** What the contract says the order's total must be. */
  function MentionedTotal(expectedFinal: Dict, order: string): Json
    requires MentionsTotal(expectedFinal, order)
  {
    expectedFinal["orders"].fields[order].fields["total_cents"]
  }

  /** No call changes the total of an order. */
  lemma TotalKept(w: World, calls: seq<ToolCall>, order: string)
    requires order in w.orders && "total_cents" in w.orders[order]
    ensures var end := After(w, calls);
      order in end.orders && "total_cents" in end.orders[order]
      && end.orders[order]["total_cents"] == w.orders[order]["total_cents"]
  {
    SupportSafety.RunEvolves(w, calls);
    assert |"status"| != |"total_cents"|;
    hide After;
  }

  /** A state that meets a contract mentioning a total has that total. */
  lemma MentionedMustHold(expectedFinal: Dict, w: World, order: string)
    requires MentionsTotal(expectedFinal, order) && Contains(Obj(expectedFinal), Snapshot(w))
    ensures order in w.orders && "total_cents" in w.orders[order]
         && Contains(MentionedTotal(expectedFinal, order), w.orders[order]["total_cents"])
  {
    var orders := TableJson(w.orders);
    ContainsObjects(expectedFinal, Snapshot(w).fields);
    assert "orders" in COLLECTIONS && Snapshot(w).fields["orders"] == orders;
    ContainsObjects(expectedFinal["orders"].fields, orders.fields);
    ContainsObjects(expectedFinal["orders"].fields[order].fields, w.orders[order]);
  }

  /** Whatever passes a task whose contract mentions an order's total, that total is the
      seeded one. */
  lemma PassingMentionsSeed(task: Task, calls: seq<ToolCall>, order: string, total: int)
    requires MentionsTotal(task.expectedFinal, order) && Verdict(task, calls)
    requires order in task.initial.orders && Get(task.initial.orders[order], "total_cents") == Num(total)
    ensures MentionedTotal(task.expectedFinal, order) == Num(total)
  {
    MentionedMustHold(task.expectedFinal, After(task.initial, calls), order);
    TotalKept(task.initial, calls, order);
    assert Contains(MentionedTotal(task.expectedFinal, order), Num(total));
  }

  /** The generator does not look at the orders of the expected final state: where that
      mentions a total, the variant mentions the same. */
  lemma MentionStays(task: Task, r: FullRefund, delta: int)
    requires FindFullRefund(task) == Some(r) && MentionsTotal(task.expectedFinal, r.order)
    ensures var variant := Boundary(task, r, r.total + delta);
      && MentionsTotal(variant.expectedFinal, r.order)
      && MentionedTotal(variant.expectedFinal, r.order) == MentionedTotal(task.expectedFinal, r.order)
      && r.order in variant.initial.orders
      && Get(variant.initial.orders[r.order], "total_cents") == Num(r.total + delta)
  {
    assert |"orders"| != |"refunds"|;
  }

  /** Main result: a full-refund task whose contract mentions the order's total gets
      variants that nothing passes. */
  lemma MentionedTotalLosesMeaning(task: Task, r: FullRefund, delta: int, calls: seq<ToolCall>)
    requires FindFullRefund(task) == Some(r) && delta != 0
    requires MentionsTotal(task.expectedFinal, r.order)
    requires MentionedTotal(task.expectedFinal, r.order) == Num(r.total)
    ensures !Verdict(Boundary(task, r, r.total + delta), calls)
  {
    hide Verdict, Boundary, FindFullRefund, MentionsTotal;
    MentionStays(task, r, delta);
    var variant := Boundary(task, r, r.total + delta);
    if Verdict(variant, calls) {
      PassingMentionsSeed(variant, calls, r.order, r.total + delta);
    }
  }

  /** The variant of this delta judges every shifted sequence as the task judges the sequence. */
  ghost predicate KeepsMeaning(task: Task, r: FullRefund, delta: int)
    requires FindFullRefund(task) == Some(r)
  {
    forall calls ::
      Verdict(task, calls) <==> Verdict(Boundary(task, r, r.total + delta), ShiftCalls(calls, r.order, delta))
  }

  /** Main result: the exact condition on the order's total. A task that asks for one full
      refund, and that something passes, keeps its meaning in a variant exactly when its
      contract does not mention the order's total. */
  lemma MeaningKeptIffTotalUnmentioned(task: Task, r: FullRefund, delta: int, passing: seq<ToolCall>)
    requires FindFullRefund(task) == Some(r) && AsksOneAmount(task, r) && delta != 0
    requires Verdict(task, passing)
    ensures KeepsMeaning(task, r, delta) <==> !MentionsTotal(task.expectedFinal, r.order)
  {
    hide Verdict, Boundary, AsksOneAmount, MentionsTotal, ShiftCalls;
    if MentionsTotal(task.expectedFinal, r.order) {
      FoundTotal(task, r);
      PassingMentionsSeed(task, passing, r.order, r.total);
      MentionedTotalLosesMeaning(task, r, delta, ShiftCalls(passing, r.order, delta));
    } else {
      forall calls
        ensures Verdict(task, calls) <==> Verdict(Boundary(task, r, r.total + delta), ShiftCalls(calls, r.order, delta))
      {
        BoundaryPreservesMeaning(task, r, delta, calls);
      }
    }
  }

  lemma FoundTotal(task: Task, r: FullRefund)
    requires FindFullRefund(task) == Some(r)
    ensures r.order in task.initial.orders && Get(task.initial.orders[r.order], "total_cents") == Num(r.total)
  {
  }

  const HUNDRED: Dict := map["total_cents" := Num(100)]

  const FULL: Dict := map["order_id" := Str("o"), "amount_cents" := Num(100)]

  /** A full-refund task whose expected final state mentions the order's total. */
  const TOTAL_TASK: Task :=
    Task("t", "", World(map[], map["o" := HUNDRED], map[], map[], map[]),
         [ExpectedAction("refund", "create_refund", FULL)], [],
         map["orders" := Obj(map["o" := Obj(HUNDRED)])], [])

  const TOTAL: FullRefund := FullRefund(0, "o", 100)

  lemma FindsTotal()
    ensures FindFullRefund(TOTAL_TASK) == Some(TOTAL)
  {
  }

  /** A refund call without a requesting customer is refused, and changes nothing. */
  lemma MisboundRefund(w: World, amount: int)
    ensures After(w, [ToolCall("refund", "create_refund", Amount(FULL, amount))]) == w
  {
    var call := ToolCall("refund", "create_refund", Amount(FULL, amount));
    assert "requesting_customer_id" !in call.arguments by {
      assert |"requesting_customer_id"| == 22 && |"order_id"| == 8 && |"amount_cents"| == 12;
    }
    assert [call][..0] == [] && After(w, []) == w;
    assert Step(w, call).world == w;
  }

  lemma ExpectsTotal(w: World)
    requires w.orders.Keys == {"o"} && "total_cents" in w.orders["o"]
    ensures Contains(Obj(TOTAL_TASK.expectedFinal), Snapshot(w)) <==> w.orders["o"]["total_cents"] == Num(100)
  {
    var expected, inner := TOTAL_TASK.expectedFinal, map["o" := Obj(HUNDRED)];
    var orders := TableJson(w.orders);
    ContainsObjects(expected, Snapshot(w).fields);
    ContainsObjects(inner, orders.fields);
    ContainsObjects(HUNDRED, w.orders["o"]);
    assert expected.Keys == {"orders"} && expected["orders"] == Obj(inner);
    assert inner.Keys == {"o"} && HUNDRED.Keys == {"total_cents"};
    assert Snapshot(w).fields["orders"] == orders && orders.fields["o"] == Obj(w.orders["o"]);
    assert Contains(HUNDRED["total_cents"], w.orders["o"]["total_cents"]) <==> w.orders["o"]["total_cents"] == Num(100);
    hide Contains, Snapshot, TableJson;
  }

  /** Such tasks exist: this one asks for one full refund, mentions the total and is passed. */
  lemma MentionedTotalHappens()
    ensures FindFullRefund(TOTAL_TASK) == Some(TOTAL) && AsksOneAmount(TOTAL_TASK, TOTAL)
    ensures MentionsTotal(TOTAL_TASK.expectedFinal, TOTAL.order)
    ensures exists calls :: Verdict(TOTAL_TASK, calls)
  {
    FindsTotal();
    hide FindFullRefund, After, Contains;
    var calls := [ToolCall("refund", "create_refund", FULL)];
    assert Amount(FULL, 100) == FULL;
    MisboundRefund(TOTAL_TASK.initial, 100);
    ExpectsTotal(TOTAL_TASK.initial);
    assert Matches("refund", "create_refund", FULL, calls[0]);
    assert Verdict(TOTAL_TASK, calls);
  }
}
