/** What the nine support operations promise (tool_environment/services.py), each stated on
    one tool call and in the names and constants an agent sees: when the call succeeds, what
    it answers and what it changes, and otherwise which error it meets first. */
module ServiceLaws {
  import opened Json
  import opened Schema
  import opened Services

  /** The entity an argument names, when the argument is given and names one. */
  function Named(t: Table, a: Dict, key: string): Option<Dict> {
    if key in a && a[key].Str? && a[key].s in t then Some(t[a[key].s]) else None
  }

  /** Why looking the entity up fails: lists and objects cannot be looked up at all. */
  function LookupError(v: Json): Outcome {
    if v.Arr? || v.Obj? then Failed(TypeError) else Failed(NotFoundError)
  }

  /** The order the call names, when it belongs to the requesting customer. */
  ghost predicate OwnOrder(w: World, a: Dict) {
    && Named(w.orders, a, "order_id").Some? && "requesting_customer_id" in a
    && "customer_id" in Named(w.orders, a, "order_id").value
    && Named(w.orders, a, "order_id").value["customer_id"] == a["requesting_customer_id"]
  }

  /** What a call on an order that is not the requester's own meets. */
  function NotOwn(w: World, a: Dict): Outcome
    requires "order_id" in a
  {
    if Named(w.orders, a, "order_id").None? then LookupError(a["order_id"])
    else if "customer_id" !in Named(w.orders, a, "order_id").value then Escaped(KeyError)
    else Failed(PolicyViolationError)
  }

  /** Delivered, and no more than thirty days ago. */
  ghost predicate DeliveredInTime(order: Dict) {
    && "status" in order && order["status"] == Str("delivered")
    && "delivered_days_ago" in order && order["delivered_days_ago"].Num? && order["delivered_days_ago"].n <= 30
  }

  /** What reading the delivery of an order raises, if anything. */
  function DeliveryError(order: Dict): Option<Outcome> {
    if "status" !in order then Some(Escaped(KeyError))
    else if order["status"] != Str("delivered") then None
    else if "delivered_days_ago" !in order then Some(Escaped(KeyError))
    else if !order["delivered_days_ago"].Num? then Some(Failed(TypeError))
    else None
  }

  // ---------------------------------------------------------------- reading

  lemma GetCustomer(w: World, a: Dict)
    ensures var e, found := Step(w, ToolCall("customer", "get_customer", a)), Named(w.customers, a, "customer_id");
      && e.world == w
      && e.outcome == if a.Keys != {"customer_id"} then Failed(TypeError)
                      else if found.Some? then Returned(Obj(found.value)) else LookupError(a["customer_id"])
  {
  }

  lemma GetOrder(w: World, a: Dict)
    ensures var e, found := Step(w, ToolCall("order", "get_order", a)), Named(w.orders, a, "order_id");
      && e.world == w
      && e.outcome == if a.Keys != {"order_id"} then Failed(TypeError)
                      else if found.Some? then Returned(Obj(found.value)) else LookupError(a["order_id"])
  {
  }

  /** The refund policy answers for every order whose delivery can be read, and whose total
      is there if it has to be given. */
  lemma RefundPolicy(w: World, a: Dict)
    ensures var e, found := Step(w, ToolCall("policy", "check_refund_policy", a)), Named(w.orders, a, "order_id");
      && e.world == w
      && e.outcome ==
         if a.Keys != {"order_id"} then Failed(TypeError)
         else if found.None? then LookupError(a["order_id"])
         else if DeliveryError(found.value).Some? then DeliveryError(found.value).value
         else if !DeliveredInTime(found.value) then
           Returned(Obj(map["order_id" := a["order_id"], "eligible" := Truth(false),
                            "max_refund_cents" := Num(0), "reason" := Str("outside_policy")]))
         else if "total_cents" !in found.value then Escaped(KeyError)
         else
           Returned(Obj(map["order_id" := a["order_id"], "eligible" := Truth(true),
                            "max_refund_cents" := found.value["total_cents"], "reason" := Str("within_window")]))
  {
  }

  lemma ReplacementPolicy(w: World, a: Dict)
    ensures var e, found := Step(w, ToolCall("policy", "check_replacement_policy", a)), Named(w.orders, a, "order_id");
      && e.world == w
      && e.outcome ==
         if a.Keys != {"order_id"} then Failed(TypeError)
         else if found.None? then LookupError(a["order_id"])
         else if DeliveryError(found.value).Some? then DeliveryError(found.value).value
         else if DeliveredInTime(found.value) then
           Returned(Obj(map["order_id" := a["order_id"], "eligible" := Truth(true),
                            "reason" := Str("within_window")]))
         else
           Returned(Obj(map["order_id" := a["order_id"], "eligible" := Truth(false),
                            "reason" := Str("outside_policy")]))
  {
  }

  // ---------------------------------------------------------------- cancelling

  ghost predicate CanCancel(w: World, a: Dict) {
    && a.Keys == {"order_id", "requesting_customer_id"} && OwnOrder(w, a)
    && var order := Named(w.orders, a, "order_id").value;
       "status" in order && order["status"] in {Str("placed"), Str("processing"), Str("shipped")}
  }

  /** An order is cancelled exactly when it is the requester's own and placed, processing or
      shipped; then its status changes, and nothing else. */
  lemma CancelOrder(w: World, a: Dict)
    ensures var e := Step(w, ToolCall("order", "cancel_order", a));
      && (e.outcome.Returned? <==> CanCancel(w, a))
      && if CanCancel(w, a) then
           var cancelled := w.orders[a["order_id"].s]["status" := Str("cancelled")];
           e == Effect(w.(orders := w.orders[a["order_id"].s := cancelled]), Returned(Obj(cancelled)))
         else
           e == Effect(w, if a.Keys != {"order_id", "requesting_customer_id"} then Failed(TypeError)
                          else if !OwnOrder(w, a) then NotOwn(w, a)
                          else var order := Named(w.orders, a, "order_id").value;
                            if "status" !in order then Escaped(KeyError)
                            else if order["status"].Arr? || order["status"].Obj? then Failed(TypeError)
                            else Failed(PolicyViolationError))
  {
    if OwnOrder(w, a) {
      var order := w.orders[a["order_id"].s];
      assert w.(orders := w.orders[a["order_id"].s := order]) == w;
    }
  }

  // ---------------------------------------------------------------- replacing

  ghost predicate IsItem(item: Json) {
    item.Obj? && "sku" in item.fields
  }

  /** Looking through the items of an order from the front finds this sku. */
  ghost predicate HasItem(order: Dict, sku: Json) {
    && "items" in order && order["items"].Arr?
    && exists i: nat :: FoundAt(order["items"].items, sku, i)
  }

  ghost predicate FoundAt(items: seq<Json>, sku: Json, i: nat) {
    && i < |items| && IsItem(items[i]) && items[i].fields["sku"] == sku
    && forall j | 0 <= j < i :: IsItem(items[j])
  }

  /** The first item that is this sku or cannot be looked at is an object without a sku. */
  ghost predicate KeylessAt(items: seq<Json>, sku: Json, i: nat) {
    && i < |items| && items[i].Obj? && !IsItem(items[i])
    && forall j | 0 <= j < i :: IsItem(items[j]) && items[j].fields["sku"] != sku
  }

  ghost predicate HasKeylessItem(order: Dict, sku: Json) {
    "items" in order && order["items"].Arr? && exists i: nat :: KeylessAt(order["items"].items, sku, i)
  }

  /** All of them can be looked at, and none is this sku. */
  ghost predicate LacksItem(order: Dict, sku: Json) {
    || "items" !in order || order["items"] == Str("") || order["items"] == Obj(map[])
    || (order["items"].Arr? && forall item | item in order["items"].items :: IsItem(item) && item.fields["sku"] != sku)
  }

  ghost predicate CanReplace(w: World, a: Dict) {
    && a.Keys == {"order_id", "requesting_customer_id", "sku", "reason"} && OwnOrder(w, a)
    && HasItem(Named(w.orders, a, "order_id").value, a["sku"])
    && a["order_id"].s !in w.replacements && DeliveredInTime(Named(w.orders, a, "order_id").value)
  }

  lemma {:induction false} ScanFinds(items: seq<Json>, sku: Json)
    ensures ScanItems(items, sku).Hit? <==> exists i: nat :: FoundAt(items, sku, i)
    ensures ScanItems(items, sku).BadKey? <==> exists i: nat :: KeylessAt(items, sku, i)
    ensures ScanItems(items, sku).Miss? <==> forall item | item in items :: IsItem(item) && item.fields["sku"] != sku
  {
    if items != [] {
      ScanFinds(items[1..], sku);
      assert items[0] in items && forall item | item in items :: item == items[0] || item in items[1..];
      FoundInRest(items, sku);
      KeylessInRest(items, sku);
      hide FoundAt, KeylessAt;
    }
  }

  lemma FoundInRest(items: seq<Json>, sku: Json)
    requires items != []
    ensures (exists i: nat :: FoundAt(items, sku, i)) <==>
      IsItem(items[0]) && (items[0].fields["sku"] == sku || exists i: nat :: FoundAt(items[1..], sku, i))
  {
    if i: nat :| FoundAt(items[1..], sku, i) {
      assert forall j | 0 < j <= i :: items[j] == items[1..][j - 1];
      assert IsItem(items[0]) ==> FoundAt(items, sku, i + 1);
    }
    if i: nat :| FoundAt(items, sku, i) {
      assert i > 0 ==> FoundAt(items[1..], sku, i - 1);
    }
    assert IsItem(items[0]) && items[0].fields["sku"] == sku ==> FoundAt(items, sku, 0);
  }

  lemma KeylessInRest(items: seq<Json>, sku: Json)
    requires items != []
    ensures (exists i: nat :: KeylessAt(items, sku, i)) <==>
      if IsItem(items[0]) then items[0].fields["sku"] != sku && exists i: nat :: KeylessAt(items[1..], sku, i)
      else items[0].Obj?
  {
    if i: nat :| KeylessAt(items[1..], sku, i) {
      assert forall j | 0 < j <= i :: items[j] == items[1..][j - 1];
      assert IsItem(items[0]) && items[0].fields["sku"] != sku ==> KeylessAt(items, sku, i + 1);
    }
    if i: nat :| KeylessAt(items, sku, i) {
      assert i > 0 ==> KeylessAt(items[1..], sku, i - 1);
    }
    assert items[0].Obj? && !IsItem(items[0]) ==> KeylessAt(items, sku, 0);
  }

  lemma OrderScanFinds(order: Dict, sku: Json)
    ensures ScanOrder(order, sku).Hit? <==> HasItem(order, sku)
    ensures ScanOrder(order, sku).Miss? <==> LacksItem(order, sku)
    ensures ScanOrder(order, sku).BadKey? <==> HasKeylessItem(order, sku)
  {
    if "items" in order && order["items"].Arr? {
      ScanFinds(order["items"].items, sku);
    }
  }

  /** A replacement is issued exactly for an own order with that item, delivered within
      thirty days and not replaced before; then one entry is added, and nothing else. */
  lemma ReplaceItem(w: World, a: Dict)
    ensures var e := Step(w, ToolCall("order", "replace_item", a));
      && (e.outcome.Returned? <==> CanReplace(w, a))
      && if CanReplace(w, a) then
           var entry := map["order_id" := a["order_id"], "sku" := a["sku"], "reason" := a["reason"]];
           e == Effect(w.(replacements := w.replacements[a["order_id"].s := entry]), Returned(Obj(entry)))
         else e == Effect(w, e.outcome)
  {
    hide ScanOrder;
    if OwnOrder(w, a) && "sku" in a {
      OrderScanFinds(Named(w.orders, a, "order_id").value, a["sku"]);
    }
    hide HasItem, LacksItem;
  }

  lemma ReplaceItemErrors(w: World, a: Dict)
    requires !CanReplace(w, a)
    ensures var e := Step(w, ToolCall("order", "replace_item", a));
      if a.Keys != {"order_id", "requesting_customer_id", "sku", "reason"} then e.outcome == Failed(TypeError)
      else if !OwnOrder(w, a) then e.outcome == NotOwn(w, a)
      else var order := Named(w.orders, a, "order_id").value;
        if LacksItem(order, a["sku"]) then e.outcome == Failed(NotFoundError)
        else if HasKeylessItem(order, a["sku"]) then e.outcome == Escaped(KeyError)
        else if !HasItem(order, a["sku"]) then e.outcome == Failed(TypeError)
        else if a["order_id"].s in w.replacements then e.outcome == Failed(PolicyViolationError)
        else if DeliveryError(order).Some? then e.outcome == DeliveryError(order).value
        else e.outcome == Failed(PolicyViolationError)
  {
    hide ScanOrder;
    if OwnOrder(w, a) && "sku" in a {
      OrderScanFinds(Named(w.orders, a, "order_id").value, a["sku"]);
    }
    hide HasItem, LacksItem, HasKeylessItem;
  }

  // ---------------------------------------------------------------- refunding

  ghost predicate CanRefund(w: World, a: Dict) {
    && a.Keys == {"order_id", "requesting_customer_id", "amount_cents", "reason"} && OwnOrder(w, a)
    && a["order_id"].s !in w.refunds
    && var order := Named(w.orders, a, "order_id").value;
       && DeliveredInTime(order) && "total_cents" in order && order["total_cents"].Num?
       && a["amount_cents"].Num? && a["amount_cents"].n <= order["total_cents"].n
  }

  /** A refund is paid exactly for an own order, delivered within thirty days and not refunded
      before, of at most its total; then one entry is added, and nothing else. */
  lemma CreateRefund(w: World, a: Dict)
    ensures var e := Step(w, ToolCall("refund", "create_refund", a));
      && (e.outcome.Returned? <==> CanRefund(w, a))
      && if CanRefund(w, a) then
           var entry := map["order_id" := a["order_id"], "amount_cents" := a["amount_cents"], "reason" := a["reason"]];
           e == Effect(w.(refunds := w.refunds[a["order_id"].s := entry]), Returned(Obj(entry)))
         else
           e == Effect(w, if a.Keys != {"order_id", "requesting_customer_id", "amount_cents", "reason"}
                          then Failed(TypeError)
                          else if !OwnOrder(w, a) then NotOwn(w, a)
                          else if a["order_id"].s in w.refunds then Failed(PolicyViolationError)
                          else RefundError(Named(w.orders, a, "order_id").value, a["amount_cents"]))
  {
  }

  /** What refusing a refund that was not paid before comes to. */
  ghost function RefundError(order: Dict, amount: Json): Outcome {
    if DeliveryError(order).Some? then DeliveryError(order).value
    else if !DeliveredInTime(order) then Failed(PolicyViolationError)
    else if "total_cents" !in order then Escaped(KeyError)
    else if !order["total_cents"].Num? || !amount.Num? then Failed(TypeError)
    else Failed(PolicyViolationError)
  }

  // ---------------------------------------------------------------- tickets

  /** A note can be added to a ticket without notes, or with a list of them. */
  ghost predicate TakesNote(ticket: Dict) {
    "notes" in ticket ==> ticket["notes"].Arr?
  }

  function Noted(ticket: Dict, note: Json): Dict {
    ticket["notes" := Arr((if "notes" in ticket && ticket["notes"].Arr? then ticket["notes"].items else []) + [note])]
  }

  /** Updating sets the status and adds the note, each if it is given and not null. The
      status stays written when the note cannot be added. */
  lemma UpdateTicket(w: World, a: Dict)
    ensures var e, found := Step(w, ToolCall("ticket", "update_ticket", a)), Named(w.tickets, a, "ticket_id");
      if !({"ticket_id"} <= a.Keys <= {"ticket_id", "status", "note"}) then e == Effect(w, Failed(TypeError))
      else if found.None? then e == Effect(w, LookupError(a["ticket_id"]))
      else
        var id := a["ticket_id"].s;
        var moved := if Get(a, "status") != Null then w.tickets[id]["status" := a["status"]] else w.tickets[id];
        if Get(a, "note") == Null then
          e == Effect(w.(tickets := w.tickets[id := moved]), Returned(Obj(moved)))
        else if !TakesNote(w.tickets[id]) then
          e == Effect(w.(tickets := w.tickets[id := moved]), Escaped(AttributeError))
        else
          e == Effect(w.(tickets := w.tickets[id := Noted(moved, a["note"])]), Returned(Obj(Noted(moved, a["note"]))))
  {
    assert |"status"| != |"notes"|;
    assert "note" in a ==> [] + [a["note"]] == [a["note"]];
  }

  /** Escalating an open or pending ticket sets its status, adds one to its counter and adds
      the reason to its notes, in that order; what is written stays when a later write fails. */
  lemma EscalateTicket(w: World, a: Dict)
    ensures var e, found := Step(w, ToolCall("ticket", "escalate_ticket", a)), Named(w.tickets, a, "ticket_id");
      if a.Keys != {"ticket_id", "reason"} then e == Effect(w, Failed(TypeError))
      else if found.None? then e == Effect(w, LookupError(a["ticket_id"]))
      else if "status" !in found.value then e == Effect(w, Escaped(KeyError))
      else if found.value["status"] !in {Str("open"), Str("pending")} then
        e == Effect(w, if found.value["status"].Arr? || found.value["status"].Obj? then Failed(TypeError)
                       else Failed(PolicyViolationError))
      else
        var id, count := a["ticket_id"].s, if "escalation_count" in found.value then found.value["escalation_count"]
                                           else Num(0);
        var moved := w.tickets[id]["status" := Str("escalated")];
        if !count.Num? then e == Effect(w.(tickets := w.tickets[id := moved]), Failed(TypeError))
        else
          var counted := moved["escalation_count" := Num(count.n + 1)];
          if !TakesNote(w.tickets[id]) then
            e == Effect(w.(tickets := w.tickets[id := counted]), Escaped(AttributeError))
          else
            e == Effect(w.(tickets := w.tickets[id := Noted(counted, a["reason"])]),
                        Returned(Obj(Noted(counted, a["reason"]))))
  {
    assert "reason" in a ==> [] + [a["reason"]] == [a["reason"]];
    assert |"status"| != |"notes"| && |"escalation_count"| != |"notes"| && |"status"| != |"escalation_count"|;
    if Named(w.tickets, a, "ticket_id").Some? {
      var id := a["ticket_id"].s;
      assert w.(tickets := w.tickets[id := w.tickets[id]]) == w;
    }
  }

  // ---------------------------------------------------------------- anything else

  const OPERATIONS: set<(string, string)> :=
    {("customer", "get_customer"), ("order", "get_order"), ("order", "cancel_order"), ("order", "replace_item"),
     ("policy", "check_refund_policy"), ("policy", "check_replacement_policy"), ("refund", "create_refund"),
     ("ticket", "update_ticket"), ("ticket", "escalate_ticket")}

  lemma OtherTools(w: World, call: ToolCall)
    ensures Step(w, call).outcome == Failed(UnknownToolError) <==> (call.service, call.operation) !in OPERATIONS
    ensures (call.service, call.operation) !in OPERATIONS ==> Step(w, call).world == w
  {
  }
}
