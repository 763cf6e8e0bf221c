/** tool_environment/services.py: what each support operation does to the state.
    The functions here are total: a record that lacks a key raises KeyError, a value of
    the wrong kind TypeError or AttributeError, at the point where the service reads it. */
module Services {
  import opened Json
  import opened Schema

  /** Errors the traced proxy records and hands back to the agent. */
  datatype ToolError = NotFoundError | PolicyViolationError | TypeError | UnknownToolError

  /** Errors nothing on the way catches: they abort the whole run. */
  datatype Crash = KeyError | AttributeError

  datatype Outcome = Returned(value: Json) | Failed(error: ToolError) | Escaped(crash: Crash)

  datatype Effect = Effect(world: World, outcome: Outcome)

  const CANCELLABLE_STATUSES: set<string> := {"placed", "processing", "shipped"}
  const ESCALATABLE_STATUSES: set<string> := {"open", "pending"}
  const REFUND_WINDOW_DAYS := 30
  const REPLACEMENT_WINDOW_DAYS := 30

  const DELIVERED := Str("delivered")
  const CANCELLED := Str("cancelled")
  const ESCALATED := Str("escalated")

  predicate Hashable(v: Json) {
    !v.Arr? && !v.Obj?
  }

  /** `table.get(id)`: an unhashable id raises, any id but a stored string misses. */
  function Missing(t: Table, id: Json): Option<ToolError> {
    if !Hashable(id) then Some(TypeError)
    else if id.Str? && id.s in t then None
    else Some(NotFoundError)
  }

  /** `status in SET` for a frozen set of strings; None when hashing raises. */
  function InStatusSet(status: Json, set_: set<string>): Option<bool> {
    if !Hashable(status) then None else Some(status.Str? && status.s in set_)
  }

  // ---------------------------------------------------------------- policies

  datatype Standing = Eligible | Ineligible | Raises(outcome: Outcome)

  /** `status == "delivered" and delivered_days_ago <= window`, short-circuiting. */
  function Window(order: Dict, window: int): Standing {
    if "status" !in order then Raises(Escaped(KeyError))
    else if order["status"] != DELIVERED then Ineligible
    else if "delivered_days_ago" !in order then Raises(Escaped(KeyError))
    else if !order["delivered_days_ago"].Num? then Raises(Failed(TypeError))
    else if order["delivered_days_ago"].n <= window then Eligible
    else Ineligible
  }

  function PolicyReason(eligible: bool): Json {
    Str(if eligible then "within_window" else "outside_policy")
  }

  function CheckRefundPolicy(w: World, id: Json): Outcome {
    if Missing(w.orders, id).Some? then Failed(Missing(w.orders, id).value)
    else
      var order := w.orders[id.s];
      match Window(order, REFUND_WINDOW_DAYS)
      case Raises(e) => e
      case v =>
        if v.Eligible? && "total_cents" !in order then Escaped(KeyError)
        else Returned(Obj(map[
          "order_id" := id,
          "eligible" := Truth(v.Eligible?),
          "max_refund_cents" := if v.Eligible? then order["total_cents"] else Num(0),
          "reason" := PolicyReason(v.Eligible?)]))
  }

  function CheckReplacementPolicy(w: World, id: Json): Outcome {
    if Missing(w.orders, id).Some? then Failed(Missing(w.orders, id).value)
    else
      match Window(w.orders[id.s], REPLACEMENT_WINDOW_DAYS)
      case Raises(e) => e
      case v =>
        Returned(Obj(map[
          "order_id" := id,
          "eligible" := Truth(v.Eligible?),
          "reason" := PolicyReason(v.Eligible?)]))
  }

  /** `policy["eligible"]` of a returned policy answer. */
  predicate SaysEligible(answer: Outcome) {
    answer.Returned? && answer.value.Obj? && Get(answer.value.fields, "eligible") == Truth(true)
  }

  /** `amount > limit` on numbers; None when the comparison raises. */
  function Exceeds(amount: Json, limit: Json): Option<bool> {
    if amount.Num? && limit.Num? then Some(amount.n > limit.n) else None
  }

  // ---------------------------------------------------------------- operations

  function GetRecord(t: Table, id: Json): Outcome {
    if Missing(t, id).Some? then Failed(Missing(t, id).value) else Returned(Obj(t[id.s]))
  }

  /** The two checks every order operation starts with; None lets it go on. */
  function OrderGuard(w: World, id: Json, requester: Json): Option<Outcome> {
    if Missing(w.orders, id).Some? then Some(Failed(Missing(w.orders, id).value))
    else if "customer_id" !in w.orders[id.s] then Some(Escaped(KeyError))
    else if w.orders[id.s]["customer_id"] != requester then Some(Failed(PolicyViolationError))
    else None
  }

  lemma GuardPassed(w: World, id: Json, requester: Json)
    requires OrderGuard(w, id, requester).None?
    ensures id.Str? && id.s in w.orders && Get(w.orders[id.s], "customer_id") == requester
  {
  }

  /** What cancelling makes of an order record. */
  function CancelRecord(order: Dict): (Dict, Outcome) {
    if "status" !in order then (order, Escaped(KeyError))
    else
      match InStatusSet(order["status"], CANCELLABLE_STATUSES)
      case None => (order, Failed(TypeError))
      case Some(false) => (order, Failed(PolicyViolationError))
      case Some(true) =>
        var cancelled := order["status" := CANCELLED];
        (cancelled, Returned(Obj(cancelled)))
  }

  function CancelOrder(w: World, id: Json, requester: Json): Effect {
    if OrderGuard(w, id, requester).Some? then Effect(w, OrderGuard(w, id, requester).value)
    else
      var (order, outcome) := CancelRecord(w.orders[id.s]);
      Effect(w.(orders := w.orders[id.s := order]), outcome)
  }

  datatype Scan = Hit | Miss | BadKey | BadType

  /** `any(item["sku"] == sku for item in items)` over a list. */
  function ScanItems(items: seq<Json>, sku: Json): Scan {
    if items == [] then Miss
    else if !items[0].Obj? then BadType
    else if "sku" !in items[0].fields then BadKey
    else if items[0].fields["sku"] == sku then Hit
    else ScanItems(items[1..], sku)
  }

  /** The same over whatever `order.get("items", [])` yields: iterating an object or a
      string gives strings, which `["sku"]` cannot index. */
  function ScanOrder(order: Dict, sku: Json): Scan {
    if "items" !in order then Miss
    else
      match order["items"]
      case Arr(items) => ScanItems(items, sku)
      case Obj(d) => if d == map[] then Miss else BadType
      case Str(s) => if s == "" then Miss else BadType
      case _ => BadType
  }

  function ReplacementRecord(id: Json, sku: Json, reason: Json): Dict {
    map["order_id" := id, "sku" := sku, "reason" := reason]
  }

  /** The replacement table after a request that got past the ownership check. */
  function IssueReplacement(replacements: Table, id: string, scan: Scan, policy: Outcome, sku: Json, reason: Json)
    : (Table, Outcome)
  {
    match scan
    case Miss => (replacements, Failed(NotFoundError))
    case BadKey => (replacements, Escaped(KeyError))
    case BadType => (replacements, Failed(TypeError))
    case Hit =>
      if id in replacements then (replacements, Failed(PolicyViolationError))
      else if !policy.Returned? then (replacements, policy)
      else if !SaysEligible(policy) then (replacements, Failed(PolicyViolationError))
      else
        var replacement := ReplacementRecord(Str(id), sku, reason);
        (replacements[id := replacement], Returned(Obj(replacement)))
  }

  function ReplaceItem(w: World, id: Json, requester: Json, sku: Json, reason: Json): Effect {
    if OrderGuard(w, id, requester).Some? then Effect(w, OrderGuard(w, id, requester).value)
    else
      var (replacements, outcome) := IssueReplacement(
        w.replacements, id.s, ScanOrder(w.orders[id.s], sku), CheckReplacementPolicy(w, id), sku, reason);
      Effect(w.(replacements := replacements), outcome)
  }

  function RefundRecord(id: Json, amount: Json, reason: Json): Dict {
    map["order_id" := id, "amount_cents" := amount, "reason" := reason]
  }

  /** The refund table after a request that got past the ownership check. */
  function IssueRefund(refunds: Table, id: string, policy: Outcome, amount: Json, reason: Json): (Table, Outcome) {
    if id in refunds then (refunds, Failed(PolicyViolationError))
    else if !policy.Returned? then (refunds, policy)
    else if !SaysEligible(policy) then (refunds, Failed(PolicyViolationError))
    else
      match Exceeds(amount, Get(policy.value.fields, "max_refund_cents"))
      case None => (refunds, Failed(TypeError))
      case Some(true) => (refunds, Failed(PolicyViolationError))
      case Some(false) =>
        var refund := RefundRecord(Str(id), amount, reason);
        (refunds[id := refund], Returned(Obj(refund)))
  }

  function CreateRefund(w: World, id: Json, requester: Json, amount: Json, reason: Json): Effect {
    if OrderGuard(w, id, requester).Some? then Effect(w, OrderGuard(w, id, requester).value)
    else
      var (refunds, outcome) := IssueRefund(w.refunds, id.s, CheckRefundPolicy(w, id), amount, reason);
      Effect(w.(refunds := refunds), outcome)
  }

  /** `ticket.setdefault("notes", []).append(note)`; None when notes is not a list. */
  function AddNote(ticket: Dict, note: Json): Option<Dict> {
    if "notes" !in ticket then Some(ticket["notes" := Arr([note])])
    else if ticket["notes"].Arr? then Some(ticket["notes" := Arr(ticket["notes"].items + [note])])
    else None
  }

  /** What updating makes of a ticket record. `status` and `note` are null when the call
      leaves them out. The status is written before the note is added. */
  function UpdateRecord(ticket: Dict, status: Json, note: Json): (Dict, Outcome) {
    var moved := if status.Null? then ticket else ticket["status" := status];
    match if note.Null? then Some(moved) else AddNote(moved, note)
    case None => (moved, Escaped(AttributeError))
    case Some(noted) => (noted, Returned(Obj(noted)))
  }

  function UpdateTicket(w: World, id: Json, status: Json, note: Json): Effect {
    if Missing(w.tickets, id).Some? then Effect(w, Failed(Missing(w.tickets, id).value))
    else
      var (ticket, outcome) := UpdateRecord(w.tickets[id.s], status, note);
      Effect(w.(tickets := w.tickets[id.s := ticket]), outcome)
  }

  /** `ticket["escalation_count"] = ticket.get("escalation_count", 0) + 1`; None when
      the addition raises. */
  function CountUp(ticket: Dict): Option<Dict> {
    if "escalation_count" !in ticket then Some(ticket["escalation_count" := Num(1)])
    else if ticket["escalation_count"].Num? then
      Some(ticket["escalation_count" := Num(ticket["escalation_count"].n + 1)])
    else None
  }

  /** The record and the outcome of escalating an escalatable ticket. The status is
      written before the counter is read, and both before the note is added. */
  function Escalated(ticket: Dict, reason: Json): (Dict, Outcome) {
    var moved := ticket["status" := ESCALATED];
    match CountUp(moved)
    case None => (moved, Failed(TypeError))
    case Some(counted) =>
      match AddNote(counted, reason)
      case None => (counted, Escaped(AttributeError))
      case Some(noted) => (noted, Returned(Obj(noted)))
  }

  /** What escalating makes of any ticket record. */
  function EscalateRecord(ticket: Dict, reason: Json): (Dict, Outcome) {
    if "status" !in ticket then (ticket, Escaped(KeyError))
    else
      match InStatusSet(ticket["status"], ESCALATABLE_STATUSES)
      case None => (ticket, Failed(TypeError))
      case Some(false) => (ticket, Failed(PolicyViolationError))
      case Some(true) => Escalated(ticket, reason)
  }

  function EscalateTicket(w: World, id: Json, reason: Json): Effect {
    if Missing(w.tickets, id).Some? then Effect(w, Failed(Missing(w.tickets, id).value))
    else
      var (ticket, outcome) := EscalateRecord(w.tickets[id.s], reason);
      Effect(w.(tickets := w.tickets[id.s := ticket]), outcome)
  }

  // ---------------------------------------------------------------- one tool call

  /** Python's keyword binding: every required name given, and no unknown one. */
  predicate Binds(arguments: Dict, required: set<string>, optional: set<string>) {
    required <= arguments.Keys <= required + optional
  }

  /** `_resolve` and the call of the method it finds. */
  function Step(w: World, call: ToolCall): Effect {
    var a := call.arguments;
    var misbound := Effect(w, Failed(TypeError));
    match (call.service, call.operation)
    case ("customer", "get_customer") =>
      if Binds(a, {"customer_id"}, {}) then Effect(w, GetRecord(w.customers, a["customer_id"])) else misbound
    case ("order", "get_order") =>
      if Binds(a, {"order_id"}, {}) then Effect(w, GetRecord(w.orders, a["order_id"])) else misbound
    case ("order", "cancel_order") =>
      if Binds(a, {"order_id", "requesting_customer_id"}, {})
      then CancelOrder(w, a["order_id"], a["requesting_customer_id"]) else misbound
    case ("order", "replace_item") =>
      if Binds(a, {"order_id", "requesting_customer_id", "sku", "reason"}, {})
      then ReplaceItem(w, a["order_id"], a["requesting_customer_id"], a["sku"], a["reason"]) else misbound
    case ("policy", "check_refund_policy") =>
      if Binds(a, {"order_id"}, {}) then Effect(w, CheckRefundPolicy(w, a["order_id"])) else misbound
    case ("policy", "check_replacement_policy") =>
      if Binds(a, {"order_id"}, {}) then Effect(w, CheckReplacementPolicy(w, a["order_id"])) else misbound
    case ("refund", "create_refund") =>
      if Binds(a, {"order_id", "requesting_customer_id", "amount_cents", "reason"}, {})
      then CreateRefund(w, a["order_id"], a["requesting_customer_id"], a["amount_cents"], a["reason"])
      else misbound
    case ("ticket", "update_ticket") =>
      if Binds(a, {"ticket_id"}, {"status", "note"})
      then UpdateTicket(w, a["ticket_id"], Get(a, "status"), Get(a, "note")) else misbound
    case ("ticket", "escalate_ticket") =>
      if Binds(a, {"ticket_id", "reason"}, {}) then EscalateTicket(w, a["ticket_id"], a["reason"]) else misbound
    case _ => Effect(w, Failed(UnknownToolError))
  }

  /** The state after a sequence of calls. */
  function After(w: World, calls: seq<ToolCall>): World {
    if calls == [] then w
    else Step(After(w, calls[..|calls| - 1]), calls[|calls| - 1]).world
  }

  /** No call of the sequence escapes, so a run making them gets past them all. */
  predicate Completes(w: World, calls: seq<ToolCall>)
    decreases calls
  {
    calls == []
    || (!Step(w, calls[0]).outcome.Escaped? && Completes(Step(w, calls[0]).world, calls[1..]))
  }
}
