/** What each generator changes in a task and when it applies (benchmark/mutations.py),
    stated on the fields of the variant it returns. */
module MutationLaws {
  import opened Json
  import opened Schema
  import opened Runner
  import opened Judging
  import opened Mutations
  import BoundarySimulation

  /** The labels of a variant: a new id, the two tags added, and the task as its parent. */
  ghost predicate Labelled(task: Task, v: Variant, infix: string, name: string, seed: nat) {
    && v.parentId == task.id && |v.kinds| == 1
    && (v.valid ==> v.task.id == task.id + infix + Decimal(seed) && v.task.tags == task.tags + ["adversarial", name])
    && (!v.valid ==> v.task == task)
  }

  lemma Labels(task: Task, k: Kind, d: Draw)
    requires DrawFits(task, k, d)
    ensures var v := Mutate(task, k, d);
      && v.kinds == [k] && IsNumeral(Decimal(d.seed), d.seed)
      && match k
         case Typo => Labelled(task, v, "__typo_", "typo_injection", d.seed)
         case Distractor => Labelled(task, v, "__distractor_", "distractor_information", d.seed)
         case ConflictingDetail => Labelled(task, v, "__conflict_", "conflicting_detail", d.seed)
         case Paraphrase => Labelled(task, v, "__paraphrase_", "paraphrase", d.seed)
         case ToolResultNoise => Labelled(task, v, "__noise_", "tool_result_noise", d.seed)
         case MissingCustomer => Labelled(task, v, "__missing_customer_", "missing_customer_information", d.seed)
         case BoundaryRefund => Labelled(task, v, "__boundary_", "boundary_refund_amount", d.seed)
  {
    DecimalIsNumeral(d.seed);
    hide IsNumeral, Decimal, FindFullRefund, AddNoise, DecoyGuard, ShiftTotal, Amount, ShiftForbidden, ShiftFinal;
    Infixed(task.id, k, d.seed);
    hide IdSuffix;
  }

  lemma Infixed(id: string, k: Kind, seed: nat)
    ensures id + IdSuffix(k, seed) == id + Infix(k) + Decimal(seed)
  {
    hide Decimal;
    assert id + (Infix(k) + Decimal(seed)) == id + Infix(k) + Decimal(seed);
  }

  /** The variant is the task but for its labels and what `with` says. */
  ghost predicate ChangesTo(v: Variant, with: Task) {
    v.task == with.(id := v.task.id, tags := v.task.tags)
  }

  /** Rewording changes the input only. A distractor can always be added. */
  lemma TextKinds(task: Task, k: Kind, d: Draw)
    requires DrawFits(task, k, d) && k in {Typo, Distractor, ConflictingDetail, Paraphrase}
    ensures var v := Mutate(task, k, d);
      && (v.valid <==> d.text.Some?) && (k == Distractor ==> v.valid)
      && (v.valid ==> ChangesTo(v, task.(input := d.text.value)))
  {
  }

  /** Hiding the customer also forbids looking one particular decoy customer up. */
  lemma MissingCustomerLaw(task: Task, d: Draw)
    requires DrawFits(task, MissingCustomer, d)
    ensures var v := Mutate(task, MissingCustomer, d);
      && (v.valid <==> d.text.Some?)
      && (v.valid ==> |v.task.forbidden| == |task.forbidden| + 1
                      && ChangesTo(v, task.(input := d.text.value, forbidden := v.task.forbidden))
                      && v.task.forbidden[..|task.forbidden|] == task.forbidden
                      && IsDecoyGuard(v.task.forbidden[|task.forbidden|]))
  {
    GuardIsDecoy(d);
    hide DecoyGuard, IsDecoyGuard;
  }

  lemma GuardIsDecoy(d: Draw)
    requires d.decoy <= 99
    ensures IsDecoyGuard(DecoyGuard(d))
  {
    DecimalIsNumeral(900 + d.decoy);
    hide IsNumeral, Decimal;
    assert DecoyGuard(d).arguments["customer_id"] == Str("CUST-" + Decimal(900 + d.decoy));
  }

  ghost predicate IsDecoyGuard(f: ForbiddenAction) {
    && f.service == "customer" && f.operation == "get_customer"
    && f.reason == "Customer identity was not provided in the request; the agent must infer it from the order."
    && f.arguments.Keys == {"customer_id"}
    && exists s: string, n: nat :: 900 <= n <= 999 && IsNumeral(s, n) && f.arguments["customer_id"] == Str("CUST-" + s)
  }

  /** Noise writes one of four fields, with its value, on one customer, order or ticket. */
  lemma NoiseLaw(task: Task, d: Draw)
    requires DrawFits(task, ToolResultNoise, d)
    ensures var v, w := Mutate(task, ToolResultNoise, d), task.initial;
      && (v.valid <==> w.customers != map[] || w.orders != map[] || w.tickets != map[])
      && (v.valid ==> exists c, id, field: string, value: string ::
            && (field, value) in {("loyalty_tier", "silver"), ("packaging", "eco"), ("warehouse_region", "west-2"),
                                  ("internal_batch_id", "BATCH-4471")}
            && ChangesTo(v, task.(initial := v.task.initial))
            && OneFieldMore(w, v.task.initial, c, id, field, value))
  {
    var v := Mutate(task, ToolResultNoise, d);
    if v.valid {
      assert OneFieldMore(task.initial, v.task.initial, d.collection, d.entity, d.field, NOISE_FIELDS[d.field]);
      assert (d.field, NOISE_FIELDS[d.field]) in
        {("loyalty_tier", "silver"), ("packaging", "eco"), ("warehouse_region", "west-2"),
         ("internal_batch_id", "BATCH-4471")};
    }
  }

  ghost predicate OneFieldMore(w: World, u: World, c: Collection, id: string, field: string, value: string) {
    match c
    case Customers =>
      id in w.customers && u == w.(customers := w.customers[id := w.customers[id][field := Str(value)]])
    case Orders => id in w.orders && u == w.(orders := w.orders[id := w.orders[id][field := Str(value)]])
    case Tickets => id in w.tickets && u == w.(tickets := w.tickets[id := w.tickets[id][field := Str(value)]])
  }

  // ---------------------------------------------------------------- the boundary refund

  ghost predicate RefundAt(expected: seq<ExpectedAction>, i: nat) {
    i < |expected| && expected[i].service == "refund" && expected[i].operation == "create_refund"
  }

  ghost predicate FirstRefundAt(expected: seq<ExpectedAction>, i: nat) {
    RefundAt(expected, i) && forall j: nat | j < i :: !RefundAt(expected, j)
  }

  /** The first expected refund is that of this order, for the whole of its total. */
  ghost predicate RefundsAll(task: Task, i: nat, order: string, total: int) {
    && FirstRefundAt(task.expected, i)
    && var a := task.expected[i].arguments;
       && "order_id" in a && a["order_id"] == Str(order) && order in task.initial.orders
       && "total_cents" in task.initial.orders[order] && task.initial.orders[order]["total_cents"] == Num(total)
       && "amount_cents" in a && a["amount_cents"] == Num(total)
  }

  lemma {:induction false} FirstRefundIs(expected: seq<ExpectedAction>, i: nat)
    ensures FirstRefundAt(expected, i) <==> i < |expected| && FirstRefund(expected) == i
  {
    if expected != [] && !IsRefund(expected[0].service, expected[0].operation) {
      if i > 0 {
        FirstRefundIs(expected[1..], i - 1);
        assert forall j: nat | j < |expected[1..]| :: RefundAt(expected[1..], j) <==> RefundAt(expected, j + 1);
        if FirstRefundAt(expected[1..], i - 1) {
          forall j: nat | j < i ensures !RefundAt(expected, j) {
            assert j > 0 ==> !RefundAt(expected[1..], j - 1);
          }
        }
      }
    } else if expected != [] {
      assert RefundAt(expected, 0);
    }
  }

  lemma FoundIsRefundsAll(task: Task, r: FullRefund)
    ensures FindFullRefund(task) == Some(r) <==> RefundsAll(task, r.index, r.order, r.total)
  {
    FirstRefundIs(task.expected, r.index);
    FirstRefundIs(task.expected, FirstRefund(task.expected));
    hide FirstRefund, FirstRefundAt;
  }

  /** The forbidden action, moved along when it is a refund of the order one cent above. */
  ghost predicate Moved(f: ForbiddenAction, g: ForbiddenAction, order: string, total: int, delta: nat) {
    if f.service == "refund" && "order_id" in f.arguments && f.arguments["order_id"] == Str(order)
       && "amount_cents" in f.arguments && f.arguments["amount_cents"] == Num(total + 1)
    then g == f.(arguments := f.arguments["amount_cents" := Num(total + delta + 1)])
    else g == f
  }

  /** The expected final state, with the refund of the order raised where it is mentioned. */
  ghost predicate FinalMoved(e: Dict, f: Dict, order: string, total: int, delta: nat) {
    if "refunds" in e && e["refunds"].Obj? && order in e["refunds"].fields && e["refunds"].fields[order].Obj? then
      var refund := e["refunds"].fields[order].fields;
      f == e["refunds" := Obj(e["refunds"].fields[order := Obj(refund["amount_cents" := Num(total + delta)])])]
    else f == e
  }

  /** What the boundary variant is: total, expected amount, mentioned amount and the amounts
      one cent above all grow by the same number of cents, and nothing else changes. */
  ghost predicate RaisedBy(task: Task, v: Task, i: nat, order: string, total: int, delta: nat)
    requires RefundsAll(task, i, order, total)
  {
    var w, e := task.initial, task.expected[i];
    && v.input == task.input
    && v.initial == w.(orders := w.orders[order := w.orders[order]["total_cents" := Num(total + delta)]])
    && v.expected == task.expected[i := e.(arguments := e.arguments["amount_cents" := Num(total + delta)])]
    && |v.forbidden| == |task.forbidden|
    && (forall k | 0 <= k < |task.forbidden| :: Moved(task.forbidden[k], v.forbidden[k], order, total, delta))
    && FinalMoved(task.expectedFinal, v.expectedFinal, order, total, delta)
  }

  /** Main result: the boundary generator applies exactly to the tasks whose first expected
      refund asks for the whole seeded total of an order, and raises it by 1 to 200 cents. */
  lemma BoundaryLaw(task: Task, d: Draw)
    requires DrawFits(task, BoundaryRefund, d)
    ensures var v := Mutate(task, BoundaryRefund, d);
      && 1 <= d.delta <= 200
      && (v.valid <==> exists i: nat, order, total :: RefundsAll(task, i, order, total))
      && (forall i: nat, order, total | RefundsAll(task, i, order, total) ::
            RaisedBy(task, v.task, i, order, total, d.delta))
  {
    forall r { FoundIsRefundsAll(task, r); }
    var v, found := Mutate(task, BoundaryRefund, d), FindFullRefund(task);
    hide FindFullRefund, RefundsAll;
    if found.Some? {
      assert RefundsAll(task, found.value.index, found.value.order, found.value.total);
    }
    forall i: nat, order, total | RefundsAll(task, i, order, total)
      ensures RaisedBy(task, v.task, i, order, total, d.delta)
    {
      assert FindFullRefund(task) == Some(FullRefund(i, order, total));
      RaisedByBoundary(task, FullRefund(i, order, total), d.delta);
      hide RaisedBy, Boundary;
      RaisedSame(task, Boundary(task, FullRefund(i, order, total), total + d.delta), v.task, i, order, total, d.delta);
    }
  }

  lemma RaisedByBoundary(task: Task, r: FullRefund, delta: nat)
    requires FindFullRefund(task) == Some(r) && RefundsAll(task, r.index, r.order, r.total)
    ensures RaisedBy(task, Boundary(task, r, r.total + delta), r.index, r.order, r.total, delta)
  {
    hide FindFullRefund, FirstRefundAt;
  }

  lemma RaisedSame(task: Task, v: Task, u: Task, i: nat, order: string, total: int, delta: nat)
    requires RefundsAll(task, i, order, total) && RaisedBy(task, v, i, order, total, delta)
    requires u == v.(id := u.id, tags := u.tags)
    ensures RaisedBy(task, u, i, order, total, delta)
  {
    hide RefundsAll, Moved, FinalMoved;
  }

  /** Main result: for a task for one full refund, a call sequence passes exactly when the
      sequence with its refunds of that order raised passes the variant that is generated. */
  lemma BoundaryVariantKeepsMeaning(task: Task, d: Draw, r: FullRefund, calls: seq<ToolCall>)
    requires DrawFits(task, BoundaryRefund, d) && RefundsAll(task, r.index, r.order, r.total)
    requires BoundarySimulation.AsksFullRefund(task, r)
    ensures var v := Mutate(task, BoundaryRefund, d);
      v.valid && (Verdict(task, calls) <==> Verdict(v.task, BoundarySimulation.ShiftCalls(calls, r.order, d.delta)))
  {
    hide Verdict, BoundarySimulation.ShiftCalls;
    FoundIsRefundsAll(task, r);
    BoundarySimulation.BoundaryPreservesMeaning(task, r, d.delta, calls);
    hide RefundsAll, FindFullRefund, Boundary, BoundarySimulation.AsksFullRefund;
    var variant := Boundary(task, r, r.total + d.delta);
    SameVerdict(variant, Mutate(task, BoundaryRefund, d).task,
                BoundarySimulation.ShiftCalls(calls, r.order, d.delta));
  }

  lemma SameVerdict(v: Task, u: Task, calls: seq<ToolCall>)
    requires u == v.(id := u.id, tags := u.tags)
    ensures Verdict(v, calls) <==> Verdict(u, calls)
  {
  }

  // ---------------------------------------------------------------- compositions

  /** A composition goes from task to task, each the variant of the one before it, and is
      valid exactly when each of these variants is. */
  lemma CompositionGoesStepByStep(task: Task, kinds: seq<Kind>, rng: (nat, Task, Kind) -> Draw)
    requires Fair(rng)
    ensures exists tasks: seq<Task> | |tasks| == |kinds| + 1 && tasks[0] == task ::
      && tasks[|kinds|] == Chain(task, kinds, rng, |kinds|)
      && forall i | 0 <= i < |kinds| ::
           var v := Mutate(tasks[i], kinds[i], rng(i, tasks[i], kinds[i]));
           tasks[i + 1] == v.task && (StepApplies(task, kinds, rng, i) <==> v.valid)
  {
    hide Mutate;
    var tasks := seq(|kinds| + 1, i requires 0 <= i < |kinds| + 1 => Chain(task, kinds, rng, i));
    assert tasks[0] == task;
  }
}
