/** benchmark/mutations.py: adversarial variants of a task. Each draw of the random number
    generator is a choice that is passed in; what the text mutations do to the wording of
    the input is a choice as well. */
module Mutations {
  import opened Json
  import opened Schema
  import opened Runner

  datatype Kind =
    | Typo | Distractor | ConflictingDetail | Paraphrase | ToolResultNoise | MissingCustomer | BoundaryRefund

  datatype Collection = Customers | Orders | Tickets

  /** The choices one mutation makes: the reworded input, if a wording applies, the entity
      and the field noise goes to, the decoy customer, and the boundary shift. */
  datatype Draw = Draw(
    seed: nat, text: Option<string>, collection: Collection, entity: string, field: string,
    decoy: nat, delta: nat)

  datatype Variant = Variant(task: Task, parentId: string, kinds: seq<Kind>, valid: bool)

  const NOISE_FIELDS: map<string, string> :=
    map["loyalty_tier" := "silver", "packaging" := "eco", "warehouse_region" := "west-2",
        "internal_batch_id" := "BATCH-4471"]

  /** CONTRACT_PRESERVING_MUTATIONS of benchmark/validators.py. */
  predicate ContractPreserving(k: Kind) {
    k.Typo? || k.Distractor? || k.ConflictingDetail? || k.Paraphrase? || k.ToolResultNoise?
  }

  function KindName(k: Kind): string {
    match k
    case Typo => "typo_injection"
    case Distractor => "distractor_information"
    case ConflictingDetail => "conflicting_detail"
    case Paraphrase => "paraphrase"
    case ToolResultNoise => "tool_result_noise"
    case MissingCustomer => "missing_customer_information"
    case BoundaryRefund => "boundary_refund_amount"
  }

  /** The part of an id between that of the task and the seed. */
  function Infix(k: Kind): string {
    match k
    case Typo => "__typo_"
    case Distractor => "__distractor_"
    case ConflictingDetail => "__conflict_"
    case Paraphrase => "__paraphrase_"
    case ToolResultNoise => "__noise_"
    case MissingCustomer => "__missing_customer_"
    case BoundaryRefund => "__boundary_"
  }

  function IdSuffix(k: Kind, seed: nat): string {
    Infix(k) + Decimal(seed)
  }

  /** What every variant gets: a derived id and two more tags. */
  function Relabelled(task: Task, k: Kind, d: Draw): Task {
    task.(id := task.id + IdSuffix(k, d.seed), tags := task.tags + ["adversarial", KindName(k)])
  }

  function TableOf(w: World, c: Collection): Table {
    match c
    case Customers => w.customers
    case Orders => w.orders
    case Tickets => w.tickets
  }

  function WithTable(w: World, c: Collection, t: Table): World {
    match c
    case Customers => w.(customers := t)
    case Orders => w.(orders := t)
    case Tickets => w.(tickets := t)
  }

  /** An entity and a field that noise may go to. */
  predicate NoiseChoice(w: World, d: Draw) {
    d.entity in TableOf(w, d.collection) && d.field in NOISE_FIELDS
  }

  predicate HasEntities(w: World) {
    w.customers != map[] || w.orders != map[] || w.tickets != map[]
  }

  function AddNoise(w: World, d: Draw): World
    requires NoiseChoice(w, d)
  {
    var t := TableOf(w, d.collection);
    WithTable(w, d.collection, t[d.entity := t[d.entity][d.field := Str(NOISE_FIELDS[d.field])]])
  }

  // ---------------------------------------------------------------- the boundary refund

  predicate IsRefund(service: string, operation: string) {
    service == "refund" && operation == "create_refund"
  }

  /** The place of the first expected refund; past the end when there is none. */
  function FirstRefund(expected: seq<ExpectedAction>): (i: nat)
    ensures i <= |expected|
    ensures i < |expected| ==> IsRefund(expected[i].service, expected[i].operation)
  {
    if expected == [] || IsRefund(expected[0].service, expected[0].operation) then 0
    else 1 + FirstRefund(expected[1..])
  }

  /** The order whose full total the task expects to be refunded, and that total. */
  datatype FullRefund = FullRefund(index: nat, order: string, total: int)

  function FindFullRefund(task: Task): Option<FullRefund> {
    var i := FirstRefund(task.expected);
    if i == |task.expected| then None
    else
      var a := task.expected[i].arguments;
      var id := Get(a, "order_id");
      if !id.Str? || id.s !in task.initial.orders then None
      else
        var total := Get(task.initial.orders[id.s], "total_cents");
        if !total.Num? || Get(a, "amount_cents") != total then None
        else Some(FullRefund(i, id.s, total.n))
  }

  function Amount(arguments: Dict, amount: int): Dict {
    arguments["amount_cents" := Num(amount)]
  }

  /** A forbidden refund of that order one cent above its total. */
  predicate OneCentAbove(f: ForbiddenAction, r: FullRefund) {
    && f.service == "refund" && Get(f.arguments, "order_id") == Str(r.order)
    && Get(f.arguments, "amount_cents") == Num(r.total + 1)
  }

  function ShiftForbidden(f: ForbiddenAction, r: FullRefund, newTotal: int): ForbiddenAction {
    if OneCentAbove(f, r) then f.(arguments := Amount(f.arguments, newTotal + 1)) else f
  }

  /** The expected final state with the new refund amount, where it mentions the refund. */
  function ShiftFinal(expectedFinal: Dict, order: string, newTotal: int): Dict {
    var refunds := Get(expectedFinal, "refunds");
    if refunds.Obj? && order in refunds.fields && refunds.fields[order].Obj? then
      expectedFinal["refunds" :=
        Obj(refunds.fields[order := Obj(Amount(refunds.fields[order].fields, newTotal))])]
    else expectedFinal
  }

  function ShiftTotal(w: World, order: string, newTotal: int): World
    requires order in w.orders
  {
    w.(orders := w.orders[order := w.orders[order]["total_cents" := Num(newTotal)]])
  }

  function Boundary(task: Task, r: FullRefund, newTotal: int): Task
    requires FindFullRefund(task) == Some(r)
  {
    task.(
      initial := ShiftTotal(task.initial, r.order, newTotal),
      expected := task.expected[r.index :=
        task.expected[r.index].(arguments := Amount(task.expected[r.index].arguments, newTotal))],
      forbidden := seq(|task.forbidden|, i requires 0 <= i < |task.forbidden| =>
        ShiftForbidden(task.forbidden[i], r, newTotal)),
      expectedFinal := ShiftFinal(task.expectedFinal, r.order, newTotal))
  }

  // ---------------------------------------------------------------- one mutation, and several

  function DecoyGuard(d: Draw): ForbiddenAction {
    ForbiddenAction("customer", "get_customer",
      "Customer identity was not provided in the request; the agent must infer it from the order.",
      map["customer_id" := Str("CUST-" + Decimal(900 + d.decoy))])
  }

  /** The choices are within their ranges; a distractor can always be added to a text. */
  predicate DrawFits(task: Task, k: Kind, d: Draw) {
    && (k.ToolResultNoise? && HasEntities(task.initial) ==> NoiseChoice(task.initial, d))
    && (k.Distractor? ==> d.text.Some?)
    && d.decoy <= 99 && 1 <= d.delta <= 200
  }

  /** One generator: the mutated task, or the task itself marked invalid when the mutation
      does not apply to it. */
  function Mutate(task: Task, k: Kind, d: Draw): Variant
    requires DrawFits(task, k, d)
  {
    var refused := Variant(task, task.id, [k], false);
    match k
    case ToolResultNoise =>
      if !HasEntities(task.initial) then refused
      else Variant(Relabelled(task, k, d).(initial := AddNoise(task.initial, d)), task.id, [k], true)
    case BoundaryRefund =>
      (match FindFullRefund(task)
       case None => refused
       case Some(r) => Variant(Relabelled(Boundary(task, r, r.total + d.delta), k, d), task.id, [k], true))
    case MissingCustomer =>
      if d.text.None? then refused
      else Variant(Relabelled(task, k, d).(input := d.text.value, forbidden := task.forbidden + [DecoyGuard(d)]),
                   task.id, [k], true)
    case _ =>
      if d.text.None? then refused
      else Variant(Relabelled(task, k, d).(input := d.text.value), task.id, [k], true)
  }

  /** A generator of choices that stays within range on every task. */
  ghost predicate Fair(rng: (nat, Task, Kind) -> Draw) {
    forall i: nat, task, k :: DrawFits(task, k, rng(i, task, k))
  }

  /** The tasks a composition goes through: `Chain(…, i)` is the task before step `i`. */
  function Chain(task: Task, kinds: seq<Kind>, rng: (nat, Task, Kind) -> Draw, i: nat): Task
    requires Fair(rng) && i <= |kinds|
  {
    if i == 0 then task
    else
      var before := Chain(task, kinds, rng, i - 1);
      Mutate(before, kinds[i - 1], rng(i - 1, before, kinds[i - 1])).task
  }

  predicate StepApplies(task: Task, kinds: seq<Kind>, rng: (nat, Task, Kind) -> Draw, i: nat)
    requires Fair(rng) && i < |kinds|
  {
    var before := Chain(task, kinds, rng, i);
    Mutate(before, kinds[i], rng(i, before, kinds[i])).valid
  }

  /** `compose_mutations`: applies the mutations in order, and stops at the first that does
      not apply, with the task reached so far. The parent is the task it started from. */
  method ComposeMutations(task: Task, kinds: seq<Kind>, rng: (nat, Task, Kind) -> Draw) returns (v: Variant)
    requires Fair(rng)
    ensures v.parentId == task.id
    ensures v.valid <==> forall i | 0 <= i < |kinds| :: StepApplies(task, kinds, rng, i)
    ensures v.valid ==> v.kinds == kinds && v.task == Chain(task, kinds, rng, |kinds|)
    ensures !v.valid ==>
      && 0 < |v.kinds| <= |kinds| && v.kinds == kinds[..|v.kinds|]
      && !StepApplies(task, kinds, rng, |v.kinds| - 1)
      && v.task == Chain(task, kinds, rng, |v.kinds| - 1)
      && forall i | 0 <= i < |v.kinds| - 1 :: StepApplies(task, kinds, rng, i)
  {
    hide Mutate;
    var current := task;
    var applied: seq<Kind> := [];
    for i := 0 to |kinds|
      invariant applied == kinds[..i] && current == Chain(task, kinds, rng, i)
      invariant forall j | 0 <= j < i :: StepApplies(task, kinds, rng, j)
    {
      var variant := Mutate(current, kinds[i], rng(i, current, kinds[i]));
      applied := applied + [kinds[i]];
      if !variant.valid {
        assert !StepApplies(task, kinds, rng, i);
        return Variant(current, task.id, applied, false);
      }
      current := variant.task;
    }
    return Variant(current, task.id, applied, true);
  }
}
