/** benchmark/validators.py, and what compositions of mutations are worth to it. */
module Validators {
  import opened Json
  import opened Schema
  import opened Judging
  import opened Mutations
  import opened NoiseSimulation
  import Services

  const VALID_OPERATIONS: map<string, set<string>> :=
    map["customer" := {"get_customer"},
        "order" := {"get_order", "cancel_order", "replace_item"},
        "policy" := {"check_refund_policy", "check_replacement_policy"},
        "refund" := {"create_refund"},
        "ticket" := {"update_ticket", "escalate_ticket"}]

  predicate ValidOperation(service: string, operation: string) {
    service in VALID_OPERATIONS && operation in VALID_OPERATIONS[service]
  }

  /** What the validator does: it returns true or false, or raises a TypeError. */
  datatype Answer = Accepts | Refuses | Raises

  /** One id argument, when present, must name an entity; an unhashable one raises. */
  function CheckId(arguments: Dict, key: string, t: Table): Answer {
    if key !in arguments then Accepts
    else if !Services.Hashable(arguments[key]) then Raises
    else if arguments[key].Str? && arguments[key].s in t then Accepts
    else Refuses
  }

  /** Checks are made one after the other, up to the first that does not accept. */
  function Then(first: Answer, second: Answer): Answer {
    if first.Accepts? then second else first
  }

  /** `_referenced_ids_exist`. */
  function CheckIds(arguments: Dict, w: World): Answer {
    Then(CheckId(arguments, "customer_id", w.customers),
         Then(CheckId(arguments, "order_id", w.orders), CheckId(arguments, "ticket_id", w.tickets)))
  }

  function CheckAllIds(expected: seq<ExpectedAction>, w: World): Answer
    decreases expected
  {
    if expected == [] then Accepts else Then(CheckIds(expected[0].arguments, w), CheckAllIds(expected[1..], w))
  }

  /** An id argument, when present, names an entity of the seeded state. */
  predicate Refers(arguments: Dict, key: string, t: Table) {
    key in arguments ==> arguments[key].Str? && arguments[key].s in t
  }

  predicate ReferencedIdsExist(arguments: Dict, w: World) {
    && Refers(arguments, "customer_id", w.customers)
    && Refers(arguments, "order_id", w.orders)
    && Refers(arguments, "ticket_id", w.tickets)
  }

  /** A forbidden action without its reason. */
  function Signature(f: ForbiddenAction): (string, string, Dict) {
    (f.service, f.operation, f.arguments)
  }

  function Signatures(fs: seq<ForbiddenAction>): set<(string, string, Dict)> {
    set f | f in fs :: Signature(f)
  }

  /** Every argument of the forbidden actions can be hashed, so their signatures can be
      collected in a set. */
  predicate SignaturesHashable(fs: seq<ForbiddenAction>) {
    forall f | f in fs :: forall k | k in f.arguments :: Services.Hashable(f.arguments[k])
  }

  predicate ActionsValid(task: Task) {
    && (forall e | e in task.expected :: ValidOperation(e.service, e.operation))
    && (forall f | f in task.forbidden :: ValidOperation(f.service, f.operation))
  }

  predicate IdsExist(task: Task) {
    forall e | e in task.expected :: ReferencedIdsExist(e.arguments, task.initial)
  }

  predicate AllPreserving(kinds: seq<Kind>) {
    forall k | k in kinds :: ContractPreserving(k)
  }

  /** The comparison of a contract-preserving variant with its parent. */
  function CompareWithParent(task: Task, parent: Task): Answer {
    if task.expected != parent.expected then Refuses
    else if !SignaturesHashable(task.forbidden) || !SignaturesHashable(parent.forbidden) then Raises
    else if Signatures(task.forbidden) != Signatures(parent.forbidden) then Refuses
    else Accepts
  }

  /** `validate_variant`. */
  function ValidateVariant(v: Variant, parents: map<string, Task>, existing: set<string>): Answer {
    if v.kinds == [] || v.parentId == "" || v.parentId !in parents || v.task.id in existing || !ActionsValid(v.task)
    then Refuses
    else
      Then(CheckAllIds(v.task.expected, v.task.initial),
           if AllPreserving(v.kinds) then CompareWithParent(v.task, parents[v.parentId]) else Accepts)
  }

  /** The id checks accept exactly the tasks whose expected actions name existing entities. */
  lemma {:induction false} IdsAcceptedIffExist(expected: seq<ExpectedAction>, w: World)
    ensures CheckAllIds(expected, w).Accepts? <==> forall e | e in expected :: ReferencedIdsExist(e.arguments, w)
    decreases expected
  {
    if expected != [] {
      IdsAcceptedIffExist(expected[1..], w);
      CheckedIffExist(expected[0].arguments, w);
      assert expected == [expected[0]] + expected[1..];
      hide CheckIds, ReferencedIdsExist;
    }
  }

  lemma CheckedIffExist(arguments: Dict, w: World)
    ensures CheckIds(arguments, w).Accepts? <==> ReferencedIdsExist(arguments, w)
  {
  }

  // ---------------------------------------------------------------- any variant

  /** The operation is one of the nine. */
  ghost predicate IsOperation(service: string, operation: string) {
    (service, operation) in
      {("customer", "get_customer"), ("order", "get_order"), ("order", "cancel_order"), ("order", "replace_item"),
       ("policy", "check_refund_policy"), ("policy", "check_replacement_policy"), ("refund", "create_refund"),
       ("ticket", "update_ticket"), ("ticket", "escalate_ticket")}
  }

  lemma OperationsAreNine(service: string, operation: string)
    ensures ValidOperation(service, operation) <==> IsOperation(service, operation)
  {
    assert |"customer"| == 8 && |"order"| == 5 && |"policy"| == 6 && |"refund"| == 6 && |"ticket"| == 6;
    assert "policy"[0] == 'p' && "refund"[0] == 'r' && "ticket"[0] == 't';
  }

  /** The variant has a known parent, a new id, and nine-operation actions only. */
  ghost predicate WellNamed(v: Variant, parents: map<string, Task>, existing: set<string>) {
    && v.kinds != [] && v.parentId != "" && v.parentId in parents && v.task.id !in existing
    && (forall e | e in v.task.expected :: IsOperation(e.service, e.operation))
    && (forall f | f in v.task.forbidden :: IsOperation(f.service, f.operation))
  }

  /** An id argument names something in its table, if it is given. */
  ghost predicate Exists(a: Dict, key: string, t: Table) {
    key in a ==> a[key].Str? && a[key].s in t
  }

  ghost predicate AllExist(a: Dict, w: World) {
    Exists(a, "customer_id", w.customers) && Exists(a, "order_id", w.orders) && Exists(a, "ticket_id", w.tickets)
  }

  /** The first id argument that names nothing is a list or an object, which raises. */
  ghost predicate LooksUpUnhashable(a: Dict, w: World) {
    || Unhashable(a, "customer_id")
    || (Exists(a, "customer_id", w.customers) && Unhashable(a, "order_id"))
    || (Exists(a, "customer_id", w.customers) && Exists(a, "order_id", w.orders) && Unhashable(a, "ticket_id"))
  }

  ghost predicate Unhashable(a: Dict, key: string) {
    key in a && (a[key].Arr? || a[key].Obj?)
  }

  ghost predicate RaisesAt(expected: seq<ExpectedAction>, w: World, i: nat) {
    && i < |expected| && LooksUpUnhashable(expected[i].arguments, w)
    && forall j | 0 <= j < i :: AllExist(expected[j].arguments, w)
  }

  lemma OneCheck(a: Dict, w: World)
    ensures CheckIds(a, w).Accepts? <==> AllExist(a, w)
    ensures CheckIds(a, w).Raises? <==> LooksUpUnhashable(a, w)
  {
  }

  lemma {:induction false} AllChecks(expected: seq<ExpectedAction>, w: World)
    ensures CheckAllIds(expected, w).Accepts? <==> forall e | e in expected :: AllExist(e.arguments, w)
    ensures CheckAllIds(expected, w).Raises? <==> exists i: nat :: RaisesAt(expected, w, i)
    decreases expected
  {
    hide CheckIds, AllExist, LooksUpUnhashable;
    if expected != [] {
      var rest := expected[1..];
      OneCheck(expected[0].arguments, w);
      AllChecks(rest, w);
      assert expected == [expected[0]] + rest;
      if i: nat :| RaisesAt(rest, w, i) {
        assert forall j | 0 < j <= i :: expected[j] == rest[j - 1];
        assert AllExist(expected[0].arguments, w) ==> RaisesAt(expected, w, i + 1);
      }
      if i: nat :| RaisesAt(expected, w, i) {
        assert i > 0 ==> RaisesAt(rest, w, i - 1);
      }
      assert LooksUpUnhashable(expected[0].arguments, w) ==> RaisesAt(expected, w, 0);
    }
  }

  /** All mutations of the variant are of the five that must keep the contract. */
  ghost predicate OfThoseFive(kinds: seq<Kind>) {
    forall k | k in kinds :: k in {Typo, Distractor, ConflictingDetail, Paraphrase, ToolResultNoise}
  }

  /** Each forbids what the other does, reasons aside. */
  ghost predicate SameForbidden(a: seq<ForbiddenAction>, b: seq<ForbiddenAction>) {
    Covers(a, b) && Covers(b, a)
  }

  ghost predicate Covers(a: seq<ForbiddenAction>, b: seq<ForbiddenAction>) {
    forall f | f in a :: exists g | g in b ::
      g.service == f.service && g.operation == f.operation && g.arguments == f.arguments
  }

  /** A forbidden action has a list or an object among its arguments. */
  ghost predicate HasUnhashable(fs: seq<ForbiddenAction>) {
    exists f | f in fs :: exists k | k in f.arguments :: f.arguments[k].Arr? || f.arguments[k].Obj?
  }

  lemma SignaturesMean(a: seq<ForbiddenAction>, b: seq<ForbiddenAction>)
    ensures Signatures(a) == Signatures(b) <==> SameForbidden(a, b)
    ensures SignaturesHashable(a) <==> !HasUnhashable(a)
  {
    SignatureCovers(a, b);
    SignatureCovers(b, a);
    hide Covers;
  }

  lemma SignatureCovers(a: seq<ForbiddenAction>, b: seq<ForbiddenAction>)
    ensures Signatures(a) <= Signatures(b) <==> Covers(a, b)
  {
    if Signatures(a) <= Signatures(b) {
      forall f | f in a
        ensures exists g | g in b :: g.service == f.service && g.operation == f.operation && g.arguments == f.arguments
      {
        assert Signature(f) in Signatures(b);
      }
    }
    if Covers(a, b) {
      forall s | s in Signatures(a) ensures s in Signatures(b) {
        var f :| f in a && Signature(f) == s;
        var g :| g in b && g.service == f.service && g.operation == f.operation && g.arguments == f.arguments;
        assert Signature(g) == s;
      }
    }
  }

  /** Main result: what the validator says of an arbitrary variant. It accepts exactly those
      that are well named, refer to existing entities, and, if all their mutations must keep
      the contract, have the parent's expected actions and forbid what it forbids. It raises
      exactly when it comes to look up or to hash a list or an object. */
  lemma VariantAnswer(v: Variant, parents: map<string, Task>, existing: set<string>)
    ensures var answer, named := ValidateVariant(v, parents, existing), WellNamed(v, parents, existing);
      var exist := forall e | e in v.task.expected :: AllExist(e.arguments, v.task.initial);
      && (answer.Accepts? <==>
            && named && exist
            && (OfThoseFive(v.kinds) ==>
                  && v.task.expected == parents[v.parentId].expected
                  && !HasUnhashable(v.task.forbidden) && !HasUnhashable(parents[v.parentId].forbidden)
                  && SameForbidden(v.task.forbidden, parents[v.parentId].forbidden)))
      && (answer.Raises? <==>
            && named
            && ((exists i: nat :: RaisesAt(v.task.expected, v.task.initial, i))
                || (exist && OfThoseFive(v.kinds) && v.task.expected == parents[v.parentId].expected
                    && (HasUnhashable(v.task.forbidden) || HasUnhashable(parents[v.parentId].forbidden)))))
  {
    forall e | e in v.task.expected { OperationsAreNine(e.service, e.operation); }
    forall f | f in v.task.forbidden { OperationsAreNine(f.service, f.operation); }
    AllChecks(v.task.expected, v.task.initial);
    FiveArePreserving(v.kinds);
    if v.parentId in parents {
      SignaturesMean(v.task.forbidden, parents[v.parentId].forbidden);
      SignaturesMean(parents[v.parentId].forbidden, v.task.forbidden);
    }
    hide ValidOperation, IsOperation, CheckAllIds, AllExist, RaisesAt, Signatures, SameForbidden, HasUnhashable,
      SignaturesHashable, OfThoseFive, AllPreserving;
  }

  lemma FiveArePreserving(kinds: seq<Kind>)
    ensures AllPreserving(kinds) <==> OfThoseFive(kinds)
  {
  }

  // ---------------------------------------------------------------- one mutation

  ghost predicate SameIds(a: World, b: World) {
    a.customers.Keys == b.customers.Keys && a.orders.Keys == b.orders.Keys && a.tickets.Keys == b.tickets.Keys
  }

  lemma SameIdsExist(arguments: Dict, a: World, b: World)
    requires SameIds(a, b) && ReferencedIdsExist(arguments, a)
    ensures ReferencedIdsExist(arguments, b)
  {
  }

  lemma NoiseKeepsIds(w: World, d: Draw)
    requires NoiseChoice(w, d)
    ensures SameIds(w, AddNoise(w, d))
  {
  }

  lemma BoundaryKeepsIds(task: Task, r: FullRefund, newTotal: int)
    requires FindFullRefund(task) == Some(r)
    ensures SameIds(task.initial, Boundary(task, r, newTotal).initial)
  {
  }

  lemma NoiseKeepsValid(task: Task, d: Draw)
    requires NoiseChoice(task.initial, d) && IdsExist(task)
    ensures IdsExist(task.(initial := AddNoise(task.initial, d)))
  {
    NoiseKeepsIds(task.initial, d);
    forall e | e in task.expected ensures ReferencedIdsExist(e.arguments, AddNoise(task.initial, d)) {
      SameIdsExist(e.arguments, task.initial, AddNoise(task.initial, d));
    }
  }

  /** Every generator turns a well-formed task into a well-formed one. */
  lemma {:induction false} MutateKeepsValid(task: Task, k: Kind, d: Draw)
    requires DrawFits(task, k, d) && ActionsValid(task) && IdsExist(task)
    ensures ActionsValid(Mutate(task, k, d).task) && IdsExist(Mutate(task, k, d).task)
  {
    hide Boundary, AddNoise, DecoyGuard, ReferencedIdsExist, ValidOperation, IdSuffix, KindName;
    match k
    case ToolResultNoise =>
      if HasEntities(task.initial) {
        NoiseKeepsValid(task, d);
      }
    case BoundaryRefund =>
      var r := FindFullRefund(task);
      hide FindFullRefund;
      if r.Some? {
        BoundaryKeepsValid(task, r.value, r.value.total + d.delta);
      }
    case MissingCustomer =>
      GuardIsValid(d);
    case _ =>
  }

  lemma GuardIsValid(d: Draw)
    ensures ValidOperation(DecoyGuard(d).service, DecoyGuard(d).operation)
  {
  }

  lemma BoundaryKeepsValid(task: Task, r: FullRefund, newTotal: int)
    requires FindFullRefund(task) == Some(r) && ActionsValid(task) && IdsExist(task)
    ensures ActionsValid(Boundary(task, r, newTotal)) && IdsExist(Boundary(task, r, newTotal))
  {
    var v := Boundary(task, r, newTotal);
    forall e | e in v.expected
      ensures ValidOperation(e.service, e.operation) && ReferencedIdsExist(e.arguments, v.initial)
    {
      var i :| 0 <= i < |v.expected| && v.expected[i] == e;
      assert task.expected[i] in task.expected;
      BoundaryKeepsIds(task, r, newTotal);
      SameIdsExist(task.expected[i].arguments, task.initial, v.initial);
      assert |"customer_id"| != |"amount_cents"| && |"order_id"| != |"amount_cents"|;
      assert |"ticket_id"| != |"amount_cents"|;
    }
    forall f | f in v.forbidden ensures ValidOperation(f.service, f.operation) {
      var i :| 0 <= i < |v.forbidden| && v.forbidden[i] == f;
      assert task.forbidden[i] in task.forbidden;
    }
  }

  /** A contract-preserving mutation changes the seeded state by noise at most, and the
      contract not at all. */
  lemma {:induction false} PreservingMutation(task: Task, k: Kind, d: Draw)
    requires DrawFits(task, k, d) && ContractPreserving(k)
    ensures NoisyVersion(NOISE_FIELDS.Keys, task, Mutate(task, k, d).task)
  {
    var all := NOISE_FIELDS.Keys;
    SameWorldAlike(all, task.initial);
    if k.ToolResultNoise? && HasEntities(task.initial) {
      NoiseIsAlike(task.initial, d);
      AlikeWidens({d.field}, all, task.initial, AddNoise(task.initial, d));
    }
  }

  lemma SameWorldAlike(noise: set<string>, w: World)
    ensures WorldAlike(noise, w, w)
  {
    TableSame(noise, w.customers);
    TableSame(noise, w.orders);
    TableSame(noise, w.tickets);
  }

  lemma AlikeWidens(small: set<string>, large: set<string>, w: World, v: World)
    requires small <= large && WorldAlike(small, w, v)
    ensures WorldAlike(large, w, v)
  {
    TableWidens(small, large, w.customers, v.customers);
    TableWidens(small, large, w.orders, v.orders);
    TableWidens(small, large, w.tickets, v.tickets);
  }

  lemma TableWidens(small: set<string>, large: set<string>, s: Table, t: Table)
    requires small <= large && TableAlike(small, s, t)
    ensures TableAlike(large, s, t)
  {
    forall id | id in s ensures RecordAlike(large, s[id], t[id]) {
      assert RecordAlike(small, s[id], t[id]);
    }
  }

  lemma TableAlikeTransitive(noise: set<string>, s: Table, t: Table, u: Table)
    requires TableAlike(noise, s, t) && TableAlike(noise, t, u)
    ensures TableAlike(noise, s, u)
  {
    forall id | id in s ensures RecordAlike(noise, s[id], u[id]) {
      assert RecordAlike(noise, s[id], t[id]) && RecordAlike(noise, t[id], u[id]);
      forall k | k !in noise
        ensures (k in s[id] <==> k in u[id]) && (k in s[id] && k in u[id] ==> s[id][k] == u[id][k])
      {
        assert k in s[id] <==> k in t[id];
      }
    }
  }

  lemma NoisyVersionTransitive(noise: set<string>, a: Task, b: Task, c: Task)
    requires NoisyVersion(noise, a, b) && NoisyVersion(noise, b, c)
    ensures NoisyVersion(noise, a, c)
  {
    TableAlikeTransitive(noise, a.initial.customers, b.initial.customers, c.initial.customers);
    TableAlikeTransitive(noise, a.initial.orders, b.initial.orders, c.initial.orders);
    TableAlikeTransitive(noise, a.initial.tickets, b.initial.tickets, c.initial.tickets);
  }

  // ---------------------------------------------------------------- compositions

  lemma {:induction false} ChainIsNoisy(task: Task, kinds: seq<Kind>, rng: (nat, Task, Kind) -> Draw, i: nat)
    requires Fair(rng) && i <= |kinds| && AllPreserving(kinds)
    ensures NoisyVersion(NOISE_FIELDS.Keys, task, Chain(task, kinds, rng, i))
  {
    if i == 0 {
      SameWorldAlike(NOISE_FIELDS.Keys, task.initial);
    } else {
      hide Mutate, DrawFits, NoisyVersion;
      var before := Chain(task, kinds, rng, i - 1);
      ChainIsNoisy(task, kinds, rng, i - 1);
      PreservingMutation(before, kinds[i - 1], rng(i - 1, before, kinds[i - 1]));
      NoisyVersionTransitive(NOISE_FIELDS.Keys, task, before, Chain(task, kinds, rng, i));
    }
  }

  /** Main result: any composition of contract-preserving mutations, of any length and with
      any draws, judges every call sequence as the original task does, whenever the
      expected final state says nothing about noise fields. */
  lemma {:induction false} CompositionPreservesVerdict(
      task: Task, kinds: seq<Kind>, rng: (nat, Task, Kind) -> Draw, calls: seq<ToolCall>)
    requires Fair(rng) && AllPreserving(kinds)
    requires Silent(NOISE_FIELDS.Keys, task.expectedFinal)
    ensures Verdict(task, calls) <==> Verdict(Chain(task, kinds, rng, |kinds|), calls)
  {
    hide Mutate, DrawFits, Verdict, Silent, NoisyVersion;
    ChainIsNoisy(task, kinds, rng, |kinds|);
    NoisyVerdict(NOISE_FIELDS.Keys, task, Chain(task, kinds, rng, |kinds|), calls);
  }

  lemma {:induction false} ChainIsValid(task: Task, kinds: seq<Kind>, rng: (nat, Task, Kind) -> Draw, i: nat)
    requires Fair(rng) && i <= |kinds| && ActionsValid(task) && IdsExist(task)
    ensures ActionsValid(Chain(task, kinds, rng, i)) && IdsExist(Chain(task, kinds, rng, i))
  {
    if i > 0 {
      hide Mutate, DrawFits, ActionsValid, IdsExist;
      var before := Chain(task, kinds, rng, i - 1);
      ChainIsValid(task, kinds, rng, i - 1);
      MutateKeepsValid(before, kinds[i - 1], rng(i - 1, before, kinds[i - 1]));
    }
  }

  /** What the validator says of a well-formed variant whose contract is that of its parent
      when the mutations promise so. */
  function Expected(task: Task, end: Task, kinds: seq<Kind>, existing: set<string>): Answer {
    if end.id in existing then Refuses
    else if AllPreserving(kinds) && !SignaturesHashable(task.forbidden) then Raises
    else Accepts
  }

  lemma OnlyIdDecides(task: Task, end: Task, kinds: seq<Kind>, parents: map<string, Task>, existing: set<string>)
    requires ActionsValid(end) && IdsExist(end) && kinds != []
    requires task.id != "" && task.id in parents && parents[task.id] == task
    requires AllPreserving(kinds) ==> end.expected == task.expected && end.forbidden == task.forbidden
    ensures ValidateVariant(Variant(end, task.id, kinds, true), parents, existing)
         == Expected(task, end, kinds, existing)
  {
    IdsAcceptedIffExist(end.expected, end.initial);
    hide ActionsValid, CheckAllIds, Signatures, SignaturesHashable, ReferencedIdsExist;
  }

  /** Main result: what the validator says of a successful composition of any registered
      mutations of a well-formed task. It refuses exactly an id that is taken; otherwise it
      raises exactly when all mutations are contract-preserving and some forbidden action has
      a list or an object among its arguments; and otherwise it accepts. */
  lemma {:induction false} CompositionValidates(task: Task, kinds: seq<Kind>, rng: (nat, Task, Kind) -> Draw,
                                                parents: map<string, Task>, existing: set<string>)
    requires Fair(rng) && kinds != [] && ActionsValid(task) && IdsExist(task)
    requires task.id != "" && task.id in parents && parents[task.id] == task
    ensures var v := Variant(Chain(task, kinds, rng, |kinds|), task.id, kinds, true);
      var answer := ValidateVariant(v, parents, existing);
      && (answer.Refuses? <==> v.task.id in existing)
      && (answer.Raises? <==> v.task.id !in existing && AllPreserving(kinds) && !SignaturesHashable(task.forbidden))
  {
    hide Chain, Fair, ActionsValid, IdsExist, WorldAlike, Noise, AllPreserving, ValidateVariant, SignaturesHashable;
    ChainIsValid(task, kinds, rng, |kinds|);
    if AllPreserving(kinds) {
      ChainIsNoisy(task, kinds, rng, |kinds|);
    }
    OnlyIdDecides(task, Chain(task, kinds, rng, |kinds|), kinds, parents, existing);
  }

  /** A well-formed task on which the validator raises. */
  lemma ValidatorCanRaise()
    ensures exists task: Task ::
      && ActionsValid(task) && IdsExist(task)
      && ValidateVariant(Variant(task.(id := "u"), task.id, [Paraphrase], true), map[task.id := task], {}) == Raises
  {
    var guard := ForbiddenAction("refund", "create_refund", "", map["reason" := Arr([])]);
    var task := Task("t", "", World(map[], map[], map[], map[], map[]), [], [guard], map[], []);
    var v := Variant(task.(id := "u"), "t", [Paraphrase], true);
    assert guard in task.forbidden && !Services.Hashable(guard.arguments["reason"]);
    assert !SignaturesHashable(task.forbidden);
    assert ValidOperation("refund", "create_refund");
    assert ActionsValid(task) && ActionsValid(v.task) && AllPreserving(v.kinds);
    hide ActionsValid, SignaturesHashable, AllPreserving, Signatures;
    assert ValidateVariant(v, map["t" := task], {}) == Raises;
  }
}
