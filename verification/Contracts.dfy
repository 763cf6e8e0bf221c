/** judges/contracts.py: deterministic scoring of a run against its task contract. */
module Contracts {
  import opened Json
  import opened Schema

  // ---------------------------------------------------------------- containment

  /** What the recursive state check accepts: every object of `expected` is matched by an
      object that has at least its keys, and everything else is matched by an equal value. */
  predicate Contains(expected: Json, actual: Json) {
    match expected
    case Obj(d) =>
      actual.Obj? && forall k | k in d :: k in actual.fields && Contains(d[k], actual.fields[k])
    case _ => expected == actual
  }

  /** The check of two objects, key by key. */
  lemma ContainsObjects(expected: Dict, actual: Dict)
    ensures Contains(Obj(expected), Obj(actual))
        <==> forall k | k in expected :: k in actual && Contains(expected[k], actual[k])
  {
  }

  lemma {:induction false} ContainsReflexive(a: Json)
    ensures Contains(a, a)
  {
    if a.Obj? {
      forall k | k in a.fields ensures Contains(a.fields[k], a.fields[k]) {
        ContainsReflexive(a.fields[k]);
      }
    }
  }

  lemma {:induction false} ContainsTransitive(a: Json, b: Json, c: Json)
    requires Contains(a, b) && Contains(b, c)
    ensures Contains(a, c)
  {
    if a.Obj? {
      forall k | k in a.fields ensures k in c.fields && Contains(a.fields[k], c.fields[k]) {
        ContainsTransitive(a.fields[k], b.fields[k], c.fields[k]);
      }
    }
  }

  lemma {:induction false} ContainsAntisymmetric(a: Json, b: Json)
    requires Contains(a, b) && Contains(b, a)
    ensures a == b
  {
    if a.Obj? {
      assert a.fields.Keys == b.fields.Keys;
      forall k | k in a.fields ensures a.fields[k] == b.fields[k] {
        ContainsAntisymmetric(a.fields[k], b.fields[k]);
      }
      assert a.fields == b.fields;
    }
  }

  // ---------------------------------------------------------------- the diff

  /** A position in a tree: the keys walked from the root. */
  type Path = seq<string>

  datatype MismatchKind = NotAnObject | MissingKey | Unequal

  datatype Mismatch = Mismatch(path: Path, kind: MismatchKind)

  /** The value found by walking `p`, if every step meets an object with that key. */
  function At(v: Json, p: Path): Option<Json> {
    if p == [] then Some(v)
    else if v.Obj? && p[0] in v.fields then At(v.fields[p[0]], p[1..])
    else None
  }

  /** `m` is a real mismatch: the contract speaks about `m.path`, the actual state has an
      object just above it, and at the path itself the key is missing, the object is not
      an object, or the values differ. Stated on the two whole trees, not by the recursion. */
  ghost predicate Fails(expected: Json, actual: Json, m: Mismatch) {
    var wanted := At(expected, m.path);
    var found := At(actual, m.path);
    wanted.Some? &&
    match m.kind
    case MissingKey =>
      found.None? && m.path != [] &&
      var above := At(actual, m.path[..|m.path| - 1]);
      above.Some? && above.value.Obj?
    case NotAnObject => found.Some? && wanted.value.Obj? && !found.value.Obj?
    case Unequal => found.Some? && !wanted.value.Obj? && wanted.value != found.value
  }

  /** Walking one key further, on both sides at once. */
  lemma FailsBelow(expected: Json, actual: Json, k: string, m: Mismatch)
    requires expected.Obj? && actual.Obj? && k in expected.fields && k in actual.fields
    ensures Fails(expected, actual, Mismatch([k] + m.path, m.kind))
        <==> Fails(expected.fields[k], actual.fields[k], m)
  {
    var p := [k] + m.path;
    assert p[0] == k && p[1..] == m.path;
    assert At(expected, p) == At(expected.fields[k], m.path);
    assert At(actual, p) == At(actual.fields[k], m.path);
    if m.path == [] {
      assert p[..|p| - 1] == [] && At(actual, p[..|p| - 1]) == Some(actual);
    } else {
      var q := p[..|p| - 1];
      assert q[0] == k && q[1..] == m.path[..|m.path| - 1];
      assert At(actual, q) == At(actual.fields[k], m.path[..|m.path| - 1]);
    }
  }

  /** The mismatches of two objects are those below each shared key, and the missing keys. */
  lemma FailsOfObjects(expected: Json, actual: Json, m: Mismatch)
    requires expected.Obj? && actual.Obj?
    ensures Fails(expected, actual, m) <==>
        m.path != [] && m.path[0] in expected.fields &&
        if m.path[0] in actual.fields
        then Fails(expected.fields[m.path[0]], actual.fields[m.path[0]], Mismatch(m.path[1..], m.kind))
        else m == Mismatch([m.path[0]], MissingKey)
  {
    if m.path != [] && m.path[0] in expected.fields {
      var k := m.path[0];
      assert m.path == [k] + m.path[1..];
      if k in actual.fields {
        FailsBelow(expected, actual, k, Mismatch(m.path[1..], m.kind));
      } else if |m.path| == 1 {
        assert m.path[1..] == [] && At(expected, m.path) == Some(expected.fields[k]);
        assert m.path[..0] == [] && At(actual, m.path[..0]) == Some(actual);
      } else {
        var q := m.path[..|m.path| - 1];
        assert q[0] == k;
        assert At(actual, q).None?;
      }
    }
  }

  /** A contained state has no mismatch, and any other state has one. */
  lemma {:induction false} ContainsIffNothingFails(expected: Json, actual: Json)
    ensures Contains(expected, actual) <==> forall m :: !Fails(expected, actual, m)
  {
    if !expected.Obj? || !actual.Obj? {
      var kind := if expected.Obj? then NotAnObject else Unequal;
      assert At(expected, []) == Some(expected) && At(actual, []) == Some(actual);
      assert !Contains(expected, actual) ==> Fails(expected, actual, Mismatch([], kind));
      forall m | Contains(expected, actual) ensures !Fails(expected, actual, m) {
        assert m.path == [] || At(expected, m.path).None?;
      }
    } else {
      forall k | k in expected.fields && k in actual.fields
        ensures Contains(expected.fields[k], actual.fields[k])
            <==> forall m :: !Fails(expected.fields[k], actual.fields[k], m)
      {
        ContainsIffNothingFails(expected.fields[k], actual.fields[k]);
      }
      if Contains(expected, actual) {
        forall m ensures !Fails(expected, actual, m) { FailsOfObjects(expected, actual, m); }
      } else {
        var k :| k in expected.fields
              && !(k in actual.fields && Contains(expected.fields[k], actual.fields[k]));
        if k in actual.fields {
          var m :| Fails(expected.fields[k], actual.fields[k], m);
          FailsBelow(expected, actual, k, m);
        } else {
          FailsOfObjects(expected, actual, Mismatch([k], MissingKey));
          assert Fails(expected, actual, Mismatch([k], MissingKey));
        }
      }
    }
  }

  /** The mismatches of two values, as a set: what the recursive check collects. */
  function Mismatches(expected: Json, actual: Json): set<Mismatch> {
    match expected
    case Obj(d) =>
      if !actual.Obj? then {Mismatch([], NotAnObject)}
      else
        (set k | k in d && k !in actual.fields :: Mismatch([k], MissingKey))
        + (set k, m | k in d && k in actual.fields && m in Mismatches(d[k], actual.fields[k]) ::
             Mismatch([k] + m.path, m.kind))
    case _ => if expected == actual then {} else {Mismatch([], Unequal)}
  }

  /** The recursive check collects exactly the failing positions of the two whole trees. */
  lemma {:induction false} MismatchesFail(expected: Json, actual: Json, m: Mismatch)
    ensures m in Mismatches(expected, actual) <==> Fails(expected, actual, m)
  {
    if expected.Obj? && actual.Obj? {
      FailsOfObjects(expected, actual, m);
      if m.path != [] && m.path[0] in expected.fields {
        var k, rest := m.path[0], Mismatch(m.path[1..], m.kind);
        assert m.path == [k] + m.path[1..] && m == Mismatch([k] + rest.path, rest.kind);
        if k in actual.fields {
          MismatchesFail(expected.fields[k], actual.fields[k], rest);
          BelowKey(expected.fields, actual.fields, k, m);
        } else {
          MissingBelow(expected.fields, actual.fields, k, m);
        }
      } else {
        NoOtherMismatch(expected.fields, actual.fields, m);
      }
    } else {
      assert m.path == [] || At(expected, m.path).None? || At(actual, m.path).None?;
      if expected.Obj? {
        RootMismatch(expected, actual, m);
      } else {
        LeafMismatch(expected, actual, m);
      }
    }
  }

  lemma BelowKey(d: Dict, a: Dict, k: string, m: Mismatch)
    requires k in d && k in a && m.path != [] && m.path[0] == k
    ensures m in Mismatches(Obj(d), Obj(a)) <==> Mismatch(m.path[1..], m.kind) in Mismatches(d[k], a[k])
  {
    var rest := Mismatch(m.path[1..], m.kind);
    assert m.path == [k] + rest.path;
    if m in Mismatches(Obj(d), Obj(a)) {
      assert m !in set j | j in d && j !in a :: Mismatch([j], MissingKey);
      var j, n :| j in d && j in a && n in Mismatches(d[j], a[j]) && m == Mismatch([j] + n.path, n.kind);
      assert j == k && n.path == m.path[1..];
    }
  }

  lemma MissingBelow(d: Dict, a: Dict, k: string, m: Mismatch)
    requires k in d && k !in a && m.path != [] && m.path[0] == k
    ensures m in Mismatches(Obj(d), Obj(a)) <==> m == Mismatch([k], MissingKey)
  {
    if m in Mismatches(Obj(d), Obj(a)) {
      assert m in set j | j in d && j !in a :: Mismatch([j], MissingKey);
    }
  }

  lemma NoOtherMismatch(d: Dict, a: Dict, m: Mismatch)
    requires m.path == [] || m.path[0] !in d
    ensures m !in Mismatches(Obj(d), Obj(a))
  {
  }

  lemma RootMismatch(expected: Json, actual: Json, m: Mismatch)
    requires expected.Obj? && !actual.Obj?
    ensures Fails(expected, actual, m) <==> m == Mismatch([], NotAnObject)
  {
  }

  lemma LeafMismatch(expected: Json, actual: Json, m: Mismatch)
    requires !expected.Obj?
    ensures Fails(expected, actual, m) <==> expected != actual && m == Mismatch([], Unequal)
  {
  }

  ghost predicate Distinct<T>(s: seq<T>) {
    forall i, j | 0 <= i < j < |s| :: s[i] != s[j]
  }

  /** `r` lists mismatches of the two values below `path`, each once. */
  ghost predicate Lists(r: seq<Mismatch>, expected: Json, actual: Json, path: Path) {
    && Distinct(r)
    && (forall m | m in r :: path <= m.path && Fails(expected, actual, Mismatch(m.path[|path|..], m.kind)))
    && (forall m | Fails(expected, actual, m) :: Mismatch(path + m.path, m.kind) in r)
  }

  /** `_diff_final_state`: reports exactly the mismatches, each once. The keys of an object
      are visited in an arbitrary order. */
  method DiffFinalState(expected: Json, actual: Json, path: Path) returns (r: seq<Mismatch>)
    ensures Lists(r, expected, actual, path)
    ensures r == [] <==> Contains(expected, actual)
    decreases expected
  {
    ghost var whole := expected;
    if expected.Obj? {
      if !actual.Obj? {
        r := [Mismatch(path, NotAnObject)];
        ListsRoot(expected, actual, path, NotAnObject);
      } else {
        r := [];
        var keys := expected.fields.Keys;
        while keys != {}
          invariant keys <= expected.fields.Keys
          invariant ListsKeys(r, expected, actual, path, expected.fields.Keys - keys)
        {
          var key :| key in keys;
          var child := path + [key];
          ghost var before, visited := r, expected.fields.Keys - keys;
          if key !in actual.fields {
            r := r + [Mismatch(child, MissingKey)];
          } else {
            var below := DiffFinalState(expected.fields[key], actual.fields[key], child);
            r := r + below;
          }
          ListsOneMoreKey(before, r[|before|..], expected, actual, path, visited, key);
          keys := keys - {key};
          assert expected.fields.Keys - keys == visited + {key};
        }
        ListsAllKeys(r, expected, actual, path);
      }
    } else if expected != actual {
      r := [Mismatch(path, Unequal)];
      ListsRoot(expected, actual, path, Unequal);
    } else {
      r := [];
      forall m ensures !Fails(expected, actual, m) {
        assert m.path == [] || At(expected, m.path).None?;
      }
    }
    ContainsIffNothingFails(expected, actual);
    if r != [] {
      assert r[0] in r;
    }
  }

  lemma ListsRoot(expected: Json, actual: Json, path: Path, kind: MismatchKind)
    requires if expected.Obj? then !actual.Obj? && kind == NotAnObject
             else expected != actual && kind == Unequal
    ensures Lists([Mismatch(path, kind)], expected, actual, path)
  {
    assert path[|path|..] == [] && path + [] == path;
    forall m | Fails(expected, actual, m) ensures m == Mismatch([], kind) {
      assert m.path == [] || At(actual, m.path).None?;
    }
  }

  /** As Lists, for the mismatches that start with a key of `keys`. */
  ghost predicate ListsKeys(r: seq<Mismatch>, expected: Json, actual: Json, path: Path, keys: set<string>) {
    && Distinct(r)
    && (forall m | m in r ::
          path < m.path && m.path[|path|] in keys && Fails(expected, actual, Mismatch(m.path[|path|..], m.kind)))
    && (forall m | Fails(expected, actual, m) && m.path != [] && m.path[0] in keys ::
          Mismatch(path + m.path, m.kind) in r)
  }

  /** What checking one key adds. */
  ghost predicate ListsKey(more: seq<Mismatch>, expected: Json, actual: Json, path: Path, key: string)
    requires expected.Obj? && actual.Obj? && key in expected.fields
  {
    if key in actual.fields
    then Lists(more, expected.fields[key], actual.fields[key], path + [key])
    else more == [Mismatch(path + [key], MissingKey)]
  }

  lemma ListsKeyIsSound(more: seq<Mismatch>, expected: Json, actual: Json, path: Path, key: string, m: Mismatch)
    requires expected.Obj? && actual.Obj? && key in expected.fields
    requires ListsKey(more, expected, actual, path, key) && m in more
    ensures path < m.path && m.path[|path|] == key
    ensures Fails(expected, actual, Mismatch(m.path[|path|..], m.kind))
  {
    assert path + [key] <= m.path;
    var rest := m.path[|path|..];
    assert rest == [key] + m.path[|path| + 1..];
    FailsOfObjects(expected, actual, Mismatch(rest, m.kind));
    assert rest[1..] == m.path[|path + [key]|..];
  }

  lemma ListsKeyIsComplete(more: seq<Mismatch>, expected: Json, actual: Json, path: Path, key: string, m: Mismatch)
    requires expected.Obj? && actual.Obj? && key in expected.fields
    requires ListsKey(more, expected, actual, path, key)
    requires Fails(expected, actual, m) && m.path != [] && m.path[0] == key
    ensures Mismatch(path + m.path, m.kind) in more
  {
    FailsOfObjects(expected, actual, m);
    assert path + m.path == (path + [key]) + m.path[1..];
    if key !in actual.fields {
      assert more[0] == Mismatch(path + m.path, m.kind);
    }
  }

  lemma ListsOneMoreKey(before: seq<Mismatch>, more: seq<Mismatch>, expected: Json, actual: Json,
                        path: Path, keys: set<string>, key: string)
    requires expected.Obj? && actual.Obj? && key in expected.fields && key !in keys
    requires ListsKeys(before, expected, actual, path, keys)
    requires ListsKey(more, expected, actual, path, key)
    ensures ListsKeys(before + more, expected, actual, path, keys + {key})
  {
    var r := before + more;
    forall m | m in r
      ensures path < m.path && m.path[|path|] in keys + {key}
      ensures Fails(expected, actual, Mismatch(m.path[|path|..], m.kind))
    {
      if m in more { ListsKeyIsSound(more, expected, actual, path, key, m); }
    }
    forall m | Fails(expected, actual, m) && m.path != [] && m.path[0] in keys + {key}
      ensures Mismatch(path + m.path, m.kind) in r
    {
      if m.path[0] == key { ListsKeyIsComplete(more, expected, actual, path, key, m); }
    }
    assert Distinct(r) by {
      forall i, j | 0 <= i < j < |r| ensures r[i] != r[j] {
        if i < |before| <= j {
          assert r[i] in before;
          ListsKeyIsSound(more, expected, actual, path, key, r[j]);
        } else if |before| <= i {
          assert r[i] == more[i - |before|] && r[j] == more[j - |before|];
        }
      }
    }
  }

  lemma ListsAllKeys(r: seq<Mismatch>, expected: Json, actual: Json, path: Path)
    requires expected.Obj? && actual.Obj?
    requires ListsKeys(r, expected, actual, path, expected.fields.Keys)
    ensures Lists(r, expected, actual, path)
  {
    forall m | Fails(expected, actual, m) ensures Mismatch(path + m.path, m.kind) in r {
      FailsOfObjects(expected, actual, m);
    }
  }

  // ---------------------------------------------------------------- scoring

  /** `expected.arguments.items() <= call.arguments.items()`. */
  predicate SubDict(part: Dict, whole: Dict) {
    forall k | k in part :: k in whole && whole[k] == part[k]
  }

  predicate Matches(service: string, operation: string, arguments: Dict, call: ToolCall) {
    call.service == service && call.operation == operation && SubDict(arguments, call.arguments)
  }

  predicate Matched(service: string, operation: string, arguments: Dict, calls: seq<ToolCall>) {
    exists i | 0 <= i < |calls| :: Matches(service, operation, arguments, calls[i])
  }

  predicate Met(e: ExpectedAction, calls: seq<ToolCall>) {
    Matched(e.service, e.operation, e.arguments, calls)
  }

  predicate Seen(f: ForbiddenAction, calls: seq<ToolCall>) {
    Matched(f.service, f.operation, f.arguments, calls)
  }

  /** An expected action is met, and a forbidden one seen, exactly when some call is of its
      service and its operation and has all its argument pairs. */
  lemma MatchingMeans(e: ExpectedAction, f: ForbiddenAction, calls: seq<ToolCall>)
    ensures Met(e, calls) <==> exists c | c in calls ::
      c.service == e.service && c.operation == e.operation && e.arguments.Items <= c.arguments.Items
    ensures Seen(f, calls) <==> exists c | c in calls ::
      c.service == f.service && c.operation == f.operation && f.arguments.Items <= c.arguments.Items
  {
    forall c: ToolCall { ItemsMean(e.arguments, c.arguments); }
    forall c: ToolCall { ItemsMean(f.arguments, c.arguments); }
    hide SubDict;
  }

  lemma ItemsMean(part: Dict, whole: Dict)
    ensures SubDict(part, whole) <==> part.Items <= whole.Items
  {
    if part.Items <= whole.Items {
      forall k | k in part ensures k in whole && whole[k] == part[k] {
        assert (k, part[k]) in part.Items;
      }
    }
  }

  /** The contract, as the task schema promises it: every expected call was made, no
      forbidden one was, and the final state contains the expected one. */
  predicate Passes(task: Task, calls: seq<ToolCall>, finalState: Json) {
    && (forall e | e in task.expected :: Met(e, calls))
    && (forall f | f in task.forbidden :: !Seen(f, calls))
    && Contains(Obj(task.expectedFinal), finalState)
  }

  datatype ContractScore = ContractScore(
    passed: bool,
    missing: seq<ExpectedAction>,
    forbiddenSeen: seq<ForbiddenAction>,
    mismatches: seq<Mismatch>)

  function Unmet(expected: seq<ExpectedAction>, calls: seq<ToolCall>): seq<ExpectedAction> {
    if expected == [] then []
    else
      var e := expected[|expected| - 1];
      Unmet(expected[..|expected| - 1], calls) + if Met(e, calls) then [] else [e]
  }

  function SeenOf(forbidden: seq<ForbiddenAction>, calls: seq<ToolCall>): seq<ForbiddenAction> {
    if forbidden == [] then []
    else
      var f := forbidden[|forbidden| - 1];
      SeenOf(forbidden[..|forbidden| - 1], calls) + if Seen(f, calls) then [f] else []
  }

  lemma {:induction false} UnmetMembers(expected: seq<ExpectedAction>, calls: seq<ToolCall>, e: ExpectedAction)
    ensures e in Unmet(expected, calls) <==> e in expected && !Met(e, calls)
  {
    if expected != [] {
      UnmetMembers(expected[..|expected| - 1], calls, e);
    }
  }

  lemma {:induction false} SeenMembers(forbidden: seq<ForbiddenAction>, calls: seq<ToolCall>, f: ForbiddenAction)
    ensures f in SeenOf(forbidden, calls) <==> f in forbidden && Seen(f, calls)
  {
    if forbidden != [] {
      SeenMembers(forbidden[..|forbidden| - 1], calls, f);
    }
  }

  /** The unmet expectations are listed in the order of the task: those of two lists one
      after the other are those of the first and then those of the second. */
  lemma {:induction false} UnmetInOrder(a: seq<ExpectedAction>, b: seq<ExpectedAction>, calls: seq<ToolCall>)
    ensures Unmet(a + b, calls) == Unmet(a, calls) + Unmet(b, calls)
    ensures |a| == 1 ==> Unmet(a, calls) == if Met(a[0], calls) then [] else a
  {
    hide Met;
    if b == [] {
      assert a + b == a;
      assert |a| == 1 ==> a[..0] == [] && a == [a[0]];
    } else {
      var n := |b| - 1;
      UnmetInOrder(a, b[..n], calls);
      var last := if Met(b[n], calls) then [] else [b[n]];
      assert (a + b)[..|a + b| - 1] == a + b[..n] && Unmet(a + b, calls) == Unmet(a + b[..n], calls) + last;
      assert Unmet(b, calls) == Unmet(b[..n], calls) + last;
      assert |a| == 1 ==> a[..0] == [] && a == [a[0]];
    }
  }

  /** So are the forbidden actions that were seen. */
  lemma {:induction false} SeenInOrder(a: seq<ForbiddenAction>, b: seq<ForbiddenAction>, calls: seq<ToolCall>)
    ensures SeenOf(a + b, calls) == SeenOf(a, calls) + SeenOf(b, calls)
    ensures |a| == 1 ==> SeenOf(a, calls) == if Seen(a[0], calls) then a else []
  {
    hide Seen;
    if b == [] {
      assert a + b == a;
      assert |a| == 1 ==> a[..0] == [] && a == [a[0]];
    } else {
      var n := |b| - 1;
      SeenInOrder(a, b[..n], calls);
      var last := if Seen(b[n], calls) then [b[n]] else [];
      assert (a + b)[..|a + b| - 1] == a + b[..n] && SeenOf(a + b, calls) == SeenOf(a + b[..n], calls) + last;
      assert SeenOf(b, calls) == SeenOf(b[..n], calls) + last;
      assert |a| == 1 ==> a[..0] == [] && a == [a[0]];
    }
  }

  /** `score_actions`: the evidence lists are exact, and the verdict is the contract. */
  method ScoreActions(task: Task, calls: seq<ToolCall>, finalState: Json) returns (score: ContractScore)
    ensures score.missing == Unmet(task.expected, calls)
    ensures score.forbiddenSeen == SeenOf(task.forbidden, calls)
    ensures Lists(score.mismatches, Obj(task.expectedFinal), finalState, [])
    ensures forall m :: m in score.mismatches <==> m in Mismatches(Obj(task.expectedFinal), finalState)
    ensures score.passed <==> Passes(task, calls, finalState)
  {
    hide Fails, Mismatches, Contains, Lists, Met, Seen;
    var missing: seq<ExpectedAction> := [];
    for i := 0 to |task.expected|
      invariant missing == Unmet(task.expected[..i], calls)
    {
      assert task.expected[..i + 1][..i] == task.expected[..i];
      if !Met(task.expected[i], calls) {
        missing := missing + [task.expected[i]];
      }
    }
    var forbiddenSeen: seq<ForbiddenAction> := [];
    for i := 0 to |task.forbidden|
      invariant forbiddenSeen == SeenOf(task.forbidden[..i], calls)
    {
      assert task.forbidden[..i + 1][..i] == task.forbidden[..i];
      if Seen(task.forbidden[i], calls) {
        forbiddenSeen := forbiddenSeen + [task.forbidden[i]];
      }
    }
    assert task.expected[..|task.expected|] == task.expected;
    assert task.forbidden[..|task.forbidden|] == task.forbidden;
    var mismatches := DiffFinalState(Obj(task.expectedFinal), finalState, []);
    score := ContractScore(missing == [] && forbiddenSeen == [] && mismatches == [],
                           missing, forbiddenSeen, mismatches);
    EvidenceDecides(task, calls);
    ListsIsMismatches(mismatches, Obj(task.expectedFinal), finalState);
  }

  lemma ListsIsMismatches(r: seq<Mismatch>, expected: Json, actual: Json)
    requires Lists(r, expected, actual, [])
    ensures forall m :: m in r <==> m in Mismatches(expected, actual)
  {
    hide Fails, Mismatches;
    forall m ensures m in r <==> m in Mismatches(expected, actual) {
      MismatchesFail(expected, actual, m);
      assert m.path[0..] == m.path && [] + m.path == m.path;
    }
  }

  lemma EvidenceDecides(task: Task, calls: seq<ToolCall>)
    ensures Unmet(task.expected, calls) == [] <==> forall e | e in task.expected :: Met(e, calls)
    ensures SeenOf(task.forbidden, calls) == [] <==> forall f | f in task.forbidden :: !Seen(f, calls)
  {
    var unmet, seen := Unmet(task.expected, calls), SeenOf(task.forbidden, calls);
    forall e { UnmetMembers(task.expected, calls, e); }
    forall f { SeenMembers(task.forbidden, calls, f); }
    assert unmet != [] ==> unmet[0] in unmet;
    assert seen != [] ==> seen[0] in seen;
  }

  /** A pass survives any enlargement of the final state that keeps what it contained. */
  lemma PassSurvivesEnlargement(task: Task, calls: seq<ToolCall>, finalState: Json, larger: Json)
    requires Passes(task, calls, finalState) && Contains(finalState, larger)
    ensures Passes(task, calls, larger)
  {
    ContainsTransitive(Obj(task.expectedFinal), finalState, larger);
  }
}
