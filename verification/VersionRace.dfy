/** Concurrent calls of `create_agent_version` (backend/app/postgres_store.py): look the
    content up, insert it if it was not there, and look it up again if the insert was
    refused. Nothing is locked; only the content hash is unique. */
module VersionRace {
  import opened TraceModel
  import opened Store

  /** Where a call is: about to look the content up, about to insert it, about to look it
      up again after a refused insert, or finished, with the id it returned or with the
      exception that the second look-up raises when it finds nothing. */
  datatype Call = Asking(payload: AgentVersion) | Missed(payload: AgentVersion) | Refused(payload: AgentVersion)
                | Answered(payload: AgentVersion, id: Id) | Broken(payload: AgentVersion)

  datatype State = State(table: map<Id, AgentVersion>, calls: seq<Call>)

  ghost predicate Init(s: State) {
    s.table == map[] && s.calls == []
  }

  ghost predicate Has(table: map<Id, AgentVersion>, id: Id, content: Content) {
    id in table && table[id].content == content
  }

  ghost predicate Calls(s: State, t: State, payload: AgentVersion) {
    t == s.(calls := s.calls + [Asking(payload)])
  }

  /** The first look-up. */
  ghost predicate LooksUp(s: State, t: State, c: nat) {
    && c < |s.calls| && s.calls[c].Asking?
    && var p := s.calls[c].payload;
       || (exists id :: Has(s.table, id, p.content) && t == s.(calls := s.calls[c := Answered(p, id)]))
       || ((forall id :: !Has(s.table, id, p.content)) && t == s.(calls := s.calls[c := Missed(p)]))
  }

  /** The insert, under a fresh id; the unique content hash refuses a second row. */
  ghost predicate Inserts(s: State, t: State, c: nat, id: Id) {
    && c < |s.calls| && s.calls[c].Missed? && id !in s.table
    && var p := s.calls[c].payload;
       if exists other :: Has(s.table, other, p.content)
       then t == s.(calls := s.calls[c := Refused(p)])
       else t == State(s.table[id := p], s.calls[c := Answered(p, id)])
  }

  /** The second look-up. */
  ghost predicate Rereads(s: State, t: State, c: nat) {
    && c < |s.calls| && s.calls[c].Refused?
    && var p := s.calls[c].payload;
       || (exists id :: Has(s.table, id, p.content) && t == s.(calls := s.calls[c := Answered(p, id)]))
       || ((forall id :: !Has(s.table, id, p.content)) && t == s.(calls := s.calls[c := Broken(p)]))
  }

  ghost predicate Next(s: State, t: State) {
    || (exists payload :: Calls(s, t, payload))
    || (exists c, id :: Inserts(s, t, c, id))
    || (exists c :: LooksUp(s, t, c) || Rereads(s, t, c))
  }

  /** Contents are unique, an answer is the id of its content, and a refusal means that the
      content is there. */
  ghost predicate Inv(s: State) {
    && (forall i, j | i in s.table && j in s.table :: s.table[i].content == s.table[j].content ==> i == j)
    && (forall c | 0 <= c < |s.calls| :: CallFits(s, s.calls[c]))
  }

  ghost predicate CallFits(s: State, call: Call) {
    match call
    case Answered(p, id) => Has(s.table, id, p.content)
    case Refused(p) => exists id :: Has(s.table, id, p.content)
    case Broken(_) => false
    case _ => true
  }

  lemma CallStillFits(s: State, t: State, call: Call)
    requires CallFits(s, call) && forall id | id in s.table :: id in t.table && t.table[id] == s.table[id]
    ensures CallFits(t, call)
  {
    if call.Refused? {
      var id :| Has(s.table, id, call.payload.content);
      assert Has(t.table, id, call.payload.content);
    }
  }

  lemma StepKeeps(s: State, t: State)
    requires Inv(s) && Next(s, t)
    ensures Inv(t)
  {
    if c, id :| Inserts(s, t, c, id) {
      InsertKeeps(s, t, c, id);
    } else {
      forall c | 0 <= c < |t.calls| ensures CallFits(t, t.calls[c]) {
        if c < |s.calls| && t.calls[c] == s.calls[c] {
          CallStillFits(s, t, s.calls[c]);
        } else if c < |s.calls| {
          assert CallFits(s, s.calls[c]);
        }
      }
    }
  }

  lemma InsertKeeps(s: State, t: State, c: nat, id: Id)
    requires Inv(s) && Inserts(s, t, c, id)
    ensures Inv(t)
  {
    var p := s.calls[c].payload;
    forall i, j | i in t.table && j in t.table && t.table[i].content == t.table[j].content ensures i == j {
      assert i in s.table ==> Has(s.table, i, s.table[i].content);
      assert j in s.table ==> Has(s.table, j, s.table[j].content);
    }
    forall d | 0 <= d < |t.calls| ensures CallFits(t, t.calls[d]) {
      if d != c {
        CallStillFits(s, t, s.calls[d]);
      }
    }
  }

  ghost predicate IsRun(run: seq<State>) {
    |run| > 0 && Init(run[0]) && forall i | 0 < i < |run| :: Next(run[i - 1], run[i])
  }

  lemma {:induction false} RunKeeps(run: seq<State>, i: nat)
    requires IsRun(run) && i < |run|
    ensures Inv(run[i])
  {
    if i > 0 {
      RunKeeps(run, i - 1);
      StepKeeps(run[i - 1], run[i]);
    }
  }

  /** Main result: however the calls interleave, no call breaks, no content gets two
      versions, and two calls are answered with the same version exactly when they asked
      for the same content. */
  lemma CreationIsIdempotent(run: seq<State>, i: nat, b: nat, c: nat)
    requires IsRun(run) && i < |run| && b < |run[i].calls| && c < |run[i].calls|
    ensures !run[i].calls[b].Broken?
    ensures run[i].calls[b].Answered? && run[i].calls[c].Answered? ==>
        && run[i].calls[b].id in run[i].table
        && (run[i].calls[b].id == run[i].calls[c].id
            <==> run[i].calls[b].payload.content == run[i].calls[c].payload.content)
  {
    RunKeeps(run, i);
    assert CallFits(run[i], run[i].calls[b]) && CallFits(run[i], run[i].calls[c]);
  }

  /** The states of a race of two calls for the same content. */
  function Racing(p: AgentVersion, i: nat): State {
    var none: map<Id, AgentVersion>, one: map<Id, AgentVersion> := map[], map[0 := p];
    match i
    case 0 => State(none, [])
    case 1 => State(none, [Asking(p)])
    case 2 => State(none, [Asking(p), Asking(p)])
    case 3 => State(none, [Missed(p), Asking(p)])
    case 4 => State(none, [Missed(p), Missed(p)])
    case 5 => State(one, [Answered(p, 0), Missed(p)])
    case 6 => State(one, [Answered(p, 0), Refused(p)])
    case _ => State(one, [Answered(p, 0), Answered(p, 0)])
  }

  lemma RaceSteps(p: AgentVersion, i: nat)
    requires i < 7
    ensures Next(Racing(p, i), Racing(p, i + 1))
  {
    var s, t := Racing(p, i), Racing(p, i + 1);
    match i
    case 0 => assert Calls(s, t, p);
    case 1 => assert Calls(s, t, p);
    case 2 => assert LooksUp(s, t, 0);
    case 3 => assert LooksUp(s, t, 1);
    case 4 => assert Inserts(s, t, 0, 0);
    case 5 =>
      assert Has(s.table, 0, p.content);
      assert Inserts(s, t, 1, 1);
    case 6 =>
      assert Has(s.table, 0, p.content);
      assert Rereads(s, t, 1);
  }

  /** The race happens: two calls for the same content both find nothing, one inserts it, and
      the other, refused, answers with the version the first one made. */
  lemma RaceHappens(p: AgentVersion)
    ensures exists run: seq<State> | IsRun(run) ::
      && run[|run| - 1].calls == [Answered(p, 0), Answered(p, 0)]
      && exists i | 0 <= i < |run| :: run[i].calls == [Answered(p, 0), Refused(p)]
  {
    hide Next;
    var run := seq(8, i requires 0 <= i < 8 => Racing(p, i));
    forall i | 0 <= i < 7 { RaceSteps(p, i); }
    forall i | 0 < i < |run| ensures Next(run[i - 1], run[i]) {
      assert run[i - 1] == Racing(p, i - 1) && run[i] == Racing(p, i - 1 + 1);
    }
    assert run[6].calls == [Answered(p, 0), Refused(p)];
    assert IsRun(run);
  }
}
