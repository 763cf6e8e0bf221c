/** judges/agreement.py: how far several judges agree on one task. */
module Agreement {
  import opened Json

  datatype Label = Pass | Fail | Uncertain

  datatype Report = Report(consensus: Option<Label>, rate: real, disagreement: bool)

  // ---------------------------------------------------------------- counting

  function Count(labels: seq<Label>, l: Label): nat {
    if labels == [] then 0
    else Count(labels[1..], l) + if labels[0] == l then 1 else 0
  }

  /** The labels that occur, in the order they first occur, as the keys of a Counter. */
  function Keys(labels: seq<Label>): seq<Label> {
    if labels == [] then []
    else
      var front, last := Keys(labels[..|labels| - 1]), labels[|labels| - 1];
      if last in front then front else front + [last]
  }

  function Greatest(labels: seq<Label>, keys: seq<Label>): nat {
    if keys == [] then 0
    else
      var rest, n := Greatest(labels, keys[1..]), Count(labels, keys[0]);
      if n >= rest then n else rest
  }

  /** The keys with this count. */
  function Having(labels: seq<Label>, keys: seq<Label>, n: nat): seq<Label> {
    if keys == [] then []
    else (if Count(labels, keys[0]) == n then [keys[0]] else []) + Having(labels, keys[1..], n)
  }

  // ---------------------------------------------------------------- the two measures

  /** `summarize_agreement`; None is the ValueError for no verdicts. */
  function SummarizeAgreement(labels: seq<Label>, threshold: real): Option<Report> {
    if labels == [] then None
    else
      var most := Greatest(labels, Keys(labels));
      var top := Having(labels, Keys(labels), most);
      var rate := most as real / |labels| as real;
      Some(Report(if |top| == 1 then Some(top[0]) else None, rate, rate < threshold))
  }

  /** `itertools.combinations(verdicts, 2)`. */
  function Pairs(labels: seq<Label>): seq<(Label, Label)> {
    if labels == [] then []
    else seq(|labels| - 1, i requires 0 <= i < |labels| - 1 => (labels[0], labels[i + 1])) + Pairs(labels[1..])
  }

  function Agreeing(pairs: seq<(Label, Label)>): nat {
    if pairs == [] then 0
    else (if pairs[0].0 == pairs[0].1 then 1 else 0) + Agreeing(pairs[1..])
  }

  function PairwiseAgreementRate(labels: seq<Label>): real {
    if |labels| < 2 then 1.0
    else
      assert Pairs(labels)[0] == (labels[0], labels[1]);
      Agreeing(Pairs(labels)) as real / |Pairs(labels)| as real
  }

  // ---------------------------------------------------------------- counting pairs

  /** n(n - 1)/2. */
  function Choose2(n: nat): nat {
    n * (n - 1) / 2
  }

  lemma Choose2Next(n: nat)
    ensures Choose2(n + 1) == Choose2(n) + n && 2 * Choose2(n) == n * (n - 1)
  {
    if n > 0 {
      Choose2Next(n - 1);
    }
    assert (n + 1) * n == n * (n - 1) + 2 * n;
  }

  lemma {:induction false} PairCount(labels: seq<Label>)
    ensures |Pairs(labels)| == Choose2(|labels|)
  {
    if labels != [] {
      PairCount(labels[1..]);
      Choose2Next(|labels| - 1);
    }
  }

  lemma {:induction false} AgreeingSplits(a: seq<(Label, Label)>, b: seq<(Label, Label)>)
    ensures Agreeing(a + b) == Agreeing(a) + Agreeing(b)
  {
    if a == [] {
      assert a + b == b;
    } else {
      AgreeingSplits(a[1..], b);
      assert (a + b)[1..] == a[1..] + b;
    }
  }

  lemma {:induction false} AgreeingWithFirst(l: Label, rest: seq<Label>)
    ensures Agreeing(seq(|rest|, i requires 0 <= i < |rest| => (l, rest[i]))) == Count(rest, l)
  {
    var row := seq(|rest|, i requires 0 <= i < |rest| => (l, rest[i]));
    if rest != [] {
      AgreeingWithFirst(l, rest[1..]);
      assert row[1..] == seq(|rest| - 1, i requires 0 <= i < |rest| - 1 => (l, rest[1..][i]));
    }
  }

  function ChooseEach(labels: seq<Label>): nat {
    Choose2(Count(labels, Pass)) + Choose2(Count(labels, Fail)) + Choose2(Count(labels, Uncertain))
  }

  /** Main result: the pairs that agree are, label by label, the pairs among the judges
      that gave it. */
  lemma {:induction false} AgreeingIsChooseEach(labels: seq<Label>)
    ensures Agreeing(Pairs(labels)) == ChooseEach(labels)
  {
    if labels != [] {
      var l, rest := labels[0], labels[1..];
      var row := seq(|rest|, i requires 0 <= i < |rest| => (l, rest[i]));
      assert Pairs(labels) == row + Pairs(rest);
      AgreeingSplits(row, Pairs(rest));
      AgreeingWithFirst(l, rest);
      AgreeingIsChooseEach(rest);
      Choose2Next(Count(rest, l));
      CountsOfFirst(labels);
    }
  }

  /** The pairwise rate of two or more judges, label by label. */
  lemma PairwiseRateMeaning(labels: seq<Label>)
    requires |labels| >= 2
    ensures Choose2(|labels|) > 0
    ensures PairwiseAgreementRate(labels) == ChooseEach(labels) as real / Choose2(|labels|) as real
  {
    assert Pairs(labels)[0] == (labels[0], labels[1]);
    PairCount(labels);
    AgreeingIsChooseEach(labels);
  }

  lemma CountsOfFirst(labels: seq<Label>)
    requires labels != []
    ensures forall l :: Count(labels, l) == Count(labels[1..], l) + if labels[0] == l then 1 else 0
  {
  }

  lemma {:induction false} CountsAddUp(labels: seq<Label>)
    ensures Count(labels, Pass) + Count(labels, Fail) + Count(labels, Uncertain) == |labels|
  {
    if labels != [] {
      CountsAddUp(labels[1..]);
    }
  }

  // ---------------------------------------------------------------- the plurality

  lemma {:induction false} CountIsMultiplicity(labels: seq<Label>, l: Label)
    ensures Count(labels, l) == multiset(labels)[l]
  {
    if labels != [] {
      CountIsMultiplicity(labels[1..], l);
      assert labels == [labels[0]] + labels[1..];
    }
  }

  lemma {:induction false} KeysAreLabels(labels: seq<Label>)
    ensures forall l :: l in Keys(labels) <==> l in labels
    ensures forall i, j | 0 <= i < j < |Keys(labels)| :: Keys(labels)[i] != Keys(labels)[j]
  {
    if labels != [] {
      KeysAreLabels(labels[..|labels| - 1]);
      assert labels == labels[..|labels| - 1] + [labels[|labels| - 1]];
    }
  }

  lemma {:induction false} GreatestIsMax(labels: seq<Label>, keys: seq<Label>)
    ensures forall k | k in keys :: Count(labels, k) <= Greatest(labels, keys)
    ensures keys != [] ==> exists k | k in keys :: Count(labels, k) == Greatest(labels, keys)
  {
    if keys != [] {
      GreatestIsMax(labels, keys[1..]);
      assert keys[0] in keys && forall k | k in keys :: k == keys[0] || k in keys[1..];
      if Count(labels, keys[0]) < Greatest(labels, keys[1..]) {
        assert keys[1..] != [];
        var k :| k in keys[1..] && Count(labels, k) == Greatest(labels, keys[1..]);
        assert k in keys;
      }
    }
  }

  lemma {:induction false} HavingIsFilter(labels: seq<Label>, keys: seq<Label>, n: nat)
    requires forall i, j | 0 <= i < j < |keys| :: keys[i] != keys[j]
    ensures var r := Having(labels, keys, n);
      && (forall l :: l in r <==> l in keys && Count(labels, l) == n)
      && (forall i, j | 0 <= i < j < |r| :: r[i] != r[j])
  {
    if keys != [] {
      HavingIsFilter(labels, keys[1..], n);
      assert keys == [keys[0]] + keys[1..];
    }
  }

  ghost predicate IsMost(labels: seq<Label>, most: nat) {
    && (forall l :: Count(labels, l) <= most)
    && (exists l :: l in labels && Count(labels, l) == most)
  }

  /** `l` was given more often than any other label. */
  ghost predicate Plurality(labels: seq<Label>, l: Label) {
    l in labels && forall other | other != l :: Count(labels, other) < Count(labels, l)
  }

  lemma MostIsMost(labels: seq<Label>)
    requires labels != []
    ensures IsMost(labels, Greatest(labels, Keys(labels)))
  {
    KeysAreLabels(labels);
    GreatestIsMax(labels, Keys(labels));
    assert labels[0] in labels && labels[0] in Keys(labels);
    forall l ensures Count(labels, l) <= Greatest(labels, Keys(labels)) {
      CountIsMultiplicity(labels, l);
      assert l !in labels ==> l !in multiset(labels);
    }
  }

  lemma AllTheSame(top: seq<Label>, l: Label)
    requires l in top && forall k | k in top :: k == l
    requires forall i, j | 0 <= i < j < |top| :: top[i] != top[j]
    ensures top == [l]
  {
    var first, second := top[0], if |top| > 1 then top[1] else l;
    forall i | 0 <= i < |top| ensures top[i] == l {
      assert top[i] in top;
    }
  }

  /** What a summary reports: the share of a most frequent label, and a consensus exactly
      when one label beats all the others. */
  lemma SummaryMeaning(labels: seq<Label>, threshold: real)
    requires labels != []
    ensures var report := SummarizeAgreement(labels, threshold);
      && report.Some?
      && (exists most: nat :: IsMost(labels, most) && report.value.rate == most as real / |labels| as real)
      && (forall l :: report.value.consensus == Some(l) <==> Plurality(labels, l))
      && (report.value.disagreement <==> report.value.rate < threshold)
  {
    var keys := Keys(labels);
    var most := Greatest(labels, keys);
    var top := Having(labels, keys, most);
    MostIsMost(labels);
    KeysAreLabels(labels);
    HavingIsFilter(labels, keys, most);
    var report := SummarizeAgreement(labels, threshold).value;
    forall l ensures report.consensus == Some(l) <==> Plurality(labels, l) {
      if report.consensus == Some(l) {
        assert l in top && top == [l];
        forall other | other != l ensures Count(labels, other) < Count(labels, l) {
          assert other !in top;
          CountIsMultiplicity(labels, other);
          CountIsMultiplicity(labels, l);
        }
      }
      if Plurality(labels, l) {
        var k :| k in labels && Count(labels, k) == most;
        assert k == l;
        AllTheSame(top, l);
      }
    }
  }

  /** Without verdicts there is no summary, and no pair that disagrees. */
  lemma NoVerdicts(threshold: real)
    ensures SummarizeAgreement([], threshold).None? && PairwiseAgreementRate([]) == 1.0
  {
  }

  // ---------------------------------------------------------------- the two measures compared

  lemma Scaled(x: int, y: int, k: nat)
    requires x <= y
    ensures x * k <= y * k
  {
  }

  lemma ChooseAtMost(c: nat, most: nat)
    requires c <= most
    ensures 2 * Choose2(c) <= (most - 1) * c
  {
    Choose2Next(c);
    Scaled(c - 1, most - 1, c);
  }

  lemma ChooseEachAtMost(labels: seq<Label>, most: nat)
    requires IsMost(labels, most)
    ensures 2 * ChooseEach(labels) <= (most - 1) * |labels|
  {
    hide Choose2, Count;
    CountsAddUp(labels);
    var p, f, u := Count(labels, Pass), Count(labels, Fail), Count(labels, Uncertain);
    ChooseAtMost(p, most);
    ChooseAtMost(f, most);
    ChooseAtMost(u, most);
    ThreeParts(most - 1, p, f, u);
  }

  lemma ThreeParts(k: int, a: nat, b: nat, c: nat)
    ensures k * a + k * b + k * c == k * (a + b + c)
  {
  }

  lemma SignOfFactor(x: real, k: real)
    requires k > 0.0 && x * k <= 0.0
    ensures x <= 0.0
  {
  }

  lemma QuotientAtMost(a: nat, b: nat, c: nat, d: nat)
    requires b > 0 && d > 0 && a * d <= c * b
    ensures a as real / b as real <= c as real / d as real
  {
    var x, y, p, q := a as real / b as real, c as real / d as real, b as real, d as real;
    assert x * p == a as real && y * q == c as real;
    assert (x - y) * (p * q) == (x * p) * q - (y * q) * p;
    assert a as real * q == (a * d) as real && c as real * p == (c * b) as real;
    SignOfFactor(x - y, p * q);
  }

  lemma CrossMultiplied(agreeing: nat, pairs: nat, most: nat, n: nat)
    requires n >= 2 && 2 * pairs == n * (n - 1) && 1 <= most <= n
    requires 2 * agreeing <= (most - 1) * n
    ensures agreeing * n <= most * pairs
  {
    assert (most - 1) * n == most * n - n && most * (n - 1) == most * n - most;
    Scaled(2 * agreeing, most * (n - 1), n);
    assert most * (n - 1) * n == most * (n * (n - 1));
    assert most * (2 * pairs) == 2 * (most * pairs);
    assert 2 * agreeing * n == 2 * (agreeing * n);
  }

  lemma MostInRange(labels: seq<Label>, most: nat)
    requires labels != [] && IsMost(labels, most)
    ensures 1 <= most <= |labels|
  {
    CountsAddUp(labels);
    var l :| l in labels && Count(labels, l) == most;
    CountIsMultiplicity(labels, l);
  }

  /** Main result: judges never agree pair by pair more than they agree with the plurality. */
  lemma PairwiseAtMostAgreement(labels: seq<Label>, threshold: real)
    requires labels != []
    ensures PairwiseAgreementRate(labels) <= SummarizeAgreement(labels, threshold).value.rate <= 1.0
  {
    hide Choose2, Count, Greatest, Keys, IsMost, ChooseEach, Having, Agreeing;
    var n, most := |labels|, Greatest(labels, Keys(labels));
    MostIsMost(labels);
    MostInRange(labels, most);
    QuotientAtMost(most, n, 1, 1);
    if n >= 2 {
      PairCount(labels);
      AgreeingIsChooseEach(labels);
      ChooseEachAtMost(labels, most);
      Choose2Next(n);
      assert Pairs(labels)[0] == (labels[0], labels[1]);
      var agreeing, pairs := Agreeing(Pairs(labels)), |Pairs(labels)|;
      CrossMultiplied(agreeing, pairs, most, n);
      QuotientAtMost(agreeing, pairs, most, n);
    } else {
      assert n == 1 && most == 1;
    }
  }

  lemma {:induction false} AllAgree(pairs: seq<(Label, Label)>)
    ensures Agreeing(pairs) <= |pairs|
    ensures Agreeing(pairs) == |pairs| <==> forall p | p in pairs :: p.0 == p.1
  {
    if pairs != [] {
      AllAgree(pairs[1..]);
      assert pairs == [pairs[0]] + pairs[1..];
    }
  }

  ghost predicate Unanimous(labels: seq<Label>) {
    forall i | 0 <= i < |labels| :: labels[i] == labels[0]
  }

  lemma FirstPairs(labels: seq<Label>, i: nat)
    requires 0 < i < |labels|
    ensures (labels[0], labels[i]) in Pairs(labels)
  {
    assert Pairs(labels)[i - 1] == (labels[0], labels[i]);
  }

  lemma {:induction false} PairsOfUnanimous(labels: seq<Label>)
    requires Unanimous(labels)
    ensures forall p | p in Pairs(labels) :: p.0 == p.1
  {
    if labels != [] {
      assert forall i | 0 <= i < |labels[1..]| :: labels[1..][i] == labels[i + 1];
      PairsOfUnanimous(labels[1..]);
    }
  }

  lemma {:induction false} UnanimousIffCount(labels: seq<Label>, l: Label)
    ensures Count(labels, l) <= |labels|
    ensures Count(labels, l) == |labels| <==> forall x | x in labels :: x == l
  {
    if labels == [] {
    } else {
      UnanimousIffCount(labels[1..], l);
      assert labels[0] in labels && forall x | x in labels[1..] :: x in labels;
      assert forall x | x in labels :: x == labels[0] || x in labels[1..];
    }
  }

  lemma RatioIsOne(a: nat, b: nat)
    requires 0 < b
    ensures a as real / b as real == 1.0 <==> a == b
  {
    if a as real / b as real == 1.0 {
      assert a as real / b as real * b as real == a as real;
    }
  }

  lemma MostIsAllIffUnanimous(labels: seq<Label>, most: nat)
    requires labels != [] && IsMost(labels, most)
    ensures most == |labels| <==> Unanimous(labels)
  {
    var top :| top in labels && Count(labels, top) == most;
    UnanimousIffCount(labels, top);
    UnanimousIffCount(labels, labels[0]);
    assert labels[0] in labels;
    if Unanimous(labels) {
      assert forall x | x in labels :: x == labels[0];
    }
    if most == |labels| {
      assert forall i | 0 <= i < |labels| :: labels[i] in labels;
    }
  }

  lemma AllPairsAgreeIffUnanimous(labels: seq<Label>)
    requires |labels| >= 2
    ensures Agreeing(Pairs(labels)) == |Pairs(labels)| <==> Unanimous(labels)
  {
    AllAgree(Pairs(labels));
    if Unanimous(labels) {
      PairsOfUnanimous(labels);
    } else {
      var i :| 0 <= i < |labels| && labels[i] != labels[0];
      FirstPairs(labels, i);
    }
  }

  /** Main result: every pair agrees exactly when the default threshold raises no
      disagreement, and both mean that the judges are unanimous. */
  lemma PairwiseOneIffNoDisagreement(labels: seq<Label>)
    requires labels != []
    ensures PairwiseAgreementRate(labels) == 1.0 <==> !SummarizeAgreement(labels, 1.0).value.disagreement
    ensures PairwiseAgreementRate(labels) == 1.0 <==> Unanimous(labels)
  {
    hide Count, Greatest, Keys, IsMost, Having, Agreeing;
    var n, most := |labels|, Greatest(labels, Keys(labels));
    MostIsMost(labels);
    PairwiseAtMostAgreement(labels, 1.0);
    RatioIsOne(most, n);
    MostIsAllIffUnanimous(labels, most);
    if n >= 2 {
      assert Pairs(labels)[0] == (labels[0], labels[1]);
      AllPairsAgreeIffUnanimous(labels);
      RatioIsOne(Agreeing(Pairs(labels)), |Pairs(labels)|);
    }
  }

  /** Neither measure depends on the order of the verdicts. */
  lemma OrderIrrelevant(labels: seq<Label>, shuffled: seq<Label>, threshold: real)
    requires multiset(labels) == multiset(shuffled)
    ensures SummarizeAgreement(labels, threshold) == SummarizeAgreement(shuffled, threshold)
    ensures PairwiseAgreementRate(labels) == PairwiseAgreementRate(shuffled)
  {
    assert |labels| == |multiset(labels)| == |multiset(shuffled)| == |shuffled|;
    forall l ensures Count(labels, l) == Count(shuffled, l) {
      CountIsMultiplicity(labels, l);
      CountIsMultiplicity(shuffled, l);
    }
    PairCount(labels);
    PairCount(shuffled);
    AgreeingIsChooseEach(labels);
    AgreeingIsChooseEach(shuffled);
    if labels != [] {
      MostIsMost(labels);
      MostIsMost(shuffled);
      forall l ensures l in labels <==> l in shuffled {
        assert l in labels <==> l in multiset(labels);
        assert l in shuffled <==> l in multiset(shuffled);
      }
      assert Greatest(labels, Keys(labels)) == Greatest(shuffled, Keys(shuffled));
      SummaryMeaning(labels, threshold);
      SummaryMeaning(shuffled, threshold);
      forall l ensures Plurality(labels, l) <==> Plurality(shuffled, l) {}
      var a, b := SummarizeAgreement(labels, threshold).value, SummarizeAgreement(shuffled, threshold).value;
      assert a.consensus.Some? ==> Plurality(shuffled, a.consensus.value);
      assert b.consensus.Some? ==> Plurality(labels, b.consensus.value);
    }
  }
}
