// The deterministic candidate order (src/fabric_evaluate.cpp, ranks_ahead).

module Ranking {
  import opened Base
  import opened Metrics
  import opened Scoring
  import opened Evidence
  import opened Outcomes

  // One candidate's evaluation: the gate it passed or failed, and its merit.
  datatype Scored = Scored(
    path: Id, eligible: bool, rejection: Suppression, refusal: Outcome, quality: Quality,
    score: Option<u64>, metrics: seq<MetricValue>, priority: u32, authority: u64)

  function ScoreOf(x: Scored): u64 { if x.score.Some? then x.score.value else 0 }

  // Lexicographic objective: the first differing term decides; 1 when a is
  // better, -1 when b is, 0 when the compared terms tie.
  function CompareTerms(terms: nat, a: seq<MetricValue>, b: seq<MetricValue>): int
  {
    if terms == 0 || a == [] || b == [] || a[0].NoMetric? || b[0].NoMetric? then 0
    else if a[0].value != b[0].value then (if Better(a[0].kind, a[0].value, b[0].value) then 1 else -1)
    else CompareTerms(terms - 1, a[1..], b[1..])
  }

  function CompareObjective(a: Scored, b: Scored, objective: Objective): int
  {
    if objective.mode.WeightedScore? then
      (if ScoreOf(a) > ScoreOf(b) then 1 else if ScoreOf(a) < ScoreOf(b) then -1 else 0)
    else CompareTerms(|objective.terms|, a.metrics, b.metrics)
  }

  predicate RanksAhead(a: Scored, b: Scored, objective: Objective)
  {
    if a.eligible != b.eligible then a.eligible
    else if a.priority != b.priority then a.priority > b.priority
    else if a.quality.Rank() != b.quality.Rank() then a.quality.Rank() > b.quality.Rank()
    else if CompareObjective(a, b, objective) != 0 then CompareObjective(a, b, objective) > 0
    else Less(a.path, b.path)
  }

  // Stable insertion from the left, as a stable sort leaves it.
  function InsertRanked(x: Scored, s: seq<Scored>, objective: Objective): seq<Scored>
  {
    if s == [] || !RanksAhead(x, s[|s| - 1], objective) then s + [x]
    else InsertRanked(x, s[..|s| - 1], objective) + [s[|s| - 1]]
  }

  function Ranked(s: seq<Scored>, objective: Objective): seq<Scored>
  {
    if s == [] then [] else InsertRanked(s[|s| - 1], Ranked(s[..|s| - 1], objective), objective)
  }

  function FirstEligible(ranking: seq<Scored>): Option<Scored>
  {
    if ranking == [] then None
    else if ranking[0].eligible then Some(ranking[0])
    else FirstEligible(ranking[1..])
  }

  // ------------------------------------------------------------------------
  // Strict total order
  // ------------------------------------------------------------------------

  // What the eligibility pass produces: an eligible candidate carries one
  // reading per objective term, in term order; in lexicographic mode a
  // rejected one carries none.
  ghost predicate Shaped(x: Scored, objective: Objective)
  {
    && (x.eligible ==> Aligned(x.metrics, objective.terms))
    && (!x.eligible && objective.mode.Lexicographic? ==> x.metrics == [])
  }

  ghost predicate Aligned(m: seq<MetricValue>, terms: seq<ObjectiveTerm>)
  {
    |m| == |terms| && forall i :: 0 <= i < |m| ==> m[i].Metric? && m[i].kind == terms[i].kind
  }

  ghost predicate AllShaped(s: seq<Scored>, objective: Objective)
  {
    && (forall i :: 0 <= i < |s| ==> Shaped(s[i], objective))
    && (forall i, j :: 0 <= i < j < |s| ==> s[i].path != s[j].path)
  }

  lemma {:induction false} TermsAntisymmetric(terms: seq<ObjectiveTerm>, a: seq<MetricValue>, b: seq<MetricValue>)
    requires Aligned(a, terms) && Aligned(b, terms)
    ensures CompareTerms(|terms|, a, b) == -CompareTerms(|terms|, b, a)
  {
    if terms != [] {
      TermsAntisymmetric(terms[1..], a[1..], b[1..]);
    }
  }

  lemma {:induction false} TermsTransitive(
    terms: seq<ObjectiveTerm>, a: seq<MetricValue>, b: seq<MetricValue>, c: seq<MetricValue>)
    requires Aligned(a, terms) && Aligned(b, terms) && Aligned(c, terms)
    requires CompareTerms(|terms|, a, b) >= 0 && CompareTerms(|terms|, b, c) >= 0
    ensures CompareTerms(|terms|, a, c) >= 0
    ensures CompareTerms(|terms|, a, c) == 0 <==>
            CompareTerms(|terms|, a, b) == 0 && CompareTerms(|terms|, b, c) == 0
  {
    if terms != [] && a[0].value == b[0].value == c[0].value {
      TermsTransitive(terms[1..], a[1..], b[1..], c[1..]);
    }
  }

  lemma ObjectiveAntisymmetric(a: Scored, b: Scored, objective: Objective)
    requires Shaped(a, objective) && Shaped(b, objective) && a.eligible == b.eligible
    ensures CompareObjective(a, b, objective) == -CompareObjective(b, a, objective)
  {
    if objective.mode.Lexicographic? && a.eligible {
      TermsAntisymmetric(objective.terms, a.metrics, b.metrics);
    }
  }

  lemma ObjectiveTransitive(a: Scored, b: Scored, c: Scored, objective: Objective)
    requires Shaped(a, objective) && Shaped(b, objective) && Shaped(c, objective)
    requires a.eligible == b.eligible == c.eligible
    requires CompareObjective(a, b, objective) >= 0 && CompareObjective(b, c, objective) >= 0
    ensures CompareObjective(a, c, objective) >= 0
    ensures CompareObjective(a, c, objective) == 0 <==>
            CompareObjective(a, b, objective) == 0 && CompareObjective(b, c, objective) == 0
  {
    if objective.mode.Lexicographic? && a.eligible {
      TermsTransitive(objective.terms, a.metrics, b.metrics, c.metrics);
    }
  }

  // In both objective modes the order is strict and total on what the
  // eligibility pass produces for distinct paths.
  lemma RankingIsTotal(a: Scored, b: Scored, objective: Objective)
    requires Shaped(a, objective) && Shaped(b, objective)
    ensures !(RanksAhead(a, b, objective) && RanksAhead(b, a, objective))
    ensures a.path != b.path ==> RanksAhead(a, b, objective) || RanksAhead(b, a, objective)
    ensures a.path == b.path && a.eligible == b.eligible && RanksAhead(a, b, objective) ==> a != b
  {
    LessTotal(a.path, b.path);
    LessIrreflexive(a.path);
    if Less(a.path, b.path) {
      LessAsymmetric(a.path, b.path);
    }
    if a.eligible == b.eligible {
      ObjectiveAntisymmetric(a, b, objective);
    }
  }

  lemma RankingTransitive(a: Scored, b: Scored, c: Scored, objective: Objective)
    requires Shaped(a, objective) && Shaped(b, objective) && Shaped(c, objective)
    requires RanksAhead(a, b, objective) && RanksAhead(b, c, objective)
    ensures RanksAhead(a, c, objective)
  {
    if a.eligible == b.eligible == c.eligible {
      if CompareObjective(a, b, objective) >= 0 && CompareObjective(b, c, objective) >= 0 {
        ObjectiveTransitive(a, b, c, objective);
      }
      if Less(a.path, b.path) && Less(b.path, c.path) {
        LessTransitive(a.path, b.path, c.path);
      }
    }
  }

  // ------------------------------------------------------------------------
  // Arrival-order independence
  // ------------------------------------------------------------------------

  ghost predicate InOrder(s: seq<Scored>, objective: Objective)
  {
    forall i, j :: 0 <= i < j < |s| ==> RanksAhead(s[i], s[j], objective)
  }

  lemma {:induction false} InsertKeepsAll(x: Scored, s: seq<Scored>, objective: Objective)
    ensures multiset(InsertRanked(x, s, objective)) == multiset(s) + multiset{x}
  {
    if s == [] || !RanksAhead(x, s[|s| - 1], objective) {
    } else {
      InsertKeepsAll(x, s[..|s| - 1], objective);
      assert s == s[..|s| - 1] + [s[|s| - 1]];
    }
  }

  ghost predicate AllAhead(s: seq<Scored>, x: Scored, objective: Objective)
  {
    forall y :: y in multiset(s) ==> RanksAhead(y, x, objective)
  }

  lemma {:induction false} InsertInOrder(x: Scored, s: seq<Scored>, objective: Objective)
    requires InOrder(s, objective) && AllShaped(s + [x], objective)
    ensures InOrder(InsertRanked(x, s, objective), objective)
  {
    if s == [] {
    } else {
      var init, last := s[..|s| - 1], s[|s| - 1];
      assert (s + [x])[|s| - 1] == last && (s + [x])[|s|] == x;
      RankingIsTotal(x, last, objective);
      if RanksAhead(x, last, objective) {
        AllShapedSkips(init, last, x, s, objective);
        InsertInOrder(x, init, objective);
        InsertKeepsAll(x, init, objective);
        assert forall y :: y in multiset(init) ==> y in init;
        assert AllAhead(InsertRanked(x, init, objective), last, objective);
        AppendInOrder(InsertRanked(x, init, objective), last, objective);
      } else {
        forall i | 0 <= i < |s|
          ensures RanksAhead(s[i], x, objective)
        {
          if i < |s| - 1 {
            assert (s + [x])[i] == s[i];
            RankingTransitive(s[i], last, x, objective);
          }
        }
      }
    }
  }

  lemma AllShapedSkips(init: seq<Scored>, last: Scored, x: Scored, s: seq<Scored>, objective: Objective)
    requires s == init + [last] && AllShaped(s + [x], objective)
    ensures AllShaped(init + [x], objective) && AllShaped(s, objective)
  {
    var all := s + [x];
    assert forall i :: 0 <= i < |init| ==> init[i] == all[i];
    assert all[|init| + 1] == x;
    assert forall i :: 0 <= i < |s| ==> s[i] == all[i];
  }

  lemma AppendInOrder(s: seq<Scored>, x: Scored, objective: Objective)
    requires InOrder(s, objective) && AllAhead(s, x, objective)
    ensures InOrder(s + [x], objective)
  {
    assert forall i :: 0 <= i < |s| ==> s[i] in multiset(s);
  }

  lemma {:induction false} RankedInOrder(s: seq<Scored>, objective: Objective)
    requires AllShaped(s, objective)
    ensures InOrder(Ranked(s, objective), objective)
    ensures multiset(Ranked(s, objective)) == multiset(s)
  {
    if s != [] {
      var init, x := s[..|s| - 1], s[|s| - 1];
      assert s == init + [x];
      RankedInOrder(init, objective);
      PermutationShaped(init, Ranked(init, objective), x, objective);
      InsertInOrder(x, Ranked(init, objective), objective);
      InsertKeepsAll(x, Ranked(init, objective), objective);
    }
  }

  // Distinct paths are a property of the multiset, so a reordering keeps them.
  lemma PermutationShaped(a: seq<Scored>, b: seq<Scored>, x: Scored, objective: Objective)
    requires AllShaped(a + [x], objective) && multiset(a) == multiset(b)
    ensures AllShaped(b + [x], objective)
  {
    var from, to := a + [x], b + [x];
    assert multiset(from) == multiset(to);
    forall i | 0 <= i < |to|
      ensures Shaped(to[i], objective)
    {
      assert to[i] in multiset(to);
      assert to[i] in from;
    }
    forall i, j | 0 <= i < j < |to|
      ensures to[i].path != to[j].path
    {
      if to[i].path == to[j].path {
        DistinctInMultiset(from, to, i, j);
      }
    }
  }

  lemma DistinctInMultiset(from: seq<Scored>, to: seq<Scored>, i: nat, j: nat)
    requires multiset(from) == multiset(to) && i < j < |to|
    requires forall k, l :: 0 <= k < l < |from| ==> from[k].path != from[l].path
    ensures to[i].path != to[j].path
  {
    if to[i] == to[j] {
      MultiplicityOfTwo(to, i, j);
      MultiplicityOfDistinct(from, to[i]);
    } else {
      assert to[i] in multiset(to) && to[j] in multiset(to);
      assert to[i] in from && to[j] in from;
    }
  }

  lemma MultiplicityOfTwo(s: seq<Scored>, i: nat, j: nat)
    requires i < j < |s| && s[i] == s[j]
    ensures multiset(s)[s[i]] >= 2
  {
    assert s == s[..i] + [s[i]] + s[i + 1..j] + [s[j]] + s[j + 1..];
  }

  lemma {:induction false} MultiplicityOfDistinct(s: seq<Scored>, x: Scored)
    requires forall k, l :: 0 <= k < l < |s| ==> s[k].path != s[l].path
    ensures multiset(s)[x] <= 1
  {
    if s != [] {
      MultiplicityOfDistinct(s[1..], x);
      assert s == [s[0]] + s[1..];
      if s[0] == x {
        assert forall k :: 0 <= k < |s[1..]| ==> s[1..][k] == s[k + 1];
        assert x !in s[1..];
        assert multiset(s[1..])[x] == 0;
      }
    }
  }

  ghost predicate Strict(s: seq<Scored>, objective: Objective)
  {
    forall x, y :: x in s && y in s ==> !(RanksAhead(x, y, objective) && RanksAhead(y, x, objective))
  }

  lemma HeadLeads(s: seq<Scored>, x: Scored, objective: Objective)
    requires InOrder(s, objective) && x in s && x != s[0]
    ensures RanksAhead(s[0], x, objective)
  {
    var i :| 0 <= i < |s| && s[i] == x;
    assert 0 < i;
  }

  lemma SameHead(a: seq<Scored>, b: seq<Scored>, objective: Objective)
    requires InOrder(a, objective) && InOrder(b, objective) && Strict(a, objective)
    requires multiset(a) == multiset(b) && a != [] && b != []
    ensures a[0] == b[0]
  {
    assert a[0] in multiset(b) && b[0] in multiset(a);
    assert a[0] in b && b[0] in a;
    if a[0] != b[0] {
      HeadLeads(b, a[0], objective);
      HeadLeads(a, b[0], objective);
    }
  }

  lemma {:induction false} OrderIsUnique(a: seq<Scored>, b: seq<Scored>, objective: Objective)
    requires InOrder(a, objective) && InOrder(b, objective) && Strict(a, objective)
    requires multiset(a) == multiset(b)
    ensures a == b
  {
    hide InOrder, Strict, RanksAhead;
    assert |a| == |multiset(a)| && |b| == |multiset(b)|;
    if a != [] {
      SameHead(a, b, objective);
      TailFacts(a, objective);
      TailFacts(b, objective);
      OrderIsUnique(a[1..], b[1..], objective);
      assert a == [a[0]] + a[1..] && b == [b[0]] + b[1..];
    }
  }

  lemma TailFacts(s: seq<Scored>, objective: Objective)
    requires s != []
    ensures multiset(s[1..]) == multiset(s) - multiset{s[0]}
    ensures InOrder(s, objective) ==> InOrder(s[1..], objective)
    ensures Strict(s, objective) ==> Strict(s[1..], objective)
  {
    assert s == [s[0]] + s[1..];
    assert forall x :: x in s[1..] ==> x in s;
  }

  // Ranking the same evaluations in any arrival order gives the same ranking,
  // hence the same chosen candidate, and no rejected candidate is ranked ahead
  // of an eligible one.
  lemma ArrivalOrderIndependent(a: seq<Scored>, b: seq<Scored>, objective: Objective)
    requires AllShaped(a, objective) && multiset(a) == multiset(b)
    ensures Ranked(a, objective) == Ranked(b, objective)
    ensures FirstEligible(Ranked(a, objective)) == FirstEligible(Ranked(b, objective))
    ensures forall i, j :: 0 <= i < j < |Ranked(a, objective)| && Ranked(a, objective)[j].eligible ==>
              Ranked(a, objective)[i].eligible
  {
    RankedInOrder(a, objective);
    AllShapedPermutes(a, b, objective);
    RankedInOrder(b, objective);
    var r := Ranked(a, objective);
    forall x, y | x in r && y in r
      ensures !(RanksAhead(x, y, objective) && RanksAhead(y, x, objective))
    {
      assert x in multiset(r) && y in multiset(r);
      assert x in a && y in a;
      RankingIsTotal(x, y, objective);
    }
    OrderIsUnique(r, Ranked(b, objective), objective);
    forall i, j | 0 <= i < j < |r| && r[j].eligible
      ensures r[i].eligible
    {
      assert RanksAhead(r[i], r[j], objective);
    }
  }

  lemma AllShapedPermutes(a: seq<Scored>, b: seq<Scored>, objective: Objective)
    requires AllShaped(a, objective) && multiset(a) == multiset(b)
    ensures AllShaped(b, objective)
  {
    if b != [] {
      forall i | 0 <= i < |b|
        ensures Shaped(b[i], objective)
      {
        assert b[i] in multiset(b);
        assert b[i] in a;
      }
      forall i, j | 0 <= i < j < |b|
        ensures b[i].path != b[j].path
      {
        DistinctInMultiset(a, b, i, j);
      }
    }
  }

  // The chosen candidate is the best eligible one: it is eligible, it comes
  // from the evaluated candidates, and it ranks ahead of every other; there is
  // none exactly when nothing is eligible.
  lemma ChosenIsBest(s: seq<Scored>, objective: Objective)
    requires AllShaped(s, objective)
    ensures match FirstEligible(Ranked(s, objective))
            case None => forall i :: 0 <= i < |s| ==> !s[i].eligible
            case Some(best) =>
              && best in s && best.eligible
              && forall i :: 0 <= i < |s| && s[i] != best ==> RanksAhead(best, s[i], objective)
  {
    RankedInOrder(s, objective);
    var r := Ranked(s, objective);
    SameMembers(r, s);
    FirstEligibleLeads(r, objective);
  }

  lemma SameMembers(a: seq<Scored>, b: seq<Scored>)
    requires multiset(a) == multiset(b)
    ensures forall x :: x in a <==> x in b
  {
    forall x
      ensures x in a <==> x in b
    {
      assert x in a <==> x in multiset(a);
      assert x in b <==> x in multiset(b);
    }
  }

  lemma {:induction false} FirstEligibleLeads(r: seq<Scored>, objective: Objective)
    requires InOrder(r, objective)
    ensures match FirstEligible(r)
            case None => forall x :: x in r ==> !x.eligible
            case Some(best) =>
              best in r && best.eligible && forall x :: x in r && x != best ==> RanksAhead(best, x, objective)
  {
    if r != [] && !r[0].eligible {
      FirstEligibleLeads(r[1..], objective);
      forall x | x in r
        ensures !x.eligible
      {
        var i :| 0 <= i < |r| && r[i] == x;
        assert i > 0 ==> RanksAhead(r[0], r[i], objective);
      }
      assert FirstEligible(r[1..]).None?;
    }
  }
}
