// The choice an evaluation makes: independent of the order of the candidates,
// and always backed by evidence for the chosen path.

module Choice {
  import opened Base
  import opened Metrics
  import opened Scoring
  import opened Evidence
  import opened Outcomes
  import opened Policy
  import opened Records
  import opened Ranking
  import opened Evaluation

  // Every entry of the snapshot is a reading of the metric it is filed under.
  ghost predicate WellFiled(evidence: Snapshot)
  {
    forall k :: k in evidence && evidence[k].value.Metric? ==> evidence[k].value.kind == k.kind
  }

  lemma TermReading(kind: MetricKind, rs: seq<Requirement>, evidence: Snapshot, path: Id, now: Ticks)
    requires WellFiled(evidence)
    ensures var found := TermLookup(kind, rs, evidence, path, now); found.Found? ==> found.value.kind == kind
  {
  }

  lemma {:induction false} GatherAligned(
    terms: seq<ObjectiveTerm>, rs: seq<Requirement>, evidence: Snapshot, path: Id, now: Ticks)
    requires WellFiled(evidence)
    ensures var g := Gather(terms, rs, evidence, path, now); g.Complete? ==> Aligned(g.values, terms)
  {
    if terms != [] {
      var init, last := terms[..|terms| - 1], terms[|terms| - 1];
      GatherAligned(init, rs, evidence, path, now);
      TermReading(last.kind, rs, evidence, path, now);
    }
  }

  lemma JudgeIsShaped(sem: Semantics, c: Candidate, evidence: Snapshot, now: Ticks)
    requires WellFiled(evidence)
    ensures Shaped(Judge(sem, c, evidence, now), sem.objective) && Judge(sem, c, evidence, now).path == PathOf(c)
  {
    hide BindingRefusal, EvidenceGate, Gather, Score;
    GatherAligned(sem.objective.terms, sem.evidence, evidence, PathOf(c), now);
  }

  ghost predicate DistinctPaths(cs: seq<Candidate>)
  {
    forall i, j :: 0 <= i < j < |cs| ==> PathOf(cs[i]) != PathOf(cs[j])
  }

  // What the eligibility pass produces is what the ranking is total on.
  lemma JudgedIsShaped(sem: Semantics, cs: seq<Candidate>, evidence: Snapshot, now: Ticks)
    requires WellFiled(evidence) && DistinctPaths(cs)
    ensures AllShaped(Judged(sem, cs, evidence, now), sem.objective)
  {
    hide Judge, Shaped;
    forall i | 0 <= i < |cs|
      ensures Shaped(Judge(sem, cs[i], evidence, now), sem.objective)
      ensures Judge(sem, cs[i], evidence, now).path == PathOf(cs[i])
    {
      JudgeIsShaped(sem, cs[i], evidence, now);
    }
  }

  lemma JudgedWithout(sem: Semantics, cs: seq<Candidate>, i: nat, evidence: Snapshot, now: Ticks)
    requires i < |cs|
    ensures multiset(Judged(sem, cs, evidence, now))
         == multiset(Judged(sem, cs[..i] + cs[i + 1..], evidence, now)) + multiset{Judge(sem, cs[i], evidence, now)}
  {
    hide Judge;
    var all := Judged(sem, cs, evidence, now);
    RemoveAt(all, i);
    assert Judged(sem, cs[..i] + cs[i + 1..], evidence, now) == all[..i] + all[i + 1..];
  }

  lemma {:induction false} JudgedPermutes(sem: Semantics, a: seq<Candidate>, b: seq<Candidate>, evidence: Snapshot,
                                          now: Ticks)
    requires multiset(a) == multiset(b)
    ensures multiset(Judged(sem, a, evidence, now)) == multiset(Judged(sem, b, evidence, now))
    decreases |a|
  {
    hide Judged;
    assert |a| == |multiset(a)| && |b| == |multiset(b)|;
    if a == [] {
      assert b == [];
    } else {
      assert a[0] in multiset(b);
      var i :| 0 <= i < |b| && b[i] == a[0];
      RemoveAt(a, 0);
      RemoveAt(b, i);
      MultisetCancel(multiset(a[..0] + a[1..]), multiset(b[..i] + b[i + 1..]), a[0]);
      JudgedPermutes(sem, a[..0] + a[1..], b[..i] + b[i + 1..], evidence, now);
      JudgedWithout(sem, a, 0, evidence, now);
      JudgedWithout(sem, b, i, evidence, now);
    }
  }

  // Whatever order the candidates are stored in, the ranking is the same, so
  // the same candidate is chosen.
  lemma ChoiceIgnoresOrder(sem: Semantics, a: seq<Candidate>, b: seq<Candidate>, evidence: Snapshot, now: Ticks)
    requires WellFiled(evidence) && DistinctPaths(a) && multiset(a) == multiset(b)
    ensures Ranked(Judged(sem, a, evidence, now), sem.objective) == Ranked(Judged(sem, b, evidence, now), sem.objective)
  {
    JudgedIsShaped(sem, a, evidence, now);
    JudgedPermutes(sem, a, b, evidence, now);
    ArrivalOrderIndependent(Judged(sem, a, evidence, now), Judged(sem, b, evidence, now), sem.objective);
  }

  // ------------------------------------------------------------------------
  // The chosen path is backed by evidence
  // ------------------------------------------------------------------------

  lemma {:induction false} GatherFinds(
    terms: seq<ObjectiveTerm>, rs: seq<Requirement>, evidence: Snapshot, path: Id, now: Ticks, k: nat)
    requires k < |terms| && Gather(terms, rs, evidence, path, now).Complete?
    ensures TermLookup(terms[k].kind, rs, evidence, path, now).Found?
  {
    if k < |terms| - 1 {
      assert terms[..|terms| - 1][k] == terms[k];
      GatherFinds(terms[..|terms| - 1], rs, evidence, path, now, k);
    }
  }

  lemma EligibleReads(sem: Semantics, c: Candidate, evidence: Snapshot, now: Ticks)
    requires sem.objective.terms != [] && Judge(sem, c, evidence, now).eligible
    ensures TermLookup(sem.objective.terms[0].kind, sem.evidence, evidence, PathOf(c), now).Found?
    ensures BindingRefusal(sem.target, c.binding).None?
  {
    hide EvidenceGate, TermLookup, Score;
    if Gather(sem.objective.terms, sem.evidence, evidence, PathOf(c), now).Complete? {
      GatherFinds(sem.objective.terms, sem.evidence, evidence, PathOf(c), now, 0);
    }
  }

  lemma EligibleIsBest(i: Inputs)
    requires Decide(i).lifecycle == ELIGIBLE
    ensures var best := FirstEligible(Ranked(Judged(i.semantics, i.candidates, i.evidence, i.now),
                                             i.semantics.objective));
            best.Some? && best.value.path == Decide(i).target && best.value.authority == Decide(i).targetAuthority
  {
    hide Judged, Ranked, FirstEligible, EntryStop, OrdinaryStop, Proposal, IncumbentStop, EmergencyHolds;
  }

  // A candidate that passed every binding gate and has a current reading for
  // the first objective term.
  ghost predicate Backed(i: Inputs, c: Candidate)
  {
    && c in i.candidates && BindingRefusal(i.semantics.target, c.binding).None?
    && i.semantics.objective.terms != []
    && TermLookup(i.semantics.objective.terms[0].kind, i.semantics.evidence, i.evidence, PathOf(c), i.now).Found?
  }

  // An eligible verdict targets such a candidate.
  lemma EligibleTargetIsBacked(i: Inputs)
    requires Decide(i).lifecycle == ELIGIBLE && i.semantics.objective.terms != []
    requires WellFiled(i.evidence) && DistinctPaths(i.candidates)
    ensures exists c :: PathOf(c) == Decide(i).target && Backed(i, c)
  {
    hide Judged, Ranked, FirstEligible, Decide, TermLookup, BindingRefusal, Judge, Shaped, RanksAhead;
    var sem := i.semantics;
    var judged := Judged(sem, i.candidates, i.evidence, i.now);
    EligibleIsBest(i);
    JudgedIsShaped(sem, i.candidates, i.evidence, i.now);
    ChosenIsBest(judged, sem.objective);
    var best := FirstEligible(Ranked(judged, sem.objective)).value;
    JudgedAt(sem, i.candidates, i.evidence, i.now, best);
    var c :| c in i.candidates && Judge(sem, c, i.evidence, i.now) == best;
    JudgeIsShaped(sem, c, i.evidence, i.now);
    EligibleReads(sem, c, i.evidence, i.now);
    assert Backed(i, c);
  }

  lemma JudgedAt(sem: Semantics, cs: seq<Candidate>, evidence: Snapshot, now: Ticks, x: Scored)
    requires x in Judged(sem, cs, evidence, now)
    ensures exists c :: c in cs && Judge(sem, c, evidence, now) == x
  {
    hide Judge;
    var k :| 0 <= k < |cs| && Judged(sem, cs, evidence, now)[k] == x;
    assert cs[k] in cs;
  }
}
