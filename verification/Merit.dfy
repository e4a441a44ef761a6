// What an evaluation weighs, told from the bindings, the snapshot and the
// declared rules alone: who is eligible, who is best, when a change is due
// (src/fabric_evaluate.cpp, evaluate_inputs).

module Merit {
  import opened Base
  import opened Metrics
  import opened Scoring
  import opened Evidence
  import opened Outcomes
  import opened Policy
  import opened Records
  import opened Ranking
  import opened Evaluation
  import opened Choice

  // ------------------------------------------------------------------------
  // Readings
  // ------------------------------------------------------------------------

  // The snapshot holds a usable value for the requirement: trusted enough, made
  // of enough samples, young enough and spanning enough time.
  ghost predicate Fresh(evidence: Snapshot, path: Id, r: Requirement, now: Ticks)
  {
    && Slot(path, r.kind) in evidence
    && var v := evidence[Slot(path, r.kind)];
       && v.count != 0 && v.count >= r.minSamples && v.value.Metric?
       && v.quality.Raw() <= r.minQuality.Raw()
       && now <= v.newest + r.maxAge
       && (r.minWindow == 0 || v.oldest + r.minWindow <= v.newest)
  }

  // Some requirement for the metric kind is met for the path.
  ghost predicate Reads(rs: seq<Requirement>, evidence: Snapshot, path: Id, kind: MetricKind, now: Ticks)
  {
    exists i :: 0 <= i < |rs| && rs[i].kind == kind && Fresh(evidence, path, rs[i], now)
  }

  lemma FoundIsFresh(evidence: Snapshot, path: Id, r: Requirement, now: Ticks)
    ensures LookUp(evidence, path, r, now).Found? <==> Fresh(evidence, path, r, now)
    ensures Fresh(evidence, path, r, now) ==>
      LookUp(evidence, path, r, now)
        == Found(evidence[Slot(path, r.kind)].value, evidence[Slot(path, r.kind)].quality)
  {
  }

  lemma RequirementIs(rs: seq<Requirement>, i: nat)
    requires DistinctKinds(rs) && i < |rs|
    ensures RequirementFor(rs, rs[i].kind) == Some(rs[i])
  {
    var found := RequirementFor(rs, rs[i].kind);
    assert found.Some?;
    var j :| 0 <= j < |rs| && rs[j] == found.value;
    assert j == i;
  }

  lemma TermIsRead(rs: seq<Requirement>, evidence: Snapshot, path: Id, kind: MetricKind, now: Ticks)
    requires DistinctKinds(rs)
    ensures TermLookup(kind, rs, evidence, path, now).Found? <==> Reads(rs, evidence, path, kind, now)
    ensures Reads(rs, evidence, path, kind, now) ==>
      && Slot(path, kind) in evidence && evidence[Slot(path, kind)].value.Metric?
      && TermLookup(kind, rs, evidence, path, now)
           == Found(evidence[Slot(path, kind)].value, evidence[Slot(path, kind)].quality)
  {
    hide LookUp, Fresh, DistinctKinds;
    var found := RequirementFor(rs, kind);
    if found.Some? {
      var j :| 0 <= j < |rs| && rs[j] == found.value;
      FreshReading(evidence, path, rs[j], now);
    }
    if Reads(rs, evidence, path, kind, now) {
      var i :| 0 <= i < |rs| && rs[i].kind == kind && Fresh(evidence, path, rs[i], now);
      RequirementIs(rs, i);
    }
  }

  lemma FreshReading(evidence: Snapshot, path: Id, r: Requirement, now: Ticks)
    ensures LookUp(evidence, path, r, now).Found? <==> Fresh(evidence, path, r, now)
    ensures Fresh(evidence, path, r, now) ==>
      && Slot(path, r.kind) in evidence && evidence[Slot(path, r.kind)].value.Metric?
      && LookUp(evidence, path, r, now)
           == Found(evidence[Slot(path, r.kind)].value, evidence[Slot(path, r.kind)].quality)
  {
    FoundIsFresh(evidence, path, r, now);
  }

  // ------------------------------------------------------------------------
  // Eligibility
  // ------------------------------------------------------------------------

  // Upstream allows the path: legal, on a current route, available and, when the
  // policy targets a set, a member of that set while it is current.
  ghost predicate Lawful(target: Target, b: Binding)
  {
    && b.authority.legal && b.route.current && b.available
    && (target.multipath.Some? ==>
          && b.multipath.Some? && b.multipath.value.current
          && b.multipath.value.set_ == target.multipath.value && b.path in b.multipath.value.members)
  }

  ghost predicate Qualifies(sem: Semantics, c: Candidate, evidence: Snapshot, now: Ticks)
  {
    && Lawful(sem.target, c.binding)
    && (forall i :: 0 <= i < |sem.evidence| && sem.evidence[i].required ==>
          Fresh(evidence, PathOf(c), sem.evidence[i], now))
    && (forall k :: 0 <= k < |sem.objective.terms| ==>
          Reads(sem.evidence, evidence, PathOf(c), sem.objective.terms[k].kind, now))
  }

  // The refusal names a gate that fails.
  lemma LawfulIsExact(target: Target, b: Binding)
    ensures BindingRefusal(target, b).None? <==> Lawful(target, b)
    ensures match BindingRefusal(target, b)
            case None => true
            case Some(outcome) =>
              && (outcome == STALE_PATH_AUTHORITY <==> !b.authority.legal)
              && (outcome == STALE_ROUTE ==> !b.route.current)
              && (outcome == WITHDRAWN_UPSTREAM ==> !b.available)
              && (outcome == STALE_MULTIPATH_SET ==> b.authority.legal && b.route.current && b.available)
              && outcome in {STALE_PATH_AUTHORITY, STALE_ROUTE, WITHDRAWN_UPSTREAM, STALE_MULTIPATH_SET}
  {
  }

  // What the evidence gate found out about the requirements.
  ghost predicate GateMeans(g: Gate, rs: seq<Requirement>, evidence: Snapshot, path: Id, now: Ticks)
  {
    && (g.failure.None? <==>
          forall i :: 0 <= i < |rs| && rs[i].required ==> Fresh(evidence, path, rs[i], now))
    && 1 <= g.weakest <= 4
    && (forall i :: 0 <= i < |rs| && Fresh(evidence, path, rs[i], now) ==>
          evidence[Slot(path, rs[i].kind)].quality.Raw() <= 5 - g.weakest)
    && (g.weakest == 4 || exists i :: 0 <= i < |rs| && UsesQuality(evidence, path, rs[i], now, 5 - g.weakest))
  }

  ghost predicate UsesQuality(evidence: Snapshot, path: Id, r: Requirement, now: Ticks, raw: int)
  {
    Fresh(evidence, path, r, now) && evidence[Slot(path, r.kind)].quality.Raw() == raw
  }

  lemma PassMeans(g: Gate, rs: seq<Requirement>, evidence: Snapshot, path: Id, now: Ticks)
    requires rs != [] && GateMeans(g, rs[..|rs| - 1], evidence, path, now)
    ensures var r := rs[|rs| - 1];
            GateMeans(Pass(g, r, LookUp(evidence, path, r, now)), rs, evidence, path, now)
  {
    hide LookUp, Fresh;
    var init, r := rs[..|rs| - 1], rs[|rs| - 1];
    FreshReading(evidence, path, r, now);
    assert forall i :: 0 <= i < |init| ==> init[i] == rs[i];
    var after := Pass(g, r, LookUp(evidence, path, r, now));
    if after.weakest != 4 {
      if after.weakest == g.weakest {
        var i :| 0 <= i < |init| && UsesQuality(evidence, path, init[i], now, 5 - g.weakest);
        assert UsesQuality(evidence, path, rs[i], now, 5 - after.weakest);
      } else {
        assert UsesQuality(evidence, path, rs[|rs| - 1], now, 5 - after.weakest);
      }
    }
  }

  lemma {:induction false} GateIsExact(rs: seq<Requirement>, evidence: Snapshot, path: Id, now: Ticks)
    ensures GateMeans(EvidenceGate(rs, evidence, path, now), rs, evidence, path, now)
  {
    if rs != [] {
      hide GateMeans, LookUp, Pass;
      GateIsExact(rs[..|rs| - 1], evidence, path, now);
      PassMeans(EvidenceGate(rs[..|rs| - 1], evidence, path, now), rs, evidence, path, now);
    }
  }

  // The objective readings: one per term, each the snapshot's.
  ghost predicate ReadingsOf(values: seq<MetricValue>, terms: seq<ObjectiveTerm>, evidence: Snapshot, path: Id)
  {
    |values| == |terms|
    && forall k :: 0 <= k < |terms| ==>
         Slot(path, terms[k].kind) in evidence && values[k] == evidence[Slot(path, terms[k].kind)].value
  }

  lemma {:induction false} GatherIsExact(
    terms: seq<ObjectiveTerm>, rs: seq<Requirement>, evidence: Snapshot, path: Id, now: Ticks)
    requires DistinctKinds(rs)
    ensures var g := Gather(terms, rs, evidence, path, now);
            && (g.Complete? <==> forall k :: 0 <= k < |terms| ==> Reads(rs, evidence, path, terms[k].kind, now))
            && (g.Complete? ==> ReadingsOf(g.values, terms, evidence, path))
  {
    if terms != [] {
      hide TermLookup, Reads;
      var init, last := terms[..|terms| - 1], terms[|terms| - 1];
      GatherIsExact(init, rs, evidence, path, now);
      TermIsRead(rs, evidence, path, last.kind, now);
      assert forall k :: 0 <= k < |init| ==> init[k] == terms[k];
    }
  }

  lemma AlignedIsScorable(objective: Objective, values: seq<MetricValue>)
    requires objective.Valid() && objective.mode.WeightedScore? && Aligned(values, objective.terms)
    ensures Score(objective.terms, values).Some?
  {
    hide Score;
    ScoreIsExact(objective, values);
  }

  // The pass over one candidate accepts it exactly when upstream allows it,
  // every required metric is fresh and every objective term has a fresh reading.
  lemma EligibleIsExact(sem: Semantics, c: Candidate, evidence: Snapshot, now: Ticks)
    requires sem.EvidenceValid() && sem.objective.Valid() && WellFiled(evidence)
    ensures Judge(sem, c, evidence, now).eligible <==> Qualifies(sem, c, evidence, now)
  {
    hide BindingRefusal, EvidenceGate, Gather, Score, Fresh, Reads, Lawful, Objective.Valid, WellFiled, GateMeans;
    LawfulIsExact(sem.target, c.binding);
    GateIsExact(sem.evidence, evidence, PathOf(c), now);
    GateFailure(EvidenceGate(sem.evidence, evidence, PathOf(c), now), sem.evidence, evidence, PathOf(c), now);
    GatherIsExact(sem.objective.terms, sem.evidence, evidence, PathOf(c), now);
    GatherAligned(sem.objective.terms, sem.evidence, evidence, PathOf(c), now);
    var g := Gather(sem.objective.terms, sem.evidence, evidence, PathOf(c), now);
    if g.Complete? && sem.objective.mode.WeightedScore? {
      AlignedIsScorable(sem.objective, g.values);
    }
  }

  lemma GateFailure(g: Gate, rs: seq<Requirement>, evidence: Snapshot, path: Id, now: Ticks)
    requires GateMeans(g, rs, evidence, path, now)
    ensures g.failure.None? <==> forall i :: 0 <= i < |rs| && rs[i].required ==> Fresh(evidence, path, rs[i], now)
  {
  }

  // ------------------------------------------------------------------------
  // Merit
  // ------------------------------------------------------------------------

  // The declared priority, and zero for a path that has none.
  ghost predicate HasPriority(ps: seq<Priority>, path: Id, priority: u32)
  {
    && (forall i :: 0 <= i < |ps| && ps[i].path == path ==> ps[i].priority == priority)
    && ((forall i :: 0 <= i < |ps| ==> ps[i].path != path) ==> priority == 0)
  }

  lemma {:induction false} PriorityIsExact(ps: seq<Priority>, path: Id)
    requires forall i, j :: 0 <= i < j < |ps| ==> ps[i].path != ps[j].path
    ensures HasPriority(ps, path, PriorityOf(ps, path))
  {
    if ps != [] {
      PriorityIsExact(ps[1..], path);
      assert forall i :: 0 < i < |ps| ==> ps[i] == ps[1..][i - 1];
      assert (forall i :: 0 <= i < |ps| ==> ps[i].path != path) ==>
          forall i :: 0 <= i < |ps[1..]| ==> ps[1..][i].path != path;
    }
  }

  // The weakest quality among the readings used.
  ghost predicate WeakestQuality(rs: seq<Requirement>, evidence: Snapshot, path: Id, now: Ticks, q: Quality)
  {
    && (forall i :: 0 <= i < |rs| && Fresh(evidence, path, rs[i], now) ==>
          evidence[Slot(path, rs[i].kind)].quality.Raw() <= q.Raw())
    && (q.Primary? || exists i :: 0 <= i < |rs| && UsesQuality(evidence, path, rs[i], now, q.Raw()))
  }

  lemma WeakestIsExact(g: Gate, rs: seq<Requirement>, evidence: Snapshot, path: Id, now: Ticks)
    requires GateMeans(g, rs, evidence, path, now)
    ensures WeakestQuality(rs, evidence, path, now, QualityOf(g.weakest))
  {
    hide Fresh;
    assert QualityOf(g.weakest).Raw() == 5 - g.weakest;
  }

  // What an eligible candidate is ranked by.
  ghost predicate HasMerit(sem: Semantics, c: Candidate, evidence: Snapshot, now: Ticks, x: Scored)
  {
    && x.path == PathOf(c) && x.authority == c.binding.authority.generation
    && HasPriority(sem.priorities, PathOf(c), x.priority)
    && WeakestQuality(sem.evidence, evidence, PathOf(c), now, x.quality)
    && ReadingsOf(x.metrics, sem.objective.terms, evidence, PathOf(c))
    && (if sem.objective.mode.WeightedScore? then x.score.Some? && x.score == Score(sem.objective.terms, x.metrics)
        else x.score.None?)
  }

  lemma MeritIsExact(sem: Semantics, c: Candidate, evidence: Snapshot, now: Ticks)
    requires sem.EvidenceValid() && sem.PrioritiesValid() && Judge(sem, c, evidence, now).eligible
    ensures HasMerit(sem, c, evidence, now, Judge(sem, c, evidence, now))
  {
    hide BindingRefusal, EvidenceGate, Gather, Score, GateMeans, HasPriority, PriorityOf, WeakestQuality, QualityOf,
         Reads, ReadingsOf;
    PriorityIsExact(sem.priorities, PathOf(c));
    GateIsExact(sem.evidence, evidence, PathOf(c), now);
    WeakestIsExact(EvidenceGate(sem.evidence, evidence, PathOf(c), now), sem.evidence, evidence, PathOf(c), now);
    GatherIsExact(sem.objective.terms, sem.evidence, evidence, PathOf(c), now);
  }

  // ------------------------------------------------------------------------
  // The best candidate
  // ------------------------------------------------------------------------

  // The first objective term on which the readings differ is the k-th, and there
  // the first list holds the smaller badness.
  ghost predicate LeadsAt(a: seq<MetricValue>, b: seq<MetricValue>, k: nat)
  {
    && k < |a| && k < |b| && a[k].Metric? && b[k].Metric?
    && (forall j :: 0 <= j < k ==> a[j] == b[j])
    && Badness(a[k]) < Badness(b[k])
  }

  predicate NotAfter(a: Id, b: Id) { a == b || Less(a, b) }

  ghost predicate NotWorse(x: Scored, y: Scored, objective: Objective)
  {
    if objective.mode.WeightedScore? then
      && x.score.Some? && y.score.Some? && x.score.value >= y.score.value
      && (x.score.value == y.score.value ==> NotAfter(x.path, y.path))
    else
      || (exists k: nat :: LeadsAt(x.metrics, y.metrics, k))
      || (x.metrics == y.metrics && NotAfter(x.path, y.path))
  }

  // Priority first, then the weakest quality, then the objective, then the path.
  ghost predicate Preferable(x: Scored, y: Scored, objective: Objective)
  {
    && x.priority >= y.priority
    && (x.priority == y.priority ==> x.quality.Raw() <= y.quality.Raw())
    && (x.priority == y.priority && x.quality == y.quality ==> NotWorse(x, y, objective))
  }

  ghost predicate Accepts(i: Inputs, c: Candidate) { Judge(i.semantics, c, i.evidence, i.now).eligible }

  ghost predicate IsBest(i: Inputs, c: Candidate)
  {
    && c in i.candidates && Accepts(i, c)
    && forall d :: d in i.candidates && Accepts(i, d) ==>
         Preferable(Judge(i.semantics, c, i.evidence, i.now), Judge(i.semantics, d, i.evidence, i.now),
                    i.semantics.objective)
  }

  lemma {:induction false} ComparedTerms(terms: seq<ObjectiveTerm>, a: seq<MetricValue>, b: seq<MetricValue>)
    requires Aligned(a, terms) && Aligned(b, terms)
    ensures CompareTerms(|terms|, a, b) > 0 ==> exists k: nat :: LeadsAt(a, b, k)
    ensures CompareTerms(|terms|, a, b) == 0 ==> a == b
  {
    if terms != [] {
      ComparedTerms(terms[1..], a[1..], b[1..]);
      if a[0].value != b[0].value {
        assert CompareTerms(|terms|, a, b) > 0 ==> LeadsAt(a, b, 0);
      } else if CompareTerms(|terms|, a, b) > 0 {
        var k: nat :| LeadsAt(a[1..], b[1..], k);
        assert forall j :: 0 < j < k + 1 ==> a[j] == a[1..][j - 1] && b[j] == b[1..][j - 1];
        assert LeadsAt(a, b, k + 1);
      } else if CompareTerms(|terms|, a, b) == 0 {
        assert a == [a[0]] + a[1..] && b == [b[0]] + b[1..];
      }
    }
  }

  lemma AheadIsPreferable(x: Scored, y: Scored, objective: Objective)
    requires x.eligible && y.eligible && Shaped(x, objective) && Shaped(y, objective)
    requires objective.mode.WeightedScore? ==> x.score.Some? && y.score.Some?
    requires RanksAhead(x, y, objective)
    ensures Preferable(x, y, objective)
  {
    hide LeadsAt, CompareTerms;
    if objective.mode.Lexicographic? {
      ComparedTerms(objective.terms, x.metrics, y.metrics);
    }
  }

  lemma PreferableToItself(x: Scored, objective: Objective)
    requires objective.mode.WeightedScore? ==> x.score.Some?
    ensures Preferable(x, x, objective)
  {
  }

  lemma AcceptedIsScored(sem: Semantics, c: Candidate, evidence: Snapshot, now: Ticks)
    ensures var x := Judge(sem, c, evidence, now);
            x.eligible && sem.objective.mode.WeightedScore? ==> x.score.Some?
  {
    hide BindingRefusal, EvidenceGate, Gather, Score;
  }

  // The head of the ranking is the best candidate; there is none exactly when no
  // candidate is accepted.
  lemma HeadIsBest(i: Inputs)
    requires WellFiled(i.evidence) && DistinctPaths(i.candidates)
    ensures match FirstEligible(Ranked(Judged(i.semantics, i.candidates, i.evidence, i.now), i.semantics.objective))
            case None => forall c :: c in i.candidates ==> !Accepts(i, c)
            case Some(x) => exists c :: IsBest(i, c) && x == Judge(i.semantics, c, i.evidence, i.now)
  {
    hide Judge, Ranked, FirstEligible, Shaped, RanksAhead, Preferable;
    var sem := i.semantics;
    var judged := Judged(sem, i.candidates, i.evidence, i.now);
    JudgedIsShaped(sem, i.candidates, i.evidence, i.now);
    ChosenIsBest(judged, sem.objective);
    forall c | c in i.candidates
      ensures Judge(sem, c, i.evidence, i.now) in judged
    {
      var k :| 0 <= k < |i.candidates| && i.candidates[k] == c;
      assert judged[k] == Judge(sem, c, i.evidence, i.now);
    }
    var head := FirstEligible(Ranked(judged, sem.objective));
    if head.Some? {
      JudgedAt(sem, i.candidates, i.evidence, i.now, head.value);
      var c :| c in i.candidates && Judge(sem, c, i.evidence, i.now) == head.value;
      forall d | d in i.candidates && Accepts(i, d)
        ensures Preferable(head.value, Judge(sem, d, i.evidence, i.now), sem.objective)
      {
        LeadIsPreferable(i, c, d);
      }
      assert IsBest(i, c);
    }
  }

  lemma LeadIsPreferable(i: Inputs, c: Candidate, d: Candidate)
    requires WellFiled(i.evidence) && Accepts(i, c) && Accepts(i, d)
    requires var x, y := Judge(i.semantics, c, i.evidence, i.now), Judge(i.semantics, d, i.evidence, i.now);
             x == y || RanksAhead(x, y, i.semantics.objective)
    ensures Preferable(Judge(i.semantics, c, i.evidence, i.now), Judge(i.semantics, d, i.evidence, i.now),
                       i.semantics.objective)
  {
    hide Judge, RanksAhead, Preferable, Shaped;
    var sem := i.semantics;
    JudgeIsShaped(sem, c, i.evidence, i.now);
    JudgeIsShaped(sem, d, i.evidence, i.now);
    AcceptedIsScored(sem, c, i.evidence, i.now);
    AcceptedIsScored(sem, d, i.evidence, i.now);
    var x, y := Judge(sem, c, i.evidence, i.now), Judge(sem, d, i.evidence, i.now);
    if x == y {
      PreferableToItself(x, sem.objective);
    } else {
      AheadIsPreferable(x, y, sem.objective);
    }
  }

  // An eligible verdict targets a candidate no accepted one is preferable to:
  // none has a higher priority, with its priority none has a stronger weakest
  // quality, and with both none has a better objective.
  lemma TargetIsBest(i: Inputs)
    requires WellFiled(i.evidence) && DistinctPaths(i.candidates) && Decide(i).lifecycle == ELIGIBLE
    ensures exists c :: IsBest(i, c) && PathOf(c) == Decide(i).target
                     && c.binding.authority.generation == Decide(i).targetAuthority
  {
    hide Judged, Ranked, FirstEligible, Decide, Judge, Preferable;
    EligibleIsBest(i);
    HeadIsBest(i);
    var x := FirstEligible(Ranked(Judged(i.semantics, i.candidates, i.evidence, i.now), i.semantics.objective)).value;
    var c :| IsBest(i, c) && x == Judge(i.semantics, c, i.evidence, i.now);
    JudgedIs(i.semantics, c, i.evidence, i.now);
  }

  lemma JudgedIs(sem: Semantics, c: Candidate, evidence: Snapshot, now: Ticks)
    ensures var x := Judge(sem, c, evidence, now);
            x.path == PathOf(c) && x.authority == c.binding.authority.generation
  {
    hide BindingRefusal, EvidenceGate, Gather, Score;
  }

  lemma LeadsAtOnce(a: seq<MetricValue>, b: seq<MetricValue>, k: nat, l: nat)
    requires LeadsAt(a, b, k)
    ensures !LeadsAt(b, a, l) && b != a
  {
  }

  // There is only one best candidate.
  lemma BestIsUnique(i: Inputs, c: Candidate, d: Candidate)
    requires IsBest(i, c) && IsBest(i, d)
    ensures PathOf(c) == PathOf(d)
  {
    hide Judge, LeadsAt, Less;
    var x, y := Judge(i.semantics, c, i.evidence, i.now), Judge(i.semantics, d, i.evidence, i.now);
    JudgedIs(i.semantics, c, i.evidence, i.now);
    JudgedIs(i.semantics, d, i.evidence, i.now);
    assert x.quality.Raw() == y.quality.Raw() && x.quality == y.quality;
    if Less(x.path, y.path) {
      LessAsymmetric(x.path, y.path);
    }
    forall k: nat, l: nat | LeadsAt(x.metrics, y.metrics, k)
      ensures !LeadsAt(y.metrics, x.metrics, l) && y.metrics != x.metrics
    {
      LeadsAtOnce(x.metrics, y.metrics, k, l);
    }
  }
}
