// When an evaluation is eligible, told from the timers, the readings and the
// declared rules alone (src/fabric_evaluate.cpp, evaluate_inputs).

module Verdicts {
  import opened Base
  import opened Metrics
  import opened Scoring
  import opened Evidence
  import opened Outcomes
  import opened Policy
  import opened Records
  import opened Ranking
  import opened Evaluation
  import opened Choice
  import opened Merit

  // What the coordinator evaluates: valid semantics, distinct paths and readings
  // filed under their kind.
  ghost predicate Sound(i: Inputs)
  {
    i.semantics.Valid() && WellFiled(i.evidence) && DistinctPaths(i.candidates)
  }

  // ------------------------------------------------------------------------
  // Bands, improvements, churn
  // ------------------------------------------------------------------------

  // The path has a fresh reading that is no worse than the clear value.
  ghost predicate Clears(i: Inputs, path: Id, rule: ThresholdRule)
  {
    && rule.clear.Metric? && Reads(i.semantics.evidence, i.evidence, path, rule.kind, i.now)
    && Slot(path, rule.kind) in i.evidence && i.evidence[Slot(path, rule.kind)].value.Metric?
    && Badness(i.evidence[Slot(path, rule.kind)].value) <= Badness(rule.clear)
  }

  // The path has a fresh reading that is no better than the switch value.
  ghost predicate Crosses(i: Inputs, path: Id, rule: ThresholdRule)
  {
    && rule.switch_.Metric? && Reads(i.semantics.evidence, i.evidence, path, rule.kind, i.now)
    && Slot(path, rule.kind) in i.evidence && i.evidence[Slot(path, rule.kind)].value.Metric?
    && Badness(rule.switch_) <= Badness(i.evidence[Slot(path, rule.kind)].value)
  }

  // The first path crossed the band and the second clears it.
  ghost predicate Spans(i: Inputs, from: Id, to: Id, rule: ThresholdRule)
  {
    Crosses(i, from, rule) && Clears(i, to, rule)
  }

  // Both paths have fresh readings, and the second gains what the direction asks.
  ghost predicate Improves(i: Inputs, from: Id, to: Id, rule: ImprovementRule, least: u32)
  {
    && Reads(i.semantics.evidence, i.evidence, from, rule.kind, i.now)
    && Reads(i.semantics.evidence, i.evidence, to, rule.kind, i.now)
    && Slot(from, rule.kind) in i.evidence && Slot(to, rule.kind) in i.evidence
    && var gain := RelativeImprovement(i.evidence[Slot(from, rule.kind)].value,
                                       i.evidence[Slot(to, rule.kind)].value);
       gain.Some? && gain.value >= least
  }

  // The stamps of a churn window, by position.
  ghost function Stamped(stamps: seq<Ticks>, now: Ticks, window: Ticks): set<nat>
  {
    set k: nat | k < |stamps| && stamps[k] <= now <= stamps[k] + window
  }

  lemma {:induction false} RecentIsExact(stamps: seq<Ticks>, now: Ticks, window: Ticks)
    ensures Recent(stamps, now, window) == |Stamped(stamps, now, window)|
  {
    if stamps == [] {
      assert Stamped(stamps, now, window) == {};
    } else {
      var init, n := stamps[..|stamps| - 1], |stamps| - 1;
      RecentIsExact(init, now, window);
      assert Stamped(stamps, now, window)
          == Stamped(init, now, window) + (if InWindow(stamps[n], now, window) then {n} else {});
    }
  }

  lemma RuleReads(i: Inputs, path: Id, kind: MetricKind)
    requires Sound(i) && i.semantics.Covers(kind)
    ensures RequirementFor(i.semantics.evidence, kind).Some?
    ensures var found := LookUp(i.evidence, path, RequirementFor(i.semantics.evidence, kind).value, i.now);
            && (found.Found? <==> Reads(i.semantics.evidence, i.evidence, path, kind, i.now))
            && (found.Found? ==>
                  Slot(path, kind) in i.evidence && found.value == i.evidence[Slot(path, kind)].value
                  && found.value.kind == kind)
  {
    hide LookUp, Reads, Semantics.Covers;
    assert i.semantics.EvidenceValid();
    TermIsRead(i.semantics.evidence, i.evidence, path, kind, i.now);
    CoveredHasRequirement(i.semantics, kind);
  }

  lemma CoveredHasRequirement(sem: Semantics, kind: MetricKind)
    requires sem.Covers(kind)
    ensures RequirementFor(sem.evidence, kind).Some?
  {
  }

  lemma EntryIs(rule: ThresholdRule, reading: Reading)
    requires rule.Valid() && reading.kind == rule.kind
    ensures rule.PermitsEntry(reading) <==> Badness(reading) <= Badness(rule.clear)
    ensures rule.PermitsDeparture(reading) <==> Badness(rule.switch_) <= Badness(reading)
  {
  }

  lemma {:induction false} EntryIsExact(i: Inputs, rules: seq<ThresholdRule>, best: Id, from: nat)
    requires Sound(i) && from <= |rules|
    requires forall k :: 0 <= k < |rules| ==> rules[k].Valid() && i.semantics.Covers(rules[k].kind)
    ensures EntryStop(rules[from..], i.semantics.evidence, i.evidence, best, i.now).None? <==>
              forall k :: from <= k < |rules| ==> Clears(i, best, rules[k])
    decreases |rules| - from
  {
    if from < |rules| {
      hide LookUp, Sound, ThresholdRule.Valid, Semantics.Covers, ThresholdRule.PermitsEntry, Clears, RequirementFor;
      EntryIsExact(i, rules, best, from + 1);
      assert rules[from..][1..] == rules[from + 1..];
      OneEntry(i, rules[from], best);
      CoveredHasRequirement(i.semantics, rules[from].kind);
    }
  }

  lemma OneEntry(i: Inputs, rule: ThresholdRule, path: Id)
    requires Sound(i) && rule.Valid() && i.semantics.Covers(rule.kind)
    ensures var found := LookUp(i.evidence, path, RequirementFor(i.semantics.evidence, rule.kind).value, i.now);
            && (Clears(i, path, rule) <==> found.Found? && rule.PermitsEntry(found.value))
            && (Crosses(i, path, rule) <==> found.Found? && rule.PermitsDeparture(found.value))
  {
    hide LookUp, Reads, Sound, Semantics.Covers, ThresholdRule.PermitsEntry, ThresholdRule.PermitsDeparture;
    RuleReads(i, path, rule.kind);
    var found := LookUp(i.evidence, path, RequirementFor(i.semantics.evidence, rule.kind).value, i.now);
    if found.Found? {
      EntryIs(rule, found.value);
    }
  }

  lemma OneBand(i: Inputs, rule: ThresholdRule, current: Id, best: Id)
    requires Sound(i) && rule.Valid() && i.semantics.Covers(rule.kind)
    ensures RequirementFor(i.semantics.evidence, rule.kind).Some?
    ensures var r := RequirementFor(i.semantics.evidence, rule.kind).value;
            OneBandStop(rule, LookUp(i.evidence, current, r, i.now), LookUp(i.evidence, best, r, i.now)).None?
            <==> Spans(i, current, best, rule)
  {
    hide LookUp, Sound, ThresholdRule.Valid, Semantics.Covers, ThresholdRule.PermitsEntry,
         ThresholdRule.PermitsDeparture, Clears, Crosses;
    CoveredHasRequirement(i.semantics, rule.kind);
    OneEntry(i, rule, best);
    OneEntry(i, rule, current);
  }

  lemma {:induction false} BandsAreExact(i: Inputs, rules: seq<ThresholdRule>, current: Id, best: Id, from: nat)
    requires Sound(i) && from <= |rules|
    requires forall k :: 0 <= k < |rules| ==> rules[k].Valid() && i.semantics.Covers(rules[k].kind)
    ensures BandStop(rules[from..], i.semantics.evidence, i.evidence, current, best, i.now).None? <==>
              forall k :: from <= k < |rules| ==> Spans(i, current, best, rules[k])
    decreases |rules| - from
  {
    if from < |rules| {
      hide LookUp, Sound, ThresholdRule.Valid, Semantics.Covers, OneBandStop, Spans, RequirementFor;
      BandsAreExact(i, rules, current, best, from + 1);
      assert rules[from..][1..] == rules[from + 1..];
      OneBand(i, rules[from], current, best);
    }
  }

  function Least(rule: ImprovementRule, reverse: bool): u32 { if reverse then rule.reverse else rule.forward }

  ghost predicate Meets(i: Inputs, from: Id, to: Id, rule: ImprovementRule, reverse: bool)
  {
    Improves(i, from, to, rule, Least(rule, reverse))
  }

  lemma OneImprovement(i: Inputs, rule: ImprovementRule, current: Id, best: Id, reverse: bool)
    requires Sound(i) && i.semantics.Covers(rule.kind)
    ensures var r := RequirementFor(i.semantics.evidence, rule.kind).value;
            OneImprovementStop(rule, LookUp(i.evidence, current, r, i.now), LookUp(i.evidence, best, r, i.now),
                               reverse).None?
            <==> Meets(i, current, best, rule, reverse)
  {
    hide LookUp, Reads, Sound, Semantics.Covers, RelativeImprovement;
    RuleReads(i, current, rule.kind);
    RuleReads(i, best, rule.kind);
  }

  lemma {:induction false} ImprovementsAreExact(
    i: Inputs, rules: seq<ImprovementRule>, current: Id, best: Id, reverse: bool, from: nat)
    requires Sound(i) && from <= |rules|
    requires forall k :: 0 <= k < |rules| ==> i.semantics.Covers(rules[k].kind)
    ensures ImprovementStop(rules[from..], i.semantics.evidence, i.evidence, current, best, i.now, reverse).None? <==>
              forall k :: from <= k < |rules| ==> Meets(i, current, best, rules[k], reverse)
    decreases |rules| - from
  {
    if from < |rules| {
      hide LookUp, Sound, Semantics.Covers, OneImprovementStop, Meets, RequirementFor;
      ImprovementsAreExact(i, rules, current, best, reverse, from + 1);
      assert rules[from..][1..] == rules[from + 1..];
      CoveredHasRequirement(i.semantics, rules[from].kind);
      OneImprovement(i, rules[from], current, best, reverse);
    }
  }

  // ------------------------------------------------------------------------
  // The incumbent and emergencies
  // ------------------------------------------------------------------------

  ghost predicate Incumbent(i: Inputs)
  {
    exists d :: d in i.candidates && PathOf(d) == i.preference.preferred && Accepts(i, d)
  }

  lemma {:induction false} EntryOfIsExact(ranking: seq<Scored>, path: Id)
    requires forall k, l :: 0 <= k < l < |ranking| ==> ranking[k].path != ranking[l].path
    ensures match EntryOf(ranking, path)
            case None => forall x :: x in ranking ==> x.path != path
            case Some(x) => x in ranking && x.path == path && forall y :: y in ranking && y.path == path ==> y == x
  {
    if ranking != [] {
      assert ranking == [ranking[0]] + ranking[1..];
      EntryOfIsExact(ranking[1..], path);
    }
  }

  lemma IncumbentIsExact(i: Inputs)
    requires Sound(i)
    ensures var ranking := Ranked(Judged(i.semantics, i.candidates, i.evidence, i.now), i.semantics.objective);
            IncumbentStop(ranking, i.preference.preferred).None? <==> Incumbent(i)
  {
    hide Judge, Ranked, RanksAhead, Shaped, Semantics.Valid, WellFiled, EntryOf, Judged;
    var judged := Judged(i.semantics, i.candidates, i.evidence, i.now);
    var ranking := Ranked(judged, i.semantics.objective);
    JudgedIsShaped(i.semantics, i.candidates, i.evidence, i.now);
    RankedInOrder(judged, i.semantics.objective);
    AllShapedPermutes(judged, ranking, i.semantics.objective);
    SameMembers(ranking, judged);
    EntryOfIsExact(ranking, i.preference.preferred);
    forall d | d in i.candidates
      ensures Judge(i.semantics, d, i.evidence, i.now) in judged
      ensures Judge(i.semantics, d, i.evidence, i.now).path == PathOf(d)
    {
      JudgedHas(i, d);
      JudgedIs(i.semantics, d, i.evidence, i.now);
    }
    forall x | x in judged
      ensures exists d :: d in i.candidates && Judge(i.semantics, d, i.evidence, i.now) == x
    {
      JudgedAt(i.semantics, i.candidates, i.evidence, i.now, x);
    }
  }

  lemma JudgedHas(i: Inputs, d: Candidate)
    requires d in i.candidates
    ensures Judge(i.semantics, d, i.evidence, i.now) in Judged(i.semantics, i.candidates, i.evidence, i.now)
  {
    hide Judge;
    var k :| 0 <= k < |i.candidates| && i.candidates[k] == d;
    assert Judged(i.semantics, i.candidates, i.evidence, i.now)[k] == Judge(i.semantics, d, i.evidence, i.now);
  }

  // A declared emergency: the preferred path lost its authority, became
  // unavailable or failed hard.
  ghost predicate Emergent(i: Inputs)
  {
    var e, path := i.semantics.emergency, i.preference.preferred;
    && e.enabled
    && (|| (e.unauthorized && forall d :: d in i.candidates && PathOf(d) == path ==> !d.binding.authority.legal)
        || (e.unavailable && forall d :: d in i.candidates && PathOf(d) == path ==> !d.binding.available)
        || (e.hardFailure && exists d :: d in i.candidates && PathOf(d) == path && d.binding.hardFailure))
  }

  lemma EmergencyIsExact(i: Inputs)
    requires DistinctPaths(i.candidates)
    ensures EmergencyHolds(i.semantics.emergency, Find(i.candidates, i.preference.preferred)) <==> Emergent(i)
  {
    hide Find, DistinctPaths;
    FindIsExact(i.candidates, i.preference.preferred);
  }

  lemma FindIsExact(cs: seq<Candidate>, path: Id)
    requires DistinctPaths(cs)
    ensures match Find(cs, path)
            case None => forall d :: d in cs ==> PathOf(d) != path
            case Some(c) => c in cs && PathOf(c) == path && forall d :: d in cs && PathOf(d) == path ==> d == c
  {
    forall d | d in cs
      ensures PathOf(d) in Paths(cs)
    {
    }
  }

  // ------------------------------------------------------------------------
  // The verdict
  // ------------------------------------------------------------------------

  ghost predicate Reverses(i: Inputs, best: Id)
  {
    ValidId(i.preference.previous) && i.preference.previous == best
  }

  // The timers and the churn bound let an ordinary adaptation through.
  ghost predicate Released(i: Inputs, best: Id)
  {
    var sem, t := i.semantics, i.timing;
    && (t.cooldownActive ==> t.cooldownDeadline <= i.now)
    && (t.holdDownActive && Reverses(i, best) && sem.holdDown != 0 ==> t.holdDownDeadline <= i.now)
    && (sem.churn.max != 0 ==> |Stamped(t.churn, i.now, sem.churn.window)| < sem.churn.max)
  }

  // Every band is crossed by the preferred path and cleared by the best one, and
  // every declared improvement is met in its direction.
  ghost predicate Justified(i: Inputs, best: Id)
  {
    var sem, current := i.semantics, i.preference.preferred;
    && (forall k :: 0 <= k < |sem.thresholds| ==> Spans(i, current, best, sem.thresholds[k]))
    && (forall k :: 0 <= k < |sem.improvements| ==>
          Meets(i, current, best, sem.improvements[k], Reverses(i, best)))
  }

  // What makes the best path a due change of preference.
  ghost predicate Due(i: Inputs, best: Id)
  {
    if !i.preference.established then
      forall k :: 0 <= k < |i.semantics.thresholds| ==> Clears(i, best, i.semantics.thresholds[k])
    else
      best != i.preference.preferred && (Emergent(i) || (Incumbent(i) && Released(i, best) && Justified(i, best)))
  }

  lemma ValidRules(sem: Semantics)
    requires sem.Valid()
    ensures forall k :: 0 <= k < |sem.thresholds| ==> sem.thresholds[k].Valid() && sem.Covers(sem.thresholds[k].kind)
    ensures forall k :: 0 <= k < |sem.improvements| ==> sem.Covers(sem.improvements[k].kind)
    ensures sem.EvidenceValid() && sem.objective.Valid() && sem.PrioritiesValid()
  {
    hide ThresholdRule.Valid, Semantics.Covers;
    assert sem.BandsValid() && sem.BandsCovered() && sem.ImprovementsCovered();
  }

  // Dampening extends a hold-down and never starts one.
  lemma HeldOnlyWhenDeclared(sem: Semantics, penalty: u32)
    requires sem.Valid()
    ensures EvaluatedHoldDown(sem, penalty) != 0 <==> sem.holdDown != 0
  {
    assert sem.TimersValid();
  }

  lemma OrdinaryIsExact(i: Inputs, best: Id)
    requires Sound(i)
    ensures OrdinaryStop(i, best).None? <==> Released(i, best) && Justified(i, best)
  {
    hide BandStop, ImprovementStop, Recent, Spans, Meets, Sound, Semantics.Valid,
         ThresholdRule.Valid, Semantics.Covers, EvaluatedHoldDown, Stamped;
    SoundIsValid(i);
    ValidRules(i.semantics);
    BandsAreExact(i, i.semantics.thresholds, i.preference.preferred, best, 0);
    ImprovementsAreExact(i, i.semantics.improvements, i.preference.preferred, best, Reverses(i, best), 0);
    assert i.semantics.thresholds[0..] == i.semantics.thresholds;
    assert i.semantics.improvements[0..] == i.semantics.improvements;
    RecentIsExact(i.timing.churn, i.now, i.semantics.churn.window);
    HeldOnlyWhenDeclared(i.semantics, i.timing.penalty);
  }

  lemma SoundIsValid(i: Inputs)
    ensures Sound(i) ==> i.semantics.Valid() && DistinctPaths(i.candidates) && WellFiled(i.evidence)
  {
  }

  lemma EstablishIsExact(i: Inputs, best: Scored, ranking: seq<Scored>)
    requires Sound(i) && !i.preference.established
    ensures Establish(i, best, ranking).lifecycle == ELIGIBLE <==> Due(i, best.path)
  {
    hide EntryStop, Clears, Sound, Semantics.Valid, ThresholdRule.Valid, Semantics.Covers;
    SoundIsValid(i);
    ValidRules(i.semantics);
    EntryIsExact(i, i.semantics.thresholds, best.path, 0);
    assert i.semantics.thresholds[0..] == i.semantics.thresholds;
  }

  lemma AdaptIsExact(i: Inputs, best: Scored, ranking: seq<Scored>)
    requires Sound(i) && i.preference.established
    requires ranking == Ranked(Judged(i.semantics, i.candidates, i.evidence, i.now), i.semantics.objective)
    ensures var v := Adapt(i, best, ranking);
            && (v.lifecycle == ELIGIBLE <==> Due(i, best.path))
            && (v.emergency <==> Emergent(i))
            && v.target == best.path && v.targetAuthority == best.authority
  {
    hide IncumbentStop, OrdinaryStop, EmergencyHolds, Emergent, Released, Justified, Incumbent, Ranked, Judged, Sound,
         Find, Proposal;
    SoundIsValid(i);
    EmergencyIsExact(i);
    IncumbentIsExact(i);
    OrdinaryIsExact(i, best.path);
  }

  // The verdict is eligible exactly when the best candidate is a due change, and
  // then it targets that candidate at its authority generation; it says so as an
  // emergency exactly when one holds.
  lemma VerdictIsExact(i: Inputs, c: Candidate)
    requires Sound(i) && IsBest(i, c)
    ensures var v := Decide(i);
            && (v.lifecycle == ELIGIBLE <==> Due(i, PathOf(c)))
            && (v.lifecycle == ELIGIBLE ==>
                  v.target == PathOf(c) && v.targetAuthority == c.binding.authority.generation)
            && (v.emergency <==> i.preference.established && Emergent(i))
  {
    hide Establish, Adapt, Ranked, Judged, FirstEligible, Judge, Due, Emergent, IsBest, Sound;
    SoundIsValid(i);
    HeadIsBest(i);
    BestIsAccepted(i, c);
    var ranking := Ranked(Judged(i.semantics, i.candidates, i.evidence, i.now), i.semantics.objective);
    var d :| IsBest(i, d) && FirstEligible(ranking) == Some(Judge(i.semantics, d, i.evidence, i.now));
    BestIsOne(i, c, d);
    JudgedIs(i.semantics, c, i.evidence, i.now);
    var x := Judge(i.semantics, c, i.evidence, i.now);
    if i.preference.established {
      AdaptIsExact(i, x, ranking);
    } else {
      EstablishIsExact(i, x, ranking);
      EstablishTargets(i, x, ranking);
    }
  }

  lemma EstablishTargets(i: Inputs, best: Scored, ranking: seq<Scored>)
    ensures var v := Establish(i, best, ranking);
            !v.emergency
            && (v.lifecycle == ELIGIBLE ==> v.target == best.path && v.targetAuthority == best.authority)
  {
    hide EntryStop;
  }

  lemma BestIsAccepted(i: Inputs, c: Candidate)
    ensures IsBest(i, c) ==> c in i.candidates && Accepts(i, c)
  {
  }

  lemma BestIsOne(i: Inputs, c: Candidate, d: Candidate)
    requires DistinctPaths(i.candidates) && IsBest(i, c) && IsBest(i, d)
    ensures c == d
  {
    hide IsBest;
    BestIsUnique(i, c, d);
    BestIsAccepted(i, c);
    BestIsAccepted(i, d);
  }

  // Without an accepted candidate nothing is due.
  lemma NothingToChoose(i: Inputs)
    requires Sound(i) && forall c :: c in i.candidates ==> !Accepts(i, c)
    ensures Decide(i).lifecycle == SUPPRESSED_DECISION && Decide(i).suppression == NO_ELIGIBLE_ALTERNATIVE
    ensures Decide(i).outcome == NO_ELIGIBLE_CANDIDATE
  {
    hide Establish, Adapt, Ranked, Judged, FirstEligible, Judge, Accepts, Sound;
    SoundIsValid(i);
    HeadIsBest(i);
    forall c
      ensures !IsBest(i, c)
    {
      BestIsAccepted(i, c);
    }
  }

  // The weights an eligible adaptation proposes: all of them on the target,
  // offered against the generation of its weight policy.
  ghost predicate Shifts(i: Inputs, c: Candidate, proposal: WeightProposal)
  {
    && c.binding.weighted.Some? && proposal.set_ == c.binding.weighted.value.set_
    && proposal.baseGeneration == c.binding.weighted.value.generation
    && |proposal.weights| == |i.candidates|
    && forall k :: 0 <= k < |i.candidates| ==>
         && proposal.weights[k].path == PathOf(i.candidates[k])
         && proposal.weights[k].weight == (if PathOf(i.candidates[k]) == PathOf(c) then 10000 else 0)
  }

  // The policy targets a set and the candidate has a usable weight policy.
  ghost predicate Weighable(i: Inputs, c: Candidate)
  {
    && i.semantics.target.multipath.Some? && c.binding.weighted.Some? && ValidId(c.binding.weighted.value.set_)
    && c.binding.weighted.value.generation != 0
    && forall k :: 0 <= k < |i.candidates| ==> ValidId(PathOf(i.candidates[k]))
  }

  lemma ProposalOf(i: Inputs, c: Candidate)
    requires DistinctPaths(i.candidates) && c in i.candidates
    ensures Proposal(i, PathOf(c)).Some? <==> Weighable(i, c)
    ensures Proposal(i, PathOf(c)).Some? ==> Shifts(i, c, Proposal(i, PathOf(c)).value)
  {
    hide Find, DistinctPaths;
    FindIsExact(i.candidates, PathOf(c));
    if i.semantics.target.multipath.Some? && c.binding.weighted.Some? {
      var w := c.binding.weighted.value;
      var proposal := WeightProposal(w.set_, w.generation,
        seq(|i.candidates|, k requires 0 <= k < |i.candidates| =>
          PathWeight(PathOf(i.candidates[k]), if PathOf(i.candidates[k]) == PathOf(c) then BASIS_POINTS else 0)));
      assert forall k :: 0 <= k < |i.candidates| ==> proposal.weights[k].path == PathOf(i.candidates[k]);
      if proposal.WellFormed() {
        assert forall k :: 0 <= k < |i.candidates| ==> ValidId(proposal.weights[k].path);
      }
    }
  }

  lemma AdaptProposes(i: Inputs, best: Scored, ranking: seq<Scored>)
    ensures Adapt(i, best, ranking).lifecycle == ELIGIBLE ==>
              Adapt(i, best, ranking).proposal == Proposal(i, best.path)
    ensures Establish(i, best, ranking).proposal.None?
  {
    hide EntryStop, IncumbentStop, OrdinaryStop, EmergencyHolds, Find, Proposal;
  }

  // An eligible adaptation carries such a proposal exactly when there is one to
  // make; a first preference carries none.
  lemma ProposalIsExact(i: Inputs, c: Candidate)
    requires Sound(i) && IsBest(i, c) && Decide(i).lifecycle == ELIGIBLE
    ensures var proposal := Decide(i).proposal;
            && (proposal.Some? <==> i.preference.established && Weighable(i, c))
            && (proposal.Some? ==> Shifts(i, c, proposal.value))
  {
    hide Judged, Ranked, FirstEligible, Judge, Establish, Adapt, Find, IsBest, Sound, Proposal, Weighable, Shifts;
    SoundIsValid(i);
    HeadIsBest(i);
    BestIsAccepted(i, c);
    var ranking := Ranked(Judged(i.semantics, i.candidates, i.evidence, i.now), i.semantics.objective);
    var d :| IsBest(i, d) && FirstEligible(ranking) == Some(Judge(i.semantics, d, i.evidence, i.now));
    BestIsOne(i, c, d);
    JudgedIs(i.semantics, c, i.evidence, i.now);
    AdaptProposes(i, Judge(i.semantics, c, i.evidence, i.now), ranking);
    ProposalOf(i, c);
  }
}
