// What a suppressed evaluation reports is so (src/fabric_evaluate.cpp,
// src/outcome.cpp).

module Reasons {
  import opened Base
  import opened Metrics
  import opened Scoring
  import opened Evidence
  import opened Outcomes
  import opened Policy
  import opened Records
  import opened Ranking
  import opened Evaluation
  import opened Choice
  import opened Merit
  import opened Verdicts

  // Evidence that is missing is reported as such.
  ghost predicate EvidenceReason(stop: Stop)
  {
    stop in {Stop(EVIDENCE_UNKNOWN, INSUFFICIENT_EVIDENCE), Stop(INSUFFICIENT_SAMPLES, INSUFFICIENT_EVIDENCE),
             Stop(EVIDENCE_STALE, STALE_EVIDENCE)}
  }

  // A missing reading is unknown, untrusted, too old, or made of too little.
  lemma MissingIsTrue(evidence: Snapshot, path: Id, r: Requirement, now: Ticks)
    ensures match LookUp(evidence, path, r, now)
            case Found(_, _) => true
            case Missing(reason) =>
              && EvidenceReason(Because(reason))
              && var slot := Slot(path, r.kind);
                 && (reason != EVIDENCE_UNKNOWN ==> slot in evidence)
                 && (reason == EVIDENCE_UNKNOWN && slot in evidence ==>
                       evidence[slot].count == 0 || evidence[slot].value == NoMetric
                       || evidence[slot].quality.Raw() > r.minQuality.Raw())
                 && (reason == EVIDENCE_STALE ==> evidence[slot].newest + r.maxAge < now)
                 && (reason == INSUFFICIENT_SAMPLES ==>
                       evidence[slot].count < r.minSamples
                       || evidence[slot].newest < evidence[slot].oldest + r.minWindow)
  {
  }

  ghost predicate Readable(i: Inputs, path: Id, kind: MetricKind)
  {
    Reads(i.semantics.evidence, i.evidence, path, kind, i.now)
  }

  // The band that stopped the change: not crossed, not cleared or not readable.
  ghost predicate BandReason(i: Inputs, current: Id, best: Id, rule: ThresholdRule, stop: Stop)
  {
    || (stop == Stop(BELOW_THRESHOLD, NO_CHANGE) && Readable(i, current, rule.kind) && !Crosses(i, current, rule))
    || (stop == Stop(BAND_NOT_CLEARED, HYSTERESIS_NOT_CLEARED) && Readable(i, best, rule.kind)
        && !Clears(i, best, rule))
    || (EvidenceReason(stop) && !(Readable(i, current, rule.kind) && Readable(i, best, rule.kind)))
  }

  // The improvement that stopped it: too small for its direction or not readable.
  ghost predicate ImprovementReason(
    i: Inputs, current: Id, best: Id, rule: ImprovementRule, reverse: bool, stop: Stop)
  {
    || (stop == (if reverse then Stop(BAND_NOT_CLEARED, HYSTERESIS_NOT_CLEARED) else Stop(BELOW_THRESHOLD, NO_CHANGE))
        && Readable(i, current, rule.kind) && Readable(i, best, rule.kind)
        && !Meets(i, current, best, rule, reverse))
    || (EvidenceReason(stop) && !(Readable(i, current, rule.kind) && Readable(i, best, rule.kind)))
  }

  lemma LookUpReason(i: Inputs, path: Id, kind: MetricKind)
    requires Sound(i) && i.semantics.Covers(kind)
    ensures RequirementFor(i.semantics.evidence, kind).Some?
    ensures var found := LookUp(i.evidence, path, RequirementFor(i.semantics.evidence, kind).value, i.now);
            && (found.Found? <==> Readable(i, path, kind))
            && (found.Missing? ==> EvidenceReason(Because(found.reason)))
            && (found.Found? ==>
                  Slot(path, kind) in i.evidence && found.value == i.evidence[Slot(path, kind)].value
                  && found.value.kind == kind)
  {
    hide LookUp, Reads, Sound, Semantics.Covers, EvidenceReason;
    RuleReads(i, path, kind);
    MissingIsTrue(i.evidence, path, RequirementFor(i.semantics.evidence, kind).value, i.now);
  }

  lemma OneBandReason(i: Inputs, rule: ThresholdRule, current: Id, best: Id)
    requires Sound(i) && rule.Valid() && i.semantics.Covers(rule.kind)
    ensures RequirementFor(i.semantics.evidence, rule.kind).Some?
    ensures var r := RequirementFor(i.semantics.evidence, rule.kind).value;
            var stop := OneBandStop(rule, LookUp(i.evidence, current, r, i.now), LookUp(i.evidence, best, r, i.now));
            stop.Some? ==> BandReason(i, current, best, rule, stop.value)
  {
    hide LookUp, Sound, ThresholdRule.Valid, Semantics.Covers, ThresholdRule.PermitsEntry,
         ThresholdRule.PermitsDeparture, Clears, Crosses, EvidenceReason, Readable;
    LookUpReason(i, current, rule.kind);
    LookUpReason(i, best, rule.kind);
    OneEntry(i, rule, best);
    OneEntry(i, rule, current);
  }

  lemma {:induction false} BandsReason(i: Inputs, rules: seq<ThresholdRule>, current: Id, best: Id, from: nat)
    requires Sound(i) && from <= |rules|
    requires forall k :: 0 <= k < |rules| ==> rules[k].Valid() && i.semantics.Covers(rules[k].kind)
    ensures var stop := BandStop(rules[from..], i.semantics.evidence, i.evidence, current, best, i.now);
            stop.Some? ==> exists k :: from <= k < |rules| && BandReason(i, current, best, rules[k], stop.value)
    decreases |rules| - from
  {
    if from < |rules| {
      hide LookUp, Sound, ThresholdRule.Valid, Semantics.Covers, OneBandStop, BandReason, RequirementFor;
      BandsReason(i, rules, current, best, from + 1);
      assert rules[from..][1..] == rules[from + 1..];
      OneBandReason(i, rules[from], current, best);
    }
  }

  lemma OneImprovementReason(i: Inputs, rule: ImprovementRule, current: Id, best: Id, reverse: bool)
    requires Sound(i) && i.semantics.Covers(rule.kind)
    ensures RequirementFor(i.semantics.evidence, rule.kind).Some?
    ensures var r := RequirementFor(i.semantics.evidence, rule.kind).value;
            var stop := OneImprovementStop(rule, LookUp(i.evidence, current, r, i.now),
                                           LookUp(i.evidence, best, r, i.now), reverse);
            stop.Some? ==> ImprovementReason(i, current, best, rule, reverse, stop.value)
  {
    hide LookUp, Sound, Semantics.Covers, RelativeImprovement, EvidenceReason, Readable;
    LookUpReason(i, current, rule.kind);
    LookUpReason(i, best, rule.kind);
    var r := RequirementFor(i.semantics.evidence, rule.kind).value;
    var left, entered := LookUp(i.evidence, current, r, i.now), LookUp(i.evidence, best, r, i.now);
    if left.Found? && entered.Found? {
      ImprovementIsExact(left.value, entered.value);
    }
  }

  lemma {:induction false} ImprovementsReason(
    i: Inputs, rules: seq<ImprovementRule>, current: Id, best: Id, reverse: bool, from: nat)
    requires Sound(i) && from <= |rules|
    requires forall k :: 0 <= k < |rules| ==> i.semantics.Covers(rules[k].kind)
    ensures var stop := ImprovementStop(rules[from..], i.semantics.evidence, i.evidence, current, best, i.now, reverse);
            stop.Some? ==>
              exists k :: from <= k < |rules| && ImprovementReason(i, current, best, rules[k], reverse, stop.value)
    decreases |rules| - from
  {
    if from < |rules| {
      hide LookUp, Sound, Semantics.Covers, OneImprovementStop, ImprovementReason, RequirementFor;
      ImprovementsReason(i, rules, current, best, reverse, from + 1);
      assert rules[from..][1..] == rules[from + 1..];
      OneImprovementReason(i, rules[from], current, best, reverse);
    }
  }

  // A first preference is stopped by a band its path does not clear.
  ghost predicate EntryReason(i: Inputs, best: Id, rule: ThresholdRule, stop: Stop)
  {
    || (stop == Stop(BAND_NOT_CLEARED, HYSTERESIS_NOT_CLEARED) && Readable(i, best, rule.kind)
        && !Clears(i, best, rule))
    || (EvidenceReason(stop) && !Readable(i, best, rule.kind))
  }

  lemma {:induction false} EntriesReason(i: Inputs, rules: seq<ThresholdRule>, best: Id, from: nat)
    requires Sound(i) && from <= |rules|
    requires forall k :: 0 <= k < |rules| ==> rules[k].Valid() && i.semantics.Covers(rules[k].kind)
    ensures var stop := EntryStop(rules[from..], i.semantics.evidence, i.evidence, best, i.now);
            stop.Some? ==> exists k :: from <= k < |rules| && EntryReason(i, best, rules[k], stop.value)
    decreases |rules| - from
  {
    if from < |rules| {
      hide LookUp, Sound, ThresholdRule.Valid, Semantics.Covers, ThresholdRule.PermitsEntry, Clears, RequirementFor,
           EvidenceReason, Readable;
      EntriesReason(i, rules, best, from + 1);
      assert rules[from..][1..] == rules[from + 1..];
      LookUpReason(i, best, rules[from].kind);
      OneEntry(i, rules[from], best);
      var stop := EntryStop(rules[from..], i.semantics.evidence, i.evidence, best, i.now);
      assert stop.Some? && !Clears(i, best, rules[from]) ==> EntryReason(i, best, rules[from], stop.value);
    }
  }

  // One of the reasons an ordinary adaptation is suppressed for, and it holds.
  ghost predicate OrdinaryReason(i: Inputs, best: Id, stop: Stop)
  {
    var sem, t, current, reverse := i.semantics, i.timing, i.preference.preferred, Reverses(i, best);
    || (stop == Stop(HELD_DOWN, HOLD_DOWN_ACTIVE) && t.holdDownActive && reverse && sem.holdDown != 0
        && i.now < t.holdDownDeadline)
    || (stop == Stop(COOLING_DOWN, COOLDOWN_ACTIVE) && t.cooldownActive && i.now < t.cooldownDeadline)
    || (exists k :: 0 <= k < |sem.thresholds| && BandReason(i, current, best, sem.thresholds[k], stop))
    || (exists k ::
          0 <= k < |sem.improvements| && ImprovementReason(i, current, best, sem.improvements[k], reverse, stop))
    || (stop == Stop(CHURN_EXHAUSTED, CHURN_LIMIT_REACHED) && sem.churn.max != 0
        && sem.churn.max <= |Stamped(t.churn, i.now, sem.churn.window)|)
  }

  lemma OrdinaryStopIsTrue(i: Inputs, best: Id)
    requires Sound(i) && OrdinaryStop(i, best).Some?
    ensures OrdinaryReason(i, best, OrdinaryStop(i, best).value)
  {
    hide BandStop, ImprovementStop, Recent, BandReason, ImprovementReason, Sound, Semantics.Valid, ThresholdRule.Valid,
         Semantics.Covers, EvaluatedHoldDown, Stamped;
    SoundIsValid(i);
    ValidRules(i.semantics);
    BandsReason(i, i.semantics.thresholds, i.preference.preferred, best, 0);
    ImprovementsReason(i, i.semantics.improvements, i.preference.preferred, best, Reverses(i, best), 0);
    assert i.semantics.thresholds[0..] == i.semantics.thresholds;
    assert i.semantics.improvements[0..] == i.semantics.improvements;
    RecentIsExact(i.timing.churn, i.now, i.semantics.churn.window);
    HeldOnlyWhenDeclared(i.semantics, i.timing.penalty);
  }

  lemma IncumbentStopIsTrue(ranking: seq<Scored>, current: Id)
    ensures match IncumbentStop(ranking, current)
            case None => true
            case Some(stop) =>
              stop == Stop(CURRENT_PREFERENCE_INELIGIBLE, REVALIDATION_REQUIRED) || EvidenceReason(stop)
  {
    hide EntryOf;
  }

  // Why a best candidate is not made the preference.
  ghost predicate Reported(i: Inputs, best: Id, stop: Stop)
  {
    if !i.preference.established then
      exists k :: 0 <= k < |i.semantics.thresholds| && EntryReason(i, best, i.semantics.thresholds[k], stop)
    else if best == i.preference.preferred then stop == Stop(MERIT_NOT_ESTABLISHED, NO_CHANGE)
    else
      || (!Incumbent(i)
          && (stop == Stop(CURRENT_PREFERENCE_INELIGIBLE, REVALIDATION_REQUIRED) || EvidenceReason(stop)))
      || OrdinaryReason(i, best, stop)
  }

  lemma AdaptReason(i: Inputs, best: Scored, ranking: seq<Scored>)
    requires Sound(i) && i.preference.established
    requires ranking == Ranked(Judged(i.semantics, i.candidates, i.evidence, i.now), i.semantics.objective)
    ensures var v := Adapt(i, best, ranking);
            v.lifecycle != ELIGIBLE ==> Reported(i, best.path, Stop(v.suppression, v.outcome))
  {
    hide IncumbentStop, OrdinaryStop, EmergencyHolds, OrdinaryReason, Incumbent, Ranked, Judged, Sound, Find, Proposal,
         EvidenceReason;
    IncumbentIsExact(i);
    IncumbentStopIsTrue(ranking, i.preference.preferred);
    if OrdinaryStop(i, best.path).Some? {
      OrdinaryStopIsTrue(i, best.path);
    }
  }

  lemma EstablishReason(i: Inputs, best: Scored, ranking: seq<Scored>)
    requires Sound(i) && !i.preference.established
    ensures var v := Establish(i, best, ranking);
            v.lifecycle != ELIGIBLE ==> Reported(i, best.path, Stop(v.suppression, v.outcome))
  {
    hide EntryStop, EntryReason, Sound, Semantics.Valid, ThresholdRule.Valid, Semantics.Covers;
    SoundIsValid(i);
    ValidRules(i.semantics);
    EntriesReason(i, i.semantics.thresholds, best.path, 0);
    assert i.semantics.thresholds[0..] == i.semantics.thresholds;
  }

  // A suppressed verdict reports a reason that holds, under its outcome: no change
  // is reported without its reason.
  lemma ReasonIsTrue(i: Inputs, c: Candidate)
    requires Sound(i) && IsBest(i, c) && Decide(i).lifecycle != ELIGIBLE
    ensures Decide(i).lifecycle == SUPPRESSED_DECISION
    ensures Reported(i, PathOf(c), Stop(Decide(i).suppression, Decide(i).outcome))
  {
    hide Establish, Adapt, Ranked, Judged, FirstEligible, Judge, IsBest, Sound, Reported;
    SoundIsValid(i);
    HeadIsBest(i);
    BestIsAccepted(i, c);
    var ranking := Ranked(Judged(i.semantics, i.candidates, i.evidence, i.now), i.semantics.objective);
    var d :| IsBest(i, d) && FirstEligible(ranking) == Some(Judge(i.semantics, d, i.evidence, i.now));
    BestIsOne(i, c, d);
    JudgedIs(i.semantics, c, i.evidence, i.now);
    var x := Judge(i.semantics, c, i.evidence, i.now);
    SuppressedOtherwise(i, x, ranking);
    if i.preference.established {
      AdaptReason(i, x, ranking);
    } else {
      EstablishReason(i, x, ranking);
    }
  }

  lemma SuppressedOtherwise(i: Inputs, best: Scored, ranking: seq<Scored>)
    ensures Establish(i, best, ranking).lifecycle in {ELIGIBLE, SUPPRESSED_DECISION}
    ensures Adapt(i, best, ranking).lifecycle in {ELIGIBLE, SUPPRESSED_DECISION}
  {
    hide EntryStop, IncumbentStop, OrdinaryStop, EmergencyHolds, Find, Proposal;
  }
}
