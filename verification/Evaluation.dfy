// Phase one: judging every candidate, ranking them and deciding whether an
// adaptation is due (src/fabric_evaluate.cpp, evaluate_inputs).

module Evaluation {
  import opened Base
  import opened Metrics
  import opened Scoring
  import opened Evidence
  import opened Outcomes
  import opened Policy
  import opened Records
  import opened Ranking

  // ------------------------------------------------------------------------
  // The evidence snapshot
  // ------------------------------------------------------------------------

  datatype Slot = Slot(path: Id, kind: MetricKind)
  type Snapshot = map<Slot, Resolved>

  datatype Lookup = Found(value: Reading, quality: Quality) | Missing(reason: Suppression)

  function Age(v: Resolved, now: Ticks): Ticks { if now >= v.newest then now - v.newest else 0 }

  function Window(v: Resolved): Ticks { if v.newest >= v.oldest then v.newest - v.oldest else 0 }

  function LookUp(evidence: Snapshot, path: Id, r: Requirement, now: Ticks): Lookup
  {
    if Slot(path, r.kind) !in evidence then Missing(EVIDENCE_UNKNOWN)
    else
      var v := evidence[Slot(path, r.kind)];
      if v.count == 0 || v.value.NoMetric? then Missing(EVIDENCE_UNKNOWN)
      else if v.quality.Rank() < r.minQuality.Rank() then Missing(EVIDENCE_UNKNOWN)
      else if v.count < r.minSamples then Missing(INSUFFICIENT_SAMPLES)
      else if Age(v, now) > r.maxAge then Missing(EVIDENCE_STALE)
      else if Window(v) < r.minWindow then Missing(INSUFFICIENT_SAMPLES)
      else Found(v.value, v.quality)
  }

  // The evidence one policy's evaluation reads: what every requirement resolves
  // to for every candidate.
  ghost function CapturedFor(store: Store, path: Id, rs: seq<Requirement>, base: Snapshot): Snapshot
  {
    if rs == [] then base
    else
      var r := rs[|rs| - 1];
      var before := CapturedFor(store, path, rs[..|rs| - 1], base);
      match AggregateFor(store, path, r)
      case None => before
      case Some(v) => before[Slot(path, r.kind) := v]
  }

  ghost function Captured(store: Store, cs: seq<Candidate>, rs: seq<Requirement>): Snapshot
  {
    if cs == [] then map[]
    else CapturedFor(store, PathOf(cs[|cs| - 1]), rs, Captured(store, cs[..|cs| - 1], rs))
  }

  ghost predicate DistinctKinds(rs: seq<Requirement>)
  {
    forall i, j :: 0 <= i < j < |rs| ==> rs[i].kind != rs[j].kind
  }

  // What a snapshot entry says about one path and kind.
  ghost predicate EntryMatches(store: Store, rs: seq<Requirement>, m: Snapshot, k: Slot)
  {
    match RequirementFor(rs, k.kind)
    case None => k !in m
    case Some(r) =>
      match AggregateFor(store, k.path, r)
      case None => k !in m
      case Some(v) => k in m && m[k] == v
  }

  lemma {:induction false} CapturedForEntry(store: Store, path: Id, rs: seq<Requirement>, base: Snapshot, k: Slot)
    requires DistinctKinds(rs)
    ensures k.path != path ==> (k in CapturedFor(store, path, rs, base) <==> k in base)
    ensures k.path != path && k in base ==> CapturedFor(store, path, rs, base)[k] == base[k]
    ensures k.path == path && k !in base ==> EntryMatches(store, rs, CapturedFor(store, path, rs, base), k)
  {
    if rs != [] {
      var init := rs[..|rs| - 1];
      CapturedForEntry(store, path, init, base, k);
      LastRequirement(rs, k.kind);
    }
  }

  lemma {:induction false} LastRequirement(rs: seq<Requirement>, kind: MetricKind)
    requires DistinctKinds(rs) && rs != []
    ensures var init, last := rs[..|rs| - 1], rs[|rs| - 1];
            RequirementFor(rs, kind) == if last.kind == kind then Some(last) else RequirementFor(init, kind)
  {
    if |rs| > 1 {
      assert rs[1..][..|rs| - 2] == rs[..|rs| - 1][1..];
      LastRequirement(rs[1..], kind);
    }
  }

  // The snapshot answers, for every candidate and every declared metric, with
  // exactly what the store resolves at the moment of capture, and with nothing
  // else: whatever is published afterwards, the evaluation does not see it.
  lemma {:induction false} SnapshotIsExact(store: Store, cs: seq<Candidate>, rs: seq<Requirement>, k: Slot)
    requires DistinctKinds(rs) && forall i, j :: 0 <= i < j < |cs| ==> PathOf(cs[i]) != PathOf(cs[j])
    ensures k.path in Paths(cs) ==> EntryMatches(store, rs, Captured(store, cs, rs), k)
    ensures k.path !in Paths(cs) ==> k !in Captured(store, cs, rs)
  {
    if cs != [] {
      var init, last := cs[..|cs| - 1], cs[|cs| - 1];
      assert cs == init + [last];
      assert Paths(cs) == Paths(init) + {PathOf(last)};
      assert PathOf(last) !in Paths(init);
      SnapshotIsExact(store, init, rs, k);
      CapturedForEntry(store, PathOf(last), rs, Captured(store, init, rs), k);
    }
  }

  // Everything an evaluation reads, copied out before the lock is released.
  datatype Inputs = Inputs(
    semantics: Semantics, candidates: seq<Candidate>, preference: Preference, timing: Timing,
    evidence: Snapshot, now: Ticks)

  // ------------------------------------------------------------------------
  // Eligibility
  // ------------------------------------------------------------------------

  predicate InTargetSet(target: Target, b: Binding)
  {
    target.multipath.Some? ==>
      && b.multipath.Some? && b.multipath.value.current
      && b.multipath.value.set_ == target.multipath.value && b.path in b.multipath.value.members
  }

  function BindingRefusal(target: Target, b: Binding): Option<Outcome>
  {
    if !b.authority.legal then Some(STALE_PATH_AUTHORITY)
    else if !b.route.current then Some(STALE_ROUTE)
    else if !b.available then Some(WITHDRAWN_UPSTREAM)
    else if !InTargetSet(target, b) then Some(STALE_MULTIPATH_SET)
    else None
  }

  // The last required metric that is missing, and the weakest quality used.
  datatype Gate = Gate(failure: Option<Suppression>, weakest: nat)

  function Pass(g: Gate, r: Requirement, l: Lookup): Gate
  {
    match l
    case Missing(reason) => if r.required then g.(failure := Some(reason)) else g
    case Found(_, quality) => g.(weakest := if quality.Rank() < g.weakest then quality.Rank() else g.weakest)
  }

  function EvidenceGate(rs: seq<Requirement>, evidence: Snapshot, path: Id, now: Ticks): Gate
  {
    if rs == [] then Gate(None, 4)
    else
      var r := rs[|rs| - 1];
      Pass(EvidenceGate(rs[..|rs| - 1], evidence, path, now), r, LookUp(evidence, path, r, now))
  }

  function QualityOf(weakest: nat): Quality
  {
    if weakest >= 4 then Primary else if weakest == 3 then Aggregated else if weakest == 2 then Operator else Estimated
  }

  datatype Gathered = Complete(values: seq<MetricValue>) | Incomplete(reason: Suppression)

  function TermLookup(kind: MetricKind, rs: seq<Requirement>, evidence: Snapshot, path: Id, now: Ticks): Lookup
  {
    match RequirementFor(rs, kind)
    case None => Missing(NO_TRIGGER_DECLARED)
    case Some(r) => LookUp(evidence, path, r, now)
  }

  // One reading per objective term; the first missing one stops the scan.
  function Gather(terms: seq<ObjectiveTerm>, rs: seq<Requirement>, evidence: Snapshot, path: Id, now: Ticks): Gathered
  {
    if terms == [] then Complete([])
    else
      match Gather(terms[..|terms| - 1], rs, evidence, path, now)
      case Incomplete(reason) => Incomplete(reason)
      case Complete(values) =>
        match TermLookup(terms[|terms| - 1].kind, rs, evidence, path, now)
        case Missing(reason) => Incomplete(reason)
        case Found(value, _) => Complete(values + [value])
  }

  function Rejected(x: Scored, reason: Suppression, outcome: Outcome): Scored
  {
    x.(eligible := false, rejection := reason, refusal := outcome)
  }

  // Merit of a candidate that passed the gates.
  function Rated(x: Scored, objective: Objective, gathered: Gathered): Scored
  {
    match gathered
    case Incomplete(reason) => Rejected(x, reason, SuppressionOutcome(reason))
    case Complete(values) =>
      if objective.mode.Lexicographic? then x.(metrics := values)
      else
        match Score(objective.terms, values)
        case None => Rejected(x.(metrics := values), EVIDENCE_UNKNOWN, INCOMPATIBLE_METRIC)
        case Some(score) => x.(metrics := values, score := Some(score))
  }

  function Judge(sem: Semantics, c: Candidate, evidence: Snapshot, now: Ticks): Scored
  {
    var b := c.binding;
    var base := Scored(b.path, true, NONE, NO_CHANGE, Primary, None, [], PriorityOf(sem.priorities, b.path),
                       b.authority.generation);
    match BindingRefusal(sem.target, b)
    case Some(outcome) => Rejected(base, UPSTREAM_DEPENDENCY_STALE, outcome)
    case None =>
      var gate := EvidenceGate(sem.evidence, evidence, b.path, now);
      match gate.failure
      case Some(reason) => Rejected(base, reason, SuppressionOutcome(reason))
      case None =>
        Rated(base.(quality := QualityOf(gate.weakest)), sem.objective,
              Gather(sem.objective.terms, sem.evidence, evidence, b.path, now))
  }

  function Judged(sem: Semantics, cs: seq<Candidate>, evidence: Snapshot, now: Ticks): seq<Scored>
  {
    seq(|cs|, i requires 0 <= i < |cs| => Judge(sem, cs[i], evidence, now))
  }

  // ------------------------------------------------------------------------
  // Reasons not to adapt
  // ------------------------------------------------------------------------

  datatype Stop = Stop(suppression: Suppression, outcome: Outcome)

  function OrElse(a: Option<Stop>, b: Option<Stop>): Option<Stop> { if a.Some? then a else b }

  function Because(reason: Suppression): Stop { Stop(reason, SuppressionOutcome(reason)) }

  // The first preference is established only on a path that clears every band.
  function EntryStop(rules: seq<ThresholdRule>, rs: seq<Requirement>, evidence: Snapshot, best: Id,
                     now: Ticks): Option<Stop>
  {
    if rules == [] then None
    else
      match RequirementFor(rs, rules[0].kind)
      case None => Some(Stop(NO_TRIGGER_DECLARED, NO_CHANGE))
      case Some(r) =>
        match LookUp(evidence, best, r, now)
        case Missing(reason) => Some(Because(reason))
        case Found(value, _) =>
          if !rules[0].PermitsEntry(value) then Some(Because(BAND_NOT_CLEARED))
          else EntryStop(rules[1..], rs, evidence, best, now)
  }

  // One band: the current path must have crossed it and the candidate cleared it.
  function OneBandStop(rule: ThresholdRule, current: Lookup, candidate: Lookup): Option<Stop>
  {
    match current
    case Missing(reason) => Some(Because(reason))
    case Found(left, _) =>
      match candidate
      case Missing(reason) => Some(Because(reason))
      case Found(entered, _) =>
        if !rule.PermitsDeparture(left) then Some(Stop(BELOW_THRESHOLD, NO_CHANGE))
        else if !rule.PermitsEntry(entered) then Some(Because(BAND_NOT_CLEARED))
        else None
  }

  function BandStop(
    rules: seq<ThresholdRule>, rs: seq<Requirement>, evidence: Snapshot, current: Id, best: Id,
    now: Ticks): Option<Stop>
  {
    if rules == [] then None
    else
      match RequirementFor(rs, rules[0].kind)
      case None => Some(Because(BAND_NOT_CLEARED))
      case Some(r) =>
        OrElse(OneBandStop(rules[0], LookUp(evidence, current, r, now), LookUp(evidence, best, r, now)),
               BandStop(rules[1..], rs, evidence, current, best, now))
  }

  // Restoring the previous preference has its own, usually larger, requirement.
  function OneImprovementStop(rule: ImprovementRule, current: Lookup, candidate: Lookup, reverse: bool): Option<Stop>
  {
    match current
    case Missing(reason) => Some(Because(reason))
    case Found(left, _) =>
      match candidate
      case Missing(reason) => Some(Because(reason))
      case Found(entered, _) =>
        match RelativeImprovement(left, entered)
        case None => Some(Stop(BELOW_THRESHOLD, INCOMPATIBLE_METRIC))
        case Some(improvement) =>
          if improvement < (if reverse then rule.reverse else rule.forward)
          then Some(Because(if reverse then BAND_NOT_CLEARED else BELOW_THRESHOLD))
          else None
  }

  function ImprovementStop(
    rules: seq<ImprovementRule>, rs: seq<Requirement>, evidence: Snapshot, current: Id, best: Id, now: Ticks,
    reverse: bool): Option<Stop>
  {
    if rules == [] then None
    else
      match RequirementFor(rs, rules[0].kind)
      case None => Some(Stop(BELOW_THRESHOLD, NO_CHANGE))
      case Some(r) =>
        OrElse(OneImprovementStop(rules[0], LookUp(evidence, current, r, now), LookUp(evidence, best, r, now), reverse),
               ImprovementStop(rules[1..], rs, evidence, current, best, now, reverse))
  }

  predicate InWindow(stamp: Ticks, now: Ticks, window: Ticks) { now >= stamp && now - stamp <= window }

  function Recent(stamps: seq<Ticks>, now: Ticks, window: Ticks): nat
  {
    if stamps == [] then 0
    else Recent(stamps[..|stamps| - 1], now, window) + (if InWindow(stamps[|stamps| - 1], now, window) then 1 else 0)
  }

  predicate ChurnExhausted(churn: Churn, stamps: seq<Ticks>, now: Ticks)
  {
    churn.Enabled() && Recent(stamps, now, churn.window) >= churn.max
  }

  // The dampened hold-down: every product and sum wraps as the source's do.
  function Escalated(sem: Semantics, penalty: u32): Ticks
  {
    Min(WrapAdd(sem.holdDown, WrapMul(penalty, sem.dampening.escalation)), sem.dampening.maxHoldDown)
  }

  function EvaluatedHoldDown(sem: Semantics, penalty: u32): Ticks
  {
    if sem.dampening.enabled && penalty != 0 && Escalated(sem, penalty) > sem.holdDown
    then Escalated(sem, penalty) else sem.holdDown
  }

  function TimerStop(sem: Semantics, timing: Timing, reverse: bool, now: Ticks): Option<Stop>
  {
    if timing.holdDownActive && EvaluatedHoldDown(sem, timing.penalty) != 0 && reverse && now < timing.holdDownDeadline
    then Some(Because(HELD_DOWN))
    else if timing.cooldownActive && now < timing.cooldownDeadline then Some(Because(COOLING_DOWN))
    else None
  }

  function ChurnStop(sem: Semantics, timing: Timing, now: Ticks): Option<Stop>
  {
    if ChurnExhausted(sem.churn, timing.churn, now) then Some(Because(CHURN_EXHAUSTED)) else None
  }

  function OrdinaryStop(i: Inputs, best: Id): Option<Stop>
  {
    var current, sem := i.preference.preferred, i.semantics;
    var reverse := ValidId(i.preference.previous) && i.preference.previous == best;
    OrElse(TimerStop(sem, i.timing, reverse, i.now),
      OrElse(BandStop(sem.thresholds, sem.evidence, i.evidence, current, best, i.now),
        OrElse(ImprovementStop(sem.improvements, sem.evidence, i.evidence, current, best, i.now, reverse),
               ChurnStop(sem, i.timing, i.now))))
  }

  function EntryOf(ranking: seq<Scored>, path: Id): Option<Scored>
  {
    if ranking == [] then None
    else if ranking[0].path == path then Some(ranking[0])
    else EntryOf(ranking[1..], path)
  }

  // A current preference that is no longer eligible is no baseline for an
  // ordinary adaptation; its own evidence problem is reported when it has one.
  function IncumbentStop(ranking: seq<Scored>, current: Id): Option<Stop>
  {
    match EntryOf(ranking, current)
    case None => Some(Because(CURRENT_PREFERENCE_INELIGIBLE))
    case Some(entry) =>
      if entry.eligible then None
      else if entry.rejection == EVIDENCE_STALE || entry.rejection == INSUFFICIENT_SAMPLES
              || entry.rejection == EVIDENCE_UNKNOWN then Some(Because(entry.rejection))
      else Some(Because(CURRENT_PREFERENCE_INELIGIBLE))
  }

  predicate EmergencyHolds(e: Emergency, current: Option<Candidate>)
  {
    && e.enabled
    && (|| (e.unauthorized && (current.None? || !current.value.binding.authority.legal))
        || (e.unavailable && (current.None? || !current.value.binding.available))
        || (e.hardFailure && current.Some? && current.value.binding.hardFailure))
  }

  // All the weight on the best path, offered against its current weights.
  function Proposal(i: Inputs, best: Id): Option<WeightProposal>
  {
    var c := Find(i.candidates, best);
    if i.semantics.target.multipath.None? || c.None? || c.value.binding.weighted.None? then None
    else
      var w := c.value.binding.weighted.value;
      var proposal := WeightProposal(w.set_, w.generation,
        seq(|i.candidates|, k requires 0 <= k < |i.candidates| =>
          PathWeight(PathOf(i.candidates[k]), if PathOf(i.candidates[k]) == best then BASIS_POINTS else 0)));
      if proposal.WellFormed() then Some(proposal) else None
  }

  // ------------------------------------------------------------------------
  // The decision
  // ------------------------------------------------------------------------

  datatype Verdict = Verdict(
    lifecycle: DecisionLifecycle, suppression: Suppression, outcome: Outcome, target: Id, targetAuthority: u64,
    emergency: bool, proposal: Option<WeightProposal>, ranking: seq<Scored>)

  function Suppressed(stop: Stop, target: Id, authority: u64, emergency: bool, ranking: seq<Scored>): Verdict
  {
    Verdict(SUPPRESSED_DECISION, stop.suppression, stop.outcome, target, authority, emergency, None, ranking)
  }

  function Establish(i: Inputs, best: Scored, ranking: seq<Scored>): Verdict
  {
    match EntryStop(i.semantics.thresholds, i.semantics.evidence, i.evidence, best.path, i.now)
    case Some(stop) => Suppressed(stop, NO_ID, 0, false, ranking)
    case None => Verdict(ELIGIBLE, NONE, NO_CHANGE, best.path, best.authority, false, None, ranking)
  }

  function Adapt(i: Inputs, best: Scored, ranking: seq<Scored>): Verdict
  {
    var emergency := EmergencyHolds(i.semantics.emergency, Find(i.candidates, i.preference.preferred));
    if best.path == i.preference.preferred then
      Suppressed(Stop(MERIT_NOT_ESTABLISHED, NO_CHANGE), best.path, best.authority, emergency, ranking)
    else
      var incumbent := IncumbentStop(ranking, i.preference.preferred);
      var stop := if emergency then None else OrElse(incumbent, OrdinaryStop(i, best.path));
      if stop.Some? then Suppressed(stop.value, best.path, best.authority, emergency, ranking)
      else
        var note := if incumbent.Some? then incumbent.value else Stop(NONE, NO_CHANGE);
        Verdict(ELIGIBLE, note.suppression, note.outcome, best.path, best.authority, emergency,
                Proposal(i, best.path), ranking)
  }

  function Decide(i: Inputs): Verdict
  {
    var ranking := Ranked(Judged(i.semantics, i.candidates, i.evidence, i.now), i.semantics.objective);
    match FirstEligible(ranking)
    case None => Suppressed(Because(NO_ELIGIBLE_ALTERNATIVE), NO_ID, 0, false, ranking)
    case Some(best) => if i.preference.established then Adapt(i, best, ranking) else Establish(i, best, ranking)
  }

  // ------------------------------------------------------------------------
  // The loops
  // ------------------------------------------------------------------------

  method CaptureEvidence(store: Store, cs: seq<Candidate>, rs: seq<Requirement>) returns (snapshot: Snapshot)
    ensures snapshot == Captured(store, cs, rs)
  {
    snapshot := map[];
    for i := 0 to |cs|
      invariant snapshot == Captured(store, cs[..i], rs)
    {
      assert cs[..i + 1][..i] == cs[..i];
      for j := 0 to |rs|
        invariant snapshot == CapturedFor(store, PathOf(cs[i]), rs[..j], Captured(store, cs[..i], rs))
      {
        assert rs[..j + 1][..j] == rs[..j];
        var resolved := ComputeAggregate(store, PathOf(cs[i]), rs[j]);
        if resolved.Some? {
          snapshot := snapshot[Slot(PathOf(cs[i]), rs[j].kind) := resolved.value];
        }
      }
      assert rs[..|rs|] == rs;
    }
    assert cs[..|cs|] == cs;
  }

  method JudgeCandidate(sem: Semantics, c: Candidate, evidence: Snapshot, now: Ticks) returns (x: Scored)
    ensures x == Judge(sem, c, evidence, now)
  {
    var b := c.binding;
    x := Scored(b.path, true, NONE, NO_CHANGE, Primary, None, [], PriorityOf(sem.priorities, b.path),
                b.authority.generation);
    var refusal := BindingRefusal(sem.target, b);
    if refusal.Some? {
      return Rejected(x, UPSTREAM_DEPENDENCY_STALE, refusal.value);
    }
    var gate := Gate(None, 4);
    for k := 0 to |sem.evidence|
      invariant gate == EvidenceGate(sem.evidence[..k], evidence, b.path, now)
    {
      assert sem.evidence[..k + 1][..k] == sem.evidence[..k];
      gate := Pass(gate, sem.evidence[k], LookUp(evidence, b.path, sem.evidence[k], now));
    }
    assert sem.evidence[..|sem.evidence|] == sem.evidence;
    if gate.failure.Some? {
      return Rejected(x, gate.failure.value, SuppressionOutcome(gate.failure.value));
    }
    var gathered := GatherTerms(sem.objective.terms, sem.evidence, evidence, b.path, now);
    x := Rated(x.(quality := QualityOf(gate.weakest)), sem.objective, gathered);
  }

  method GatherTerms(terms: seq<ObjectiveTerm>, rs: seq<Requirement>, evidence: Snapshot, path: Id, now: Ticks)
    returns (gathered: Gathered)
    ensures gathered == Gather(terms, rs, evidence, path, now)
  {
    var values: seq<MetricValue> := [];
    for k := 0 to |terms|
      invariant Gather(terms[..k], rs, evidence, path, now) == Complete(values)
    {
      assert terms[..k + 1][..k] == terms[..k];
      var found := TermLookup(terms[k].kind, rs, evidence, path, now);
      if found.Missing? {
        IncompleteStays(terms, rs, evidence, path, now, k + 1);
        return Incomplete(found.reason);
      }
      values := values + [found.value];
    }
    assert terms[..|terms|] == terms;
    return Complete(values);
  }

  lemma {:induction false} IncompleteStays(
    terms: seq<ObjectiveTerm>, rs: seq<Requirement>, evidence: Snapshot, path: Id, now: Ticks, n: nat)
    requires n <= |terms| && Gather(terms[..n], rs, evidence, path, now).Incomplete?
    ensures Gather(terms, rs, evidence, path, now) == Gather(terms[..n], rs, evidence, path, now)
    decreases |terms| - n
  {
    if n == |terms| {
      assert terms[..n] == terms;
    } else {
      assert terms[..n + 1][..n] == terms[..n];
      IncompleteStays(terms, rs, evidence, path, now, n + 1);
    }
  }

  method CountRecent(stamps: seq<Ticks>, now: Ticks, window: Ticks) returns (recent: nat)
    ensures recent == Recent(stamps, now, window)
  {
    recent := 0;
    for k := 0 to |stamps|
      invariant recent == Recent(stamps[..k], now, window)
    {
      assert stamps[..k + 1][..k] == stamps[..k];
      if now >= stamps[k] && now - stamps[k] <= window {
        recent := recent + 1;
      }
    }
    assert stamps[..|stamps|] == stamps;
  }

  method CheckEntry(rules: seq<ThresholdRule>, rs: seq<Requirement>, evidence: Snapshot, best: Id, now: Ticks)
    returns (stop: Option<Stop>)
    ensures stop == EntryStop(rules, rs, evidence, best, now)
  {
    for k := 0 to |rules|
      invariant EntryStop(rules, rs, evidence, best, now) == EntryStop(rules[k..], rs, evidence, best, now)
    {
      assert rules[k..][1..] == rules[k + 1..];
      var requirement := RequirementFor(rs, rules[k].kind);
      if requirement.None? {
        return Some(Stop(NO_TRIGGER_DECLARED, NO_CHANGE));
      }
      var found := LookUp(evidence, best, requirement.value, now);
      if found.Missing? {
        return Some(Because(found.reason));
      }
      if !rules[k].PermitsEntry(found.value) {
        return Some(Because(BAND_NOT_CLEARED));
      }
    }
    return None;
  }

  method CheckBands(
    rules: seq<ThresholdRule>, rs: seq<Requirement>, evidence: Snapshot, current: Id, best: Id, now: Ticks)
    returns (stop: Option<Stop>)
    ensures stop == BandStop(rules, rs, evidence, current, best, now)
  {
    for k := 0 to |rules|
      invariant BandStop(rules, rs, evidence, current, best, now)
             == BandStop(rules[k..], rs, evidence, current, best, now)
    {
      assert rules[k..][1..] == rules[k + 1..];
      var requirement := RequirementFor(rs, rules[k].kind);
      if requirement.None? {
        return Some(Because(BAND_NOT_CLEARED));
      }
      stop := OneBandStop(rules[k], LookUp(evidence, current, requirement.value, now),
                          LookUp(evidence, best, requirement.value, now));
      if stop.Some? {
        return;
      }
    }
    return None;
  }

  method CheckImprovements(
    rules: seq<ImprovementRule>, rs: seq<Requirement>, evidence: Snapshot, current: Id, best: Id, now: Ticks,
    reverse: bool) returns (stop: Option<Stop>)
    ensures stop == ImprovementStop(rules, rs, evidence, current, best, now, reverse)
  {
    for k := 0 to |rules|
      invariant ImprovementStop(rules, rs, evidence, current, best, now, reverse)
             == ImprovementStop(rules[k..], rs, evidence, current, best, now, reverse)
    {
      assert rules[k..][1..] == rules[k + 1..];
      var requirement := RequirementFor(rs, rules[k].kind);
      if requirement.None? {
        return Some(Stop(BELOW_THRESHOLD, NO_CHANGE));
      }
      stop := OneImprovementStop(rules[k], LookUp(evidence, current, requirement.value, now),
                                 LookUp(evidence, best, requirement.value, now), reverse);
      if stop.Some? {
        return;
      }
    }
    return None;
  }

  // Phase one: the ticket is filled in loop by loop and the first reason not
  // to adapt ends the evaluation.
  method EvaluateInputs(i: Inputs) returns (v: Verdict)
    ensures v == Decide(i)
  {
    var judged: seq<Scored> := [];
    for k := 0 to |i.candidates|
      invariant judged == Judged(i.semantics, i.candidates[..k], i.evidence, i.now)
    {
      var x := JudgeCandidate(i.semantics, i.candidates[k], i.evidence, i.now);
      judged := judged + [x];
    }
    assert i.candidates[..|i.candidates|] == i.candidates;
    var ranking := Ranked(judged, i.semantics.objective);
    var best := FirstEligible(ranking);
    if best.None? {
      return Suppressed(Because(NO_ELIGIBLE_ALTERNATIVE), NO_ID, 0, false, ranking);
    }
    if i.preference.established {
      v := EvaluateAdaptation(i, best.value, ranking);
    } else {
      var stop := CheckEntry(i.semantics.thresholds, i.semantics.evidence, i.evidence, best.value.path, i.now);
      if stop.Some? {
        return Suppressed(stop.value, NO_ID, 0, false, ranking);
      }
      v := Verdict(ELIGIBLE, NONE, NO_CHANGE, best.value.path, best.value.authority, false, None, ranking);
    }
  }

  method EvaluateAdaptation(i: Inputs, best: Scored, ranking: seq<Scored>) returns (v: Verdict)
    ensures v == Adapt(i, best, ranking)
  {
    var current := i.preference.preferred;
    var emergency := EmergencyHolds(i.semantics.emergency, Find(i.candidates, current));
    if best.path == current {
      return Suppressed(Stop(MERIT_NOT_ESTABLISHED, NO_CHANGE), best.path, best.authority, emergency, ranking);
    }
    var incumbent := IncumbentStop(ranking, current);
    if !emergency {
      var stop := incumbent;
      if stop.None? {
        stop := CheckOrdinary(i, best.path);
      }
      if stop.Some? {
        return Suppressed(stop.value, best.path, best.authority, emergency, ranking);
      }
    }
    var note := if incumbent.Some? then incumbent.value else Stop(NONE, NO_CHANGE);
    v := Verdict(ELIGIBLE, note.suppression, note.outcome, best.path, best.authority, emergency,
                 Proposal(i, best.path), ranking);
  }

  method CheckOrdinary(i: Inputs, best: Id) returns (stop: Option<Stop>)
    ensures stop == OrdinaryStop(i, best)
  {
    var current, sem := i.preference.preferred, i.semantics;
    var reverse := ValidId(i.preference.previous) && i.preference.previous == best;
    stop := TimerStop(sem, i.timing, reverse, i.now);
    if stop.Some? {
      return;
    }
    stop := CheckBands(sem.thresholds, sem.evidence, i.evidence, current, best, i.now);
    if stop.Some? {
      return;
    }
    stop := CheckImprovements(sem.improvements, sem.evidence, i.evidence, current, best, i.now, reverse);
    if stop.Some? {
      return;
    }
    if sem.churn.Enabled() {
      var recent := CountRecent(i.timing.churn, i.now, sem.churn.window);
      if recent >= sem.churn.max {
        return Some(Because(CHURN_EXHAUSTED));
      }
    }
    return None;
  }
}
