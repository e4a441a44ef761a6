// How the fields of a stored policy are written and read: metrics, scope and
// semantics, in the order the store fixes (src/persistence.cpp). Every reader
// here refuses with Malformed; every writer states what its reader makes of it.

module StoreFields {
  import opened Base
  import opened Metrics
  import opened Aggregation
  import opened Scoring
  import opened Evidence
  import opened Policy
  import opened Codec

  // The bounds a store is read under: the default limits.
  const MAX_SCOPE_ENTRIES: u64 := 256
  const MAX_CANDIDATES: u64 := 32
  const MAX_THRESHOLDS: u64 := 8
  const MAX_REQUIREMENTS: u64 := 8
  const MAX_TERMS: u64 := 8

  // The longest identity of each domain.
  const POLICY_ID: nat := 96
  const NAME_ID: nat := 64
  const DECISION_ID: nat := 96
  const TRANSITION_ID: nat := 96
  const FABRIC_ID: nat := 64
  const NAMESPACE_ID: nat := 64
  const SITE_ID: nat := 64
  const CLASS_ID: nat := 32
  const PATH_ID: nat := 128
  const SET_ID: nat := 96
  const ROUTE_ID: nat := 96
  const PUBLISHER_ID: nat := 64
  const BOOT_ID: nat := 64
  const ATTEMPT_ID: nat := 64

  // ------------------------------------------------------------------------
  // Metrics
  // ------------------------------------------------------------------------

  function Kind(b: seq<byte>): Parse<MetricKind>
  {
    var (raw, b) :- U8(b, Malformed);
    if raw == 1 then Got(PathUtilization, b)
    else if raw == 2 then Got(LinkUtilization, b)
    else if raw == 3 then Got(PathLatency, b)
    else if raw == 4 then Got(QueuePressure, b)
    else if raw == 5 then Got(PacketLoss, b)
    else if raw == 6 then Got(ErrorRate, b)
    else if raw == 7 then Got(HealthDegradation, b)
    else if raw == 8 then Got(CongestionScore, b)
    else if raw == 9 then Got(PathQuality, b)
    else if raw == 10 then Got(OperatorPolicySignal, b)
    else Bad(Malformed)
  }

  function PutKind(k: MetricKind, rest: seq<byte>): (b: seq<byte>)
    ensures Kind(b) == Got(k, rest)
  {
    PutU8(k.Raw(), rest)
  }

  // A value travels with its kind's unit and version, and is refused when
  // either differs or the value is outside the range of its kind.
  function MetricOf(b: seq<byte>): Parse<MetricValue>
  {
    var (present, b) :- Bool(b, Malformed);
    if !present then Got(NoMetric, b)
    else
      var (kind, b) :- Kind(b);
      var (unit, b) :- U8(b, Malformed);
      var (version, b) :- U32(b, Malformed);
      var (value, b) :- I64(b, Malformed);
      if unit != kind.Unit() || version != METRIC_SEMANTICS_VERSION then Bad(Malformed)
      else
        match MakeMetric(kind, value)
        case None => Bad(Malformed)
        case Some(metric) => Got(metric, b)
  }

  function PutMetric(m: MetricValue, rest: seq<byte>): (b: seq<byte>)
    ensures MetricOf(b) == Got(m, rest)
  {
    match m
    case NoMetric => PutBool(false, rest)
    case Metric(kind, value) =>
      PutBool(true, PutKind(kind, PutU8(kind.Unit(), PutU32(METRIC_SEMANTICS_VERSION, PutI64(value, rest)))))
  }

  // ------------------------------------------------------------------------
  // Scope
  // ------------------------------------------------------------------------

  function RouteIdOf(b: seq<byte>): Parse<Id> { IdOf(b, ROUTE_ID, Malformed) }
  function SetIdOf(b: seq<byte>): Parse<Id> { IdOf(b, SET_ID, Malformed) }

  predicate IdsOk(ids: seq<Id>, maxLength: nat) { forall i :: 0 <= i < |ids| ==> IdOk(ids[i], maxLength) }

  predicate ScopeOk(s: PolicyScope)
  {
    && IdOk(s.fabric, FABRIC_ID) && IdOk(s.namespace, NAMESPACE_ID)
    && (s.site.Some? ==> IdOk(s.site.value, SITE_ID)) && MaybeIdOk(s.pathClass, CLASS_ID)
    && |s.routes| <= MAX_SCOPE_ENTRIES && IdsOk(s.routes, ROUTE_ID)
    && |s.sets| <= MAX_SCOPE_ENTRIES && IdsOk(s.sets, SET_ID)
    && s.WellFormed()
  }

  function ScopeOf(b: seq<byte>): Parse<PolicyScope>
  {
    var (fabric, b) :- IdOf(b, FABRIC_ID, Malformed);
    var (namespace, b) :- IdOf(b, NAMESPACE_ID, Malformed);
    var (site, b) :- OptionalId(b, SITE_ID, Malformed);
    var (pathClass, b) :- FlaggedId(b, CLASS_ID, Malformed);
    var (routes, b) :- ListOf(b, MAX_SCOPE_ENTRIES, Malformed, RouteIdOf);
    var (sets, b) :- ListOf(b, MAX_SCOPE_ENTRIES, Malformed, SetIdOf);
    var scope := PolicyScope(fabric, namespace, site, pathClass, routes, sets);
    if scope.WellFormed() then Got(scope, b) else Bad(Malformed)
  }

  function PutRouteIds(ids: seq<Id>, rest: seq<byte>): (b: seq<byte>)
    ensures |ids| <= MAX_SCOPE_ENTRIES && IdsOk(ids, ROUTE_ID) ==>
              ListOf(b, MAX_SCOPE_ENTRIES, Malformed, RouteIdOf) == Got(ids, rest)
  {
    ListTrip(ids, PutId, RouteIdOf, MAX_SCOPE_ENTRIES, Malformed, rest);
    PutList(ids, PutId, rest)
  }

  function PutSetIds(ids: seq<Id>, rest: seq<byte>): (b: seq<byte>)
    ensures |ids| <= MAX_SCOPE_ENTRIES && IdsOk(ids, SET_ID) ==>
              ListOf(b, MAX_SCOPE_ENTRIES, Malformed, SetIdOf) == Got(ids, rest)
  {
    ListTrip(ids, PutId, SetIdOf, MAX_SCOPE_ENTRIES, Malformed, rest);
    PutList(ids, PutId, rest)
  }

  function PutScope(s: PolicyScope, rest: seq<byte>): (b: seq<byte>)
    ensures ScopeOk(s) ==> ScopeOf(b) == Got(s, rest)
  {
    PutId(s.fabric, PutId(s.namespace, PutOptionalId(s.site, PutFlaggedId(s.pathClass,
      PutRouteIds(s.routes, PutSetIds(s.sets, rest))))))
  }

  // ------------------------------------------------------------------------
  // Trigger rules and evidence requirements
  // ------------------------------------------------------------------------

  function Threshold(b: seq<byte>): Parse<ThresholdRule>
  {
    var (kind, b) :- Kind(b);
    var (switch_, b) :- MetricOf(b);
    var (clear, b) :- MetricOf(b);
    Got(ThresholdRule(kind, switch_, clear), b)
  }

  function PutThreshold(r: ThresholdRule, rest: seq<byte>): (b: seq<byte>)
    ensures Threshold(b) == Got(r, rest)
  {
    PutKind(r.kind, PutMetric(r.switch_, PutMetric(r.clear, rest)))
  }

  function Improvement(b: seq<byte>): Parse<ImprovementRule>
  {
    var (kind, b) :- Kind(b);
    var (forward, b) :- U32(b, Malformed);
    var (reverse, b) :- U32(b, Malformed);
    Got(ImprovementRule(kind, forward, reverse), b)
  }

  function PutImprovement(r: ImprovementRule, rest: seq<byte>): (b: seq<byte>)
    ensures Improvement(b) == Got(r, rest)
  {
    PutKind(r.kind, PutU32(r.forward, PutU32(r.reverse, rest)))
  }

  function AggregationOf(b: seq<byte>): Parse<AggregationKind>
  {
    var (raw, b) :- U8(b, Malformed);
    if raw == 1 then Got(Minimum, b)
    else if raw == 2 then Got(Maximum, b)
    else if raw == 3 then Got(Mean, b)
    else if raw == 4 then Got(Median, b)
    else if raw == 5 then Got(Percentile95, b)
    else if raw == 6 then Got(Ewma, b)
    else Bad(Malformed)
  }

  function PutAggregation(k: AggregationKind, rest: seq<byte>): (b: seq<byte>)
    ensures AggregationOf(b) == Got(k, rest)
  {
    PutU8(k.Raw(), rest)
  }

  function QualityOf(b: seq<byte>): Parse<Quality>
  {
    var (raw, b) :- U8(b, Malformed);
    if raw == 1 then Got(Primary, b)
    else if raw == 2 then Got(Aggregated, b)
    else if raw == 3 then Got(Operator, b)
    else if raw == 4 then Got(Estimated, b)
    else Bad(Malformed)
  }

  function PutQuality(q: Quality, rest: seq<byte>): (b: seq<byte>)
    ensures QualityOf(b) == Got(q, rest)
  {
    PutU8(q.Raw(), rest)
  }

  function RequirementOf(b: seq<byte>): Parse<Requirement>
  {
    var (kind, b) :- Kind(b);
    var (aggregation, b) :- AggregationOf(b);
    var (alpha, b) :- U32(b, Malformed);
    var (minSamples, b) :- U32(b, Malformed);
    var (maxAge, b) :- U64(b, Malformed);
    var (minWindow, b) :- U64(b, Malformed);
    var (minQuality, b) :- QualityOf(b);
    var (required, b) :- Bool(b, Malformed);
    var requirement := Requirement(kind, aggregation, alpha, minSamples, maxAge, minWindow, minQuality, required);
    if requirement.Valid() then Got(requirement, b) else Bad(Malformed)
  }

  function PutRequirement(r: Requirement, rest: seq<byte>): (b: seq<byte>)
    ensures r.Valid() ==> RequirementOf(b) == Got(r, rest)
  {
    PutKind(r.kind, PutAggregation(r.aggregation, PutU32(r.alpha, PutU32(r.minSamples, PutU64(r.maxAge,
      PutU64(r.minWindow, PutQuality(r.minQuality, PutBool(r.required, rest))))))))
  }

  datatype Rules = Rules(thresholds: seq<ThresholdRule>, improvements: seq<ImprovementRule>, evidence: seq<Requirement>)
  {
    // The bound on objective terms also bounds the improvement rules.
    predicate Ok()
    {
      && |thresholds| <= MAX_THRESHOLDS && |improvements| <= MAX_TERMS && |evidence| <= MAX_REQUIREMENTS
      && forall i :: 0 <= i < |evidence| ==> evidence[i].Valid()
    }
  }

  function RulesOf(b: seq<byte>): Parse<Rules>
  {
    var (thresholds, b) :- ListOf(b, MAX_THRESHOLDS, Malformed, Threshold);
    var (improvements, b) :- ListOf(b, MAX_TERMS, Malformed, Improvement);
    var (evidence, b) :- ListOf(b, MAX_REQUIREMENTS, Malformed, RequirementOf);
    Got(Rules(thresholds, improvements, evidence), b)
  }

  function PutRules(r: Rules, rest: seq<byte>): (b: seq<byte>)
    ensures r.Ok() ==> RulesOf(b) == Got(r, rest)
  {
    ListTrip(r.evidence, PutRequirement, RequirementOf, MAX_REQUIREMENTS, Malformed, rest);
    var evidence := PutList(r.evidence, PutRequirement, rest);
    ListTrip(r.improvements, PutImprovement, Improvement, MAX_TERMS, Malformed, evidence);
    var improvements := PutList(r.improvements, PutImprovement, evidence);
    ListTrip(r.thresholds, PutThreshold, Threshold, MAX_THRESHOLDS, Malformed, improvements);
    PutList(r.thresholds, PutThreshold, improvements)
  }

  // ------------------------------------------------------------------------
  // Timers, objective, emergency and priorities
  // ------------------------------------------------------------------------

  datatype Durations = Durations(holdDown: Ticks, cooldown: Ticks, dampening: Dampening, churn: Churn)

  function DampeningOf(b: seq<byte>): Parse<Dampening>
  {
    var (enabled, b) :- Bool(b, Malformed);
    var (increment, b) :- U32(b, Malformed);
    var (maxPenalty, b) :- U32(b, Malformed);
    var (decayInterval, b) :- U64(b, Malformed);
    var (decayStep, b) :- U32(b, Malformed);
    var (escalation, b) :- U64(b, Malformed);
    var (maxHoldDown, b) :- U64(b, Malformed);
    Got(Dampening(enabled, increment, maxPenalty, decayInterval, decayStep, escalation, maxHoldDown), b)
  }

  function PutDampening(d: Dampening, rest: seq<byte>): (b: seq<byte>)
    ensures DampeningOf(b) == Got(d, rest)
  {
    PutBool(d.enabled, PutU32(d.increment, PutU32(d.maxPenalty, PutU64(d.decayInterval, PutU32(d.decayStep,
      PutU64(d.escalation, PutU64(d.maxHoldDown, rest)))))))
  }

  function DurationsOf(b: seq<byte>): Parse<Durations>
  {
    var (holdDown, b) :- U64(b, Malformed);
    var (cooldown, b) :- U64(b, Malformed);
    var (dampening, b) :- DampeningOf(b);
    var (max, b) :- U32(b, Malformed);
    var (window, b) :- U64(b, Malformed);
    Got(Durations(holdDown, cooldown, dampening, Churn(max, window)), b)
  }

  function PutDurations(d: Durations, rest: seq<byte>): (b: seq<byte>)
    ensures DurationsOf(b) == Got(d, rest)
  {
    PutU64(d.holdDown, PutU64(d.cooldown, PutDampening(d.dampening, PutU32(d.churn.max, PutU64(d.churn.window, rest)))))
  }

  function Term(b: seq<byte>): Parse<ObjectiveTerm>
  {
    var (kind, b) :- Kind(b);
    var (weight, b) :- U32(b, Malformed);
    Got(ObjectiveTerm(kind, weight), b)
  }

  function PutTerm(t: ObjectiveTerm, rest: seq<byte>): (b: seq<byte>)
    ensures Term(b) == Got(t, rest)
  {
    PutKind(t.kind, PutU32(t.weight, rest))
  }

  function Mode(b: seq<byte>): Parse<ObjectiveMode>
  {
    var (raw, b) :- U8(b, Malformed);
    if raw == 1 then Got(Lexicographic, b) else if raw == 2 then Got(WeightedScore, b) else Bad(Malformed)
  }

  function PutMode(m: ObjectiveMode, rest: seq<byte>): (b: seq<byte>)
    ensures Mode(b) == Got(m, rest)
  {
    PutU8(m.Raw(), rest)
  }

  function ObjectiveOf(b: seq<byte>): Parse<Objective>
  {
    var (mode, b) :- Mode(b);
    var (version, b) :- U32(b, Malformed);
    var (terms, b) :- ListOf(b, MAX_TERMS, Malformed, Term);
    Got(Objective(mode, terms, version), b)
  }

  function PutObjective(o: Objective, rest: seq<byte>): (b: seq<byte>)
    ensures |o.terms| <= MAX_TERMS ==> ObjectiveOf(b) == Got(o, rest)
  {
    ListTrip(o.terms, PutTerm, Term, MAX_TERMS, Malformed, rest);
    PutMode(o.mode, PutU32(o.version, PutList(o.terms, PutTerm, rest)))
  }

  function EmergencyOf(b: seq<byte>): Parse<Emergency>
  {
    var (enabled, b) :- Bool(b, Malformed);
    var (unauthorized, b) :- Bool(b, Malformed);
    var (unavailable, b) :- Bool(b, Malformed);
    var (hardFailure, b) :- Bool(b, Malformed);
    Got(Emergency(enabled, unauthorized, unavailable, hardFailure), b)
  }

  function PutEmergency(e: Emergency, rest: seq<byte>): (b: seq<byte>)
    ensures EmergencyOf(b) == Got(e, rest)
  {
    PutBool(e.enabled, PutBool(e.unauthorized, PutBool(e.unavailable, PutBool(e.hardFailure, rest))))
  }

  function PriorityEntry(b: seq<byte>): Parse<Priority>
  {
    var (path, b) :- IdOf(b, PATH_ID, Malformed);
    var (priority, b) :- U32(b, Malformed);
    Got(Priority(path, priority), b)
  }

  function PutPriority(p: Priority, rest: seq<byte>): (b: seq<byte>)
    ensures IdOk(p.path, PATH_ID) ==> PriorityEntry(b) == Got(p, rest)
  {
    PutId(p.path, PutU32(p.priority, rest))
  }

  predicate PrioritiesOk(ps: seq<Priority>)
  {
    |ps| <= MAX_CANDIDATES && forall i :: 0 <= i < |ps| ==> IdOk(ps[i].path, PATH_ID)
  }

  function PutPriorities(ps: seq<Priority>, rest: seq<byte>): (b: seq<byte>)
    ensures PrioritiesOk(ps) ==> ListOf(b, MAX_CANDIDATES, Malformed, PriorityEntry) == Got(ps, rest)
  {
    ListTrip(ps, PutPriority, PriorityEntry, MAX_CANDIDATES, Malformed, rest);
    PutList(ps, PutPriority, rest)
  }

  // ------------------------------------------------------------------------
  // The whole semantics
  // ------------------------------------------------------------------------

  function RulesIn(s: Semantics): Rules { Rules(s.thresholds, s.improvements, s.evidence) }

  predicate SemanticsOk(s: Semantics)
  {
    && IdOk(s.target.route, ROUTE_ID) && (s.target.multipath.Some? ==> IdOk(s.target.multipath.value, SET_ID))
    && RulesIn(s).Ok() && |s.objective.terms| <= MAX_TERMS && PrioritiesOk(s.priorities)
  }

  function SemanticsOf(b: seq<byte>): Parse<Semantics>
  {
    var (version, b) :- U32(b, Malformed);
    var (route, b) :- IdOf(b, ROUTE_ID, Malformed);
    var (multipath, b) :- OptionalId(b, SET_ID, Malformed);
    var (rules, b) :- RulesOf(b);
    var (durations, b) :- DurationsOf(b);
    var (objective, b) :- ObjectiveOf(b);
    var (emergency, b) :- EmergencyOf(b);
    var (priorities, b) :- ListOf(b, MAX_CANDIDATES, Malformed, PriorityEntry);
    Got(Semantics(version, Target(route, multipath), rules.thresholds, rules.improvements, rules.evidence,
                  durations.holdDown, durations.cooldown, durations.dampening, durations.churn, objective, emergency,
                  priorities), b)
  }

  function PutSemantics(s: Semantics, rest: seq<byte>): (b: seq<byte>)
    ensures SemanticsOk(s) ==> SemanticsOf(b) == Got(s, rest)
  {
    PutU32(s.version, PutId(s.target.route, PutOptionalId(s.target.multipath, PutRules(RulesIn(s),
      PutDurations(Durations(s.holdDown, s.cooldown, s.dampening, s.churn), PutObjective(s.objective,
        PutEmergency(s.emergency, PutPriorities(s.priorities, rest))))))))
  }
}
