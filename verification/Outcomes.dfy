// The structured outcomes and suppression reasons every operation reports
// (include/adaptive_routing/outcome.hpp, src/outcome.cpp). Both travel as their
// stable numbers.

module Outcomes {
  import opened Base

  type Outcome = x: int | 1 <= x <= 46 witness 1

  const POLICY_CREATED: Outcome := 1
  const POLICY_UPDATED: Outcome := 2
  const DECISION_COMMITTED: Outcome := 3
  const IDEMPOTENT: Outcome := 4
  const NO_CHANGE: Outcome := 6
  const STALE_EVIDENCE: Outcome := 7
  const STALE_PATH_AUTHORITY: Outcome := 8
  const STALE_MULTIPATH_SET: Outcome := 9
  const STALE_ROUTE: Outcome := 10
  const STALE_POLICY_GENERATION: Outcome := 11
  const STALE_EPOCH: Outcome := 12
  const STALE_WORKER: Outcome := 13
  const HOLD_DOWN_ACTIVE: Outcome := 14
  const COOLDOWN_ACTIVE: Outcome := 15
  const HYSTERESIS_NOT_CLEARED: Outcome := 16
  const INSUFFICIENT_EVIDENCE: Outcome := 17
  const NO_ELIGIBLE_CANDIDATE: Outcome := 18
  const UNAUTHORIZED: Outcome := 19
  const REVALIDATION_REQUIRED: Outcome := 20
  const REVOKED: Outcome := 21
  const RETIRED: Outcome := 22
  const RESOURCE_LIMIT: Outcome := 23
  const MALFORMED_REQUEST: Outcome := 24
  const ATTEMPT_CONFLICT: Outcome := 25
  const GENERATION_OVERFLOW: Outcome := 26
  const INCOMPATIBLE_METRIC: Outcome := 27
  const INVALID_HYSTERESIS: Outcome := 28
  const CHURN_LIMIT_REACHED: Outcome := 29
  const ROLLBACK_REFUSED: Outcome := 30
  const NOT_FOUND: Outcome := 31
  const ALREADY_EXISTS: Outcome := 32
  const SUSPENDED: Outcome := 33
  const FENCED_WORKER: Outcome := 34
  const UNAUTHORIZED_SCOPE: Outcome := 35
  const EVALUATION_LIMIT: Outcome := 40
  const UNSUPPORTED_VERSION: Outcome := 41
  const POLICY_SUPERSEDED: Outcome := 42
  const WITHDRAWN_UPSTREAM: Outcome := 44

  type Suppression = x: int | 0 <= x <= 20

  const NONE: Suppression := 0
  const BELOW_THRESHOLD: Suppression := 1
  const BAND_NOT_CLEARED: Suppression := 2
  const HELD_DOWN: Suppression := 3
  const COOLING_DOWN: Suppression := 4
  const INSUFFICIENT_SAMPLES: Suppression := 5
  const EVIDENCE_STALE: Suppression := 6
  const NO_ELIGIBLE_ALTERNATIVE: Suppression := 7
  const CHURN_EXHAUSTED: Suppression := 10
  const CURRENT_PREFERENCE_INELIGIBLE: Suppression := 11
  const NO_TRIGGER_DECLARED: Suppression := 12
  const MERIT_NOT_ESTABLISHED: Suppression := 13
  const EVIDENCE_UNKNOWN: Suppression := 14
  const DAMPENING_EXTENDED_HOLD_DOWN: Suppression := 15
  const UPSTREAM_DEPENDENCY_STALE: Suppression := 19

  // The outcome reported when a decision is suppressed for a reason, for the
  // reasons the evaluation produces.
  function SuppressionOutcome(reason: Suppression): Outcome
  {
    if reason == BAND_NOT_CLEARED then HYSTERESIS_NOT_CLEARED
    else if reason == HELD_DOWN || reason == DAMPENING_EXTENDED_HOLD_DOWN then HOLD_DOWN_ACTIVE
    else if reason == COOLING_DOWN then COOLDOWN_ACTIVE
    else if reason == INSUFFICIENT_SAMPLES || reason == EVIDENCE_UNKNOWN then INSUFFICIENT_EVIDENCE
    else if reason == EVIDENCE_STALE then STALE_EVIDENCE
    else if reason == NO_ELIGIBLE_ALTERNATIVE then NO_ELIGIBLE_CANDIDATE
    else if reason == CHURN_EXHAUSTED then CHURN_LIMIT_REACHED
    else if reason == CURRENT_PREFERENCE_INELIGIBLE || reason == UPSTREAM_DEPENDENCY_STALE then REVALIDATION_REQUIRED
    else NO_CHANGE
  }
}
