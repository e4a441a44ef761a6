// The records the engine keeps: upstream bindings, preferences, timers, history
// and the complete state (src/engine_impl.hpp, include/adaptive_routing/*.hpp).

module Records {
  import opened Base
  import opened Metrics
  import opened Evidence
  import opened Outcomes
  import opened Policy

  // ------------------------------------------------------------------------
  // Upstream bindings
  // ------------------------------------------------------------------------

  datatype PathAuthority = PathAuthority(path: Id, generation: u64, legal: bool)
  {
    predicate WellFormed() { ValidId(path) && generation != 0 }
  }

  datatype Multipath = Multipath(set_: Id, generation: u64, members: seq<Id>, current: bool)

  datatype RouteBinding = RouteBinding(route: Id, generation: u64, site: Id, current: bool)
  {
    predicate WellFormed() { ValidId(route) && generation != 0 }
  }

  datatype WeightBinding = WeightBinding(set_: Id, generation: u64, current: bool)

  datatype Binding = Binding(
    path: Id, authority: PathAuthority, multipath: Option<Multipath>, route: RouteBinding,
    weighted: Option<WeightBinding>, pathClass: Id, available: bool, hardFailure: bool)
  {
    predicate WellFormed() { ValidId(path) && authority.WellFormed() && route.WellFormed() }
  }

  datatype Candidate = Candidate(binding: Binding, watermark: u64)

  datatype UpstreamEvent =
    | DeclareCandidate | AdvancePathAuthority | InvalidatePath | SetMembership | InvalidateMultipathSet
    | AdvanceRoute | InvalidateRoute | AdvanceWeightPolicy | MarkUnavailable | MarkAvailable
    | HardFailureSignal | ClearHardFailureSignal

  // An invalid identity or a zero epoch in the provenance means "not stated".
  datatype Notification = Notification(
    event: UpstreamEvent, policy: Id, binding: Binding, publisher: Id, boot: Id, epoch: u64,
    expectedPrevious: Option<u64>)

  // ------------------------------------------------------------------------
  // Decisions
  // ------------------------------------------------------------------------

  type DecisionLifecycle = x: int | 1 <= x <= 9 witness 1
  const ELIGIBLE: DecisionLifecycle := 2
  const SUPPRESSED_DECISION: DecisionLifecycle := 3
  const COMMITTED: DecisionLifecycle := 4
  const ROLLED_BACK: DecisionLifecycle := 6
  const REJECTED: DecisionLifecycle := 9

  type Cause = x: int | 1 <= x <= 14 witness 1
  const DECLARED_CAUSE: Cause := 1
  const TRIGGER_SATISFIED: Cause := 4
  const EMERGENCY_OVERRIDE: Cause := 5
  const ROLLBACK_REQUESTED: Cause := 6
  const RECOVERED: Cause := 11

  datatype Provenance = Provenance(
    publisher: Id, boot: Id, epoch: u64, attempt: Id, policyGeneration: u64, cause: Cause)

  const NO_PROVENANCE: Provenance := Provenance(NO_ID, NO_ID, 0, NO_ID, 0, DECLARED_CAUSE)

  datatype PathWeight = PathWeight(path: Id, weight: u32)
  datatype WeightProposal = WeightProposal(set_: Id, baseGeneration: u64, weights: seq<PathWeight>)
  {
    predicate WellFormed()
    {
      && ValidId(set_) && baseGeneration != 0 && weights != []
      && forall i :: 0 <= i < |weights| ==> ValidId(weights[i].path) && weights[i].weight <= BASIS_POINTS
    }
  }

  datatype Preference = Preference(
    route: Id, multipath: Option<Id>, setGeneration: u64, preferred: Id, authorityGeneration: u64,
    previous: Id, routeGeneration: u64, adaptation: u64, transition: u64, transitionId: Id,
    proposal: Option<WeightProposal>, decision: Id, provenance: Provenance, committedAt: Ticks,
    established: bool)

  // The preference of a policy that has never committed one.
  function NoPreference(target: Target): Preference
  {
    Preference(target.route, target.multipath, 0, NO_ID, 0, NO_ID, 0, 1, 1, NO_ID, None, NO_ID,
               NO_PROVENANCE, 0, false)
  }

  datatype Stable = Stable(
    established: bool, path: Id, authorityGeneration: u64, routeGeneration: u64, setGeneration: u64,
    adaptation: u64, stabilizedAt: Ticks)

  const NO_STABLE: Stable := Stable(false, NO_ID, 0, 0, 0, 0, 0)

  datatype Timing = Timing(
    holdDownActive: bool, holdDownDeadline: Ticks, lockedPath: Id, cooldownActive: bool,
    cooldownDeadline: Ticks, penalty: u32, lastDecay: Ticks, churn: seq<Ticks>)

  const NO_TIMING: Timing := Timing(false, 0, NO_ID, false, 0, 0, 0, [])

  datatype HistoryEntry = HistoryEntry(
    decision: Id, lifecycle: DecisionLifecycle, outcome: Outcome, suppression: Suppression, cause: Cause,
    from: Id, to: Id, adaptation: u64, evidenceGeneration: u64, epoch: u64, committedAt: Ticks, digest: Id)

  type RevocationReason = x: int | 1 <= x <= 5 witness 1

  datatype Revocation = Revocation(
    policy: Id, generation: u64, authorityGeneration: u64, epoch: u64, publisher: Id,
    reason: RevocationReason, detail: seq<byte>)

  // ------------------------------------------------------------------------
  // Policies and state
  // ------------------------------------------------------------------------

  datatype AdaptivePolicy = AdaptivePolicy(
    id: Id, name: Id, scope: PolicyScope, semantics: Semantics, generation: u64, lifecycle: Lifecycle,
    epoch: u64, owner: Id, authorityGeneration: u64, declaredAt: Ticks, updatedAt: Ticks)

  datatype PolicyRecord = PolicyRecord(
    policy: AdaptivePolicy, candidates: seq<Candidate>, preference: Preference, stable: Stable,
    timing: Timing, history: seq<HistoryEntry>, revocation: Option<Revocation>)

  datatype Registration = Registration(
    boot: Id, scope: AuthorityScope, epoch: u64, authorityGeneration: u64, session: Id)

  datatype Attempt = Attempt(fingerprint: Id, outcome: Outcome)

  datatype Context = Context(
    epoch: u64, publisher: Id, boot: Id, session: Id, attempt: Id,
    expectedPolicy: Option<u64>, expectedEvidence: Option<u64>)
  {
    predicate HasCallerIdentity()
    {
      epoch != 0 && ValidId(publisher) && ValidId(boot) && ValidId(session) && ValidId(attempt)
    }
  }

  // Attempts in the order they were first recorded.
  datatype AttemptLog = AttemptLog(entries: map<Id, Attempt>, order: seq<Id>)

  type Index = map<Id, set<Id>>

  // Policies by candidate path, by target route and set, and by the sources of
  // the evidence for their paths.
  datatype Indexes = Indexes(byPath: Index, byRoute: Index, bySet: Index, bySource: Index)

  datatype State = State(
    epoch: u64, authorityGeneration: u64, evidenceGeneration: u64, upstreamWatermark: u64, evidence: Store,
    policies: map<Id, PolicyRecord>, names: map<Id, Id>, registrations: map<Id, Registration>,
    fenced: set<Id>, revocations: map<Id, Revocation>, attempts: AttemptLog, index: Indexes)

  const INITIAL_STATE: State :=
    State(1, 1, 1, 0, Store(map[], 0), map[], map[], map[], {}, map[], AttemptLog(map[], []),
          Indexes(map[], map[], map[], map[]))

  // The configured bounds, and whether recovery forces revalidation.
  datatype Limits = Limits(
    maxPolicies: u64, maxCandidates: u64, maxTotalCandidates: u64, maxSources: u64, maxSamples: u64,
    maxRequirements: u64, maxThresholds: u64, maxTerms: u64, maxHistory: u64, maxDecisions: u64,
    maxPending: u64, maxBatch: u64, maxPublishers: u64, maxAttempts: u64, maxRevocations: u64,
    maxScopeRoutes: u64, maxScopeSets: u64, maxAdaptations: u64, maxPenalty: u64, maxPerPath: u64,
    maxEvaluations: u64, conservativeRecovery: bool)

  // ------------------------------------------------------------------------
  // Candidate lookup
  // ------------------------------------------------------------------------

  function PathOf(c: Candidate): Id { c.binding.path }

  function Paths(cs: seq<Candidate>): set<Id> { set c | c in cs :: c.binding.path }

  ghost predicate Sorted(cs: seq<Candidate>)
  {
    forall i, j :: 0 <= i < j < |cs| ==> Less(PathOf(cs[i]), PathOf(cs[j]))
  }

  // Position of a path, or the length when it is no candidate.
  function Position(cs: seq<Candidate>, path: Id): (i: nat)
    ensures i <= |cs|
    ensures i < |cs| ==> PathOf(cs[i]) == path
    ensures forall j :: 0 <= j < i ==> PathOf(cs[j]) != path
  {
    if cs == [] then 0
    else if PathOf(cs[0]) == path then 0
    else Position(cs[1..], path) + 1
  }

  function Find(cs: seq<Candidate>, path: Id): (r: Option<Candidate>)
    ensures r.Some? ==> r.value in cs && PathOf(r.value) == path
    ensures r.None? <==> path !in Paths(cs)
  {
    var i := Position(cs, path);
    if i < |cs| then Some(cs[i]) else None
  }

  // The binary search over the sorted vector finds what a scan finds.
  method FindCandidate(cs: seq<Candidate>, path: Id) returns (i: nat)
    requires Sorted(cs)
    ensures i == Position(cs, path)
  {
    var low, high := 0, |cs|;
    while low < high
      invariant 0 <= low <= high <= |cs|
      invariant forall j :: 0 <= j < low ==> Less(PathOf(cs[j]), path)
      invariant forall j :: high <= j < |cs| ==> !Less(PathOf(cs[j]), path)
    {
      var middle := low + (high - low) / 2;
      if Less(PathOf(cs[middle]), path) {
        forall j | 0 <= j < middle
          ensures Less(PathOf(cs[j]), path)
        {
          LessTransitive(PathOf(cs[j]), PathOf(cs[middle]), path);
        }
        low := middle + 1;
      } else {
        forall j | middle < j < |cs|
          ensures !Less(PathOf(cs[j]), path)
        {
          if Less(PathOf(cs[j]), path) {
            LessTransitive(PathOf(cs[middle]), PathOf(cs[j]), path);
          }
        }
        high := middle;
      }
    }
    LessIrreflexive(path);
    if low < |cs| && PathOf(cs[low]) == path {
      return low;
    }
    assert forall j :: low < j < |cs| ==> Less(PathOf(cs[low]), PathOf(cs[j]));
    return |cs|;
  }

  // A sorted vector plus one new element, sorted again.
  function Inserted(cs: seq<Candidate>, c: Candidate): seq<Candidate>
  {
    if cs == [] || Less(PathOf(c), PathOf(cs[0])) then [c] + cs
    else [cs[0]] + Inserted(cs[1..], c)
  }

  lemma {:induction false} InsertedPaths(cs: seq<Candidate>, c: Candidate)
    ensures multiset(Inserted(cs, c)) == multiset(cs) + multiset{c}
    ensures Paths(Inserted(cs, c)) == Paths(cs) + {PathOf(c)}
    ensures |Inserted(cs, c)| == |cs| + 1
  {
    if cs == [] || Less(PathOf(c), PathOf(cs[0])) {
    } else {
      InsertedPaths(cs[1..], c);
      assert cs == [cs[0]] + cs[1..];
    }
    SameElements(Inserted(cs, c), [c] + cs);
  }

  lemma SameElements(a: seq<Candidate>, b: seq<Candidate>)
    requires multiset(a) == multiset(b)
    ensures |a| == |b| && forall x :: x in a <==> x in b
  {
    assert |multiset(a)| == |a| && |multiset(b)| == |b|;
    assert forall x :: x in a <==> x in multiset(a);
    assert forall x :: x in b <==> x in multiset(b);
  }

  lemma {:induction false} InsertedSorted(cs: seq<Candidate>, c: Candidate)
    requires Sorted(cs) && PathOf(c) !in Paths(cs)
    ensures Sorted(Inserted(cs, c))
  {
    if cs == [] {
    } else if Less(PathOf(c), PathOf(cs[0])) {
      forall j | 0 < j < |cs|
        ensures Less(PathOf(c), PathOf(cs[j]))
      {
        LessTransitive(PathOf(c), PathOf(cs[0]), PathOf(cs[j]));
      }
    } else {
      var rest := Inserted(cs[1..], c);
      assert forall x :: x in cs[1..] ==> x in cs;
      InsertedSorted(cs[1..], c);
      InsertedPaths(cs[1..], c);
      LessTotal(PathOf(c), PathOf(cs[0]));
      forall j | 0 <= j < |rest|
        ensures Less(PathOf(cs[0]), PathOf(rest[j]))
      {
        assert rest[j] in multiset(cs[1..]) + multiset{c};
        if rest[j] != c {
          assert rest[j] in cs[1..];
        }
      }
    }
  }
}
