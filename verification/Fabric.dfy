// Every operation of the coordinator as one atomic step on the state
// (src/fabric.cpp, src/fabric_policy.cpp, src/fabric_evidence.cpp,
// src/fabric_evaluate.cpp, src/fabric_api.cpp).

module Fabric {
  import opened Base
  import opened Metrics
  import opened Scoring
  import opened Evidence
  import opened Outcomes
  import opened Policy
  import opened Records
  import opened Ranking
  import opened Evaluation
  import opened Indexing
  import opened Durable

  datatype Step = Step(state: State, outcome: Outcome)

  // ------------------------------------------------------------------------
  // Caller authority and replay
  // ------------------------------------------------------------------------

  function CallerRefusal(s: State, ctx: Context, route: Option<Id>, set_: Option<Id>): Option<Outcome>
  {
    if !ctx.HasCallerIdentity() then Some(UNAUTHORIZED)
    else if s.epoch != ctx.epoch then Some(STALE_EPOCH)
    else if ctx.boot in s.fenced then Some(FENCED_WORKER)
    else if ctx.publisher !in s.registrations then Some(UNAUTHORIZED)
    else
      var r := s.registrations[ctx.publisher];
      if r.boot != ctx.boot then Some(STALE_WORKER)
      else if r.session != ctx.session then Some(UNAUTHORIZED)
      else if !r.scope.WellFormed() then Some(UNAUTHORIZED_SCOPE)
      else if route.Some? && !r.scope.CoversRoute(r.scope.fabric, r.scope.namespace, route.value)
      then Some(UNAUTHORIZED_SCOPE)
      else if set_.Some? && !r.scope.CoversSet(set_.value) then Some(UNAUTHORIZED_SCOPE)
      else None
  }

  function TargetRefusal(s: State, ctx: Context, target: Target): Option<Outcome>
  {
    CallerRefusal(s, ctx, Some(target.route), target.multipath)
  }

  // An attempt identity is answered, never applied, twice.
  function Replay(s: State, attempt: Id, fingerprint: Id): Option<Outcome>
  {
    if !ValidId(attempt) then Some(MALFORMED_REQUEST)
    else if attempt !in s.attempts.entries then None
    else if s.attempts.entries[attempt].fingerprint == fingerprint then Some(IDEMPOTENT)
    else Some(ATTEMPT_CONFLICT)
  }

  // The log is bounded: the oldest attempts are forgotten.
  function Logged(log: AttemptLog, attempt: Id, entry: Attempt, bound: nat): AttemptLog
  {
    var entries := log.entries[attempt := entry];
    if attempt in log.entries then log.(entries := entries)
    else
      var order := log.order + [attempt];
      var excess := if |order| > bound then |order| - bound else 0;
      AttemptLog(entries - (set a | a in order[..excess]), order[excess..])
  }

  function Recorded(s: State, attempt: Id, fingerprint: Id, outcome: Outcome, limits: Limits): State
  {
    if !ValidId(attempt) then s
    else s.(attempts := Logged(s.attempts, attempt, Attempt(fingerprint, outcome), limits.maxAttempts))
  }

  // ------------------------------------------------------------------------
  // Publishers and epochs
  // ------------------------------------------------------------------------

  function RegisterStep(s: State, publisher: Id, boot: Id, scope: AuthorityScope, session: Id, limits: Limits): Step
  {
    if !ValidId(publisher) || !ValidId(boot) || !ValidId(session) then Step(s, MALFORMED_REQUEST)
    else if !scope.WellFormed() then Step(s, MALFORMED_REQUEST)
    else if boot in s.fenced then Step(s, FENCED_WORKER)
    else if publisher !in s.registrations && |s.registrations| >= limits.maxPublishers then Step(s, RESOURCE_LIMIT)
    else
      var live := Registration(boot, scope, s.epoch, s.authorityGeneration, session);
      var registered := s.(registrations := s.registrations[publisher := live]);
      if publisher in s.registrations && s.registrations[publisher].boot == boot then Step(registered, IDEMPOTENT)
      else if publisher in s.registrations then
        // A new incarnation permanently fences the previous one.
        Step(registered.(fenced := s.fenced + {s.registrations[publisher].boot}), POLICY_UPDATED)
      else Step(registered, POLICY_UPDATED)
  }

  function FenceStep(s: State, publisher: Id, boot: Id): Step
  {
    if publisher !in s.registrations || s.registrations[publisher].boot != boot then Step(s, NOT_FOUND)
    else Step(s.(fenced := s.fenced + {boot}, registrations := s.registrations - {publisher}), POLICY_UPDATED)
  }

  function Quiesced(r: PolicyRecord): PolicyRecord
  {
    r.(timing := r.timing.(holdDownActive := false, holdDownDeadline := 0, cooldownActive := false,
                           cooldownDeadline := 0, churn := []),
       policy := if r.policy.lifecycle.Terminal() then r.policy else r.policy.(lifecycle := NeedsRevalidation))
  }

  function QuiescedAll(ps: map<Id, PolicyRecord>): map<Id, PolicyRecord> { map id | id in ps :: Quiesced(ps[id]) }

  function LiveBoots(registrations: map<Id, Registration>): set<Id>
  {
    set p | p in registrations :: registrations[p].boot
  }

  // An exhausted authority generation is noticed only after the epoch moved.
  function AdvanceEpochStep(s: State): Step
  {
    if Next(s.epoch).None? then Step(s, GENERATION_OVERFLOW)
    else if Next(s.authorityGeneration).None? then Step(s.(epoch := Next(s.epoch).value), GENERATION_OVERFLOW)
    else
      Step(s.(epoch := Next(s.epoch).value, authorityGeneration := Next(s.authorityGeneration).value,
              fenced := s.fenced + LiveBoots(s.registrations), registrations := map[],
              attempts := AttemptLog(map[], []),
              policies := QuiescedAll(s.policies)), POLICY_UPDATED)
  }

  // ------------------------------------------------------------------------
  // Policies
  // ------------------------------------------------------------------------

  datatype CreateRequest = CreateRequest(
    name: Id, scope: PolicyScope, semantics: Semantics, context: Context, fingerprint: Id)
  datatype UpdateRequest = UpdateRequest(
    policy: Id, scope: PolicyScope, semantics: Semantics, context: Context, fingerprint: Id)

  predicate WithinLimits(scope: PolicyScope, sem: Semantics, limits: Limits)
  {
    && |scope.routes| <= limits.maxScopeRoutes && |scope.sets| <= limits.maxScopeSets
    && |sem.thresholds| <= limits.maxThresholds && |sem.evidence| <= limits.maxRequirements
    && |sem.objective.terms| <= limits.maxTerms
  }

  // The bounds that only creation enforces.
  predicate WithinCreationLimits(sem: Semantics, limits: Limits)
  {
    && |sem.priorities| <= limits.maxCandidates
    && (sem.churn.Enabled() ==> sem.churn.max <= limits.maxAdaptations)
    && (sem.dampening.enabled ==> sem.dampening.maxPenalty <= limits.maxPenalty)
  }

  function ScopeRefusal(s: State, ctx: Context, scope: PolicyScope, target: Target): Option<Outcome>
  {
    match TargetRefusal(s, ctx, target)
    case Some(outcome) => Some(outcome)
    case None =>
      if ctx.publisher in s.registrations
         && s.registrations[ctx.publisher].scope.CoversRoute(scope.fabric, scope.namespace, target.route)
      then None else Some(UNAUTHORIZED_SCOPE)
  }

  function CreateRefusal(s: State, q: CreateRequest, limits: Limits): Option<Outcome>
  {
    if !ValidId(q.name) || !q.scope.WellFormed() then Some(MALFORMED_REQUEST)
    else if !q.semantics.Valid() then Some(q.semantics.FirstDefect().Refused())
    else
      match ScopeRefusal(s, q.context, q.scope, q.semantics.target)
      case Some(outcome) => Some(outcome)
      case None =>
        if !WithinLimits(q.scope, q.semantics, limits) || !WithinCreationLimits(q.semantics, limits)
        then Some(RESOURCE_LIMIT)
        else Replay(s, q.context.attempt, q.fingerprint)
  }

  function NewPolicy(s: State, q: CreateRequest, id: Id, now: Ticks): AdaptivePolicy
  {
    AdaptivePolicy(id, q.name, q.scope, q.semantics, 1, Declared, s.epoch, q.context.publisher,
                   s.authorityGeneration, now, now)
  }

  function NewRecord(p: AdaptivePolicy): PolicyRecord
  {
    PolicyRecord(p, [], NoPreference(p.semantics.target), NO_STABLE, NO_TIMING, [], None)
  }

  function CreateStep(s: State, q: CreateRequest, id: Id, now: Ticks, limits: Limits): Step
  {
    match CreateRefusal(s, q, limits)
    case Some(outcome) => Step(s, outcome)
    case None =>
      if q.name in s.names then
        Step(Recorded(s, q.context.attempt, q.fingerprint, ALREADY_EXISTS, limits), ALREADY_EXISTS)
      else if |s.policies| >= limits.maxPolicies then
        Step(Recorded(s, q.context.attempt, q.fingerprint, RESOURCE_LIMIT, limits), RESOURCE_LIMIT)
      else
        // A minted identity that is already present keeps its record.
        var stored := s.(
          policies := if id in s.policies then s.policies else s.policies[id := NewRecord(NewPolicy(s, q, id, now))],
          names := s.names[q.name := id]);
        Step(Recorded(Reindexed(stored, id, limits), q.context.attempt, q.fingerprint, POLICY_CREATED, limits),
             POLICY_CREATED)
  }

  function UpdateRefusal(s: State, q: UpdateRequest, limits: Limits): Option<Outcome>
  {
    if !ValidId(q.policy) then Some(MALFORMED_REQUEST)
    else if !q.scope.WellFormed() then Some(MALFORMED_REQUEST)
    else if !q.semantics.Valid() then Some(q.semantics.FirstDefect().Refused())
    else if q.policy !in s.policies then Some(NOT_FOUND)
    else
      match ScopeRefusal(s, q.context, q.scope, q.semantics.target)
      case Some(outcome) => Some(outcome)
      case None =>
        var p := s.policies[q.policy].policy;
        if p.lifecycle.Terminal() then Some(p.lifecycle.Refused())
        else if q.context.expectedPolicy != Some(p.generation) then Some(STALE_POLICY_GENERATION)
        else if !WithinLimits(q.scope, q.semantics, limits) then Some(RESOURCE_LIMIT)
        else
          match Replay(s, q.context.attempt, q.fingerprint)
          case Some(outcome) => Some(outcome)
          case None => if Next(p.generation).None? then Some(GENERATION_OVERFLOW) else None
  }

  // A new target discards the bindings, the preference, the anchor and the
  // timers; any other update keeps them.
  function Updated(r: PolicyRecord, q: UpdateRequest, epoch: u64, now: Ticks): PolicyRecord
    requires Next(r.policy.generation).Some?
  {
    var policy := r.policy.(scope := q.scope, semantics := q.semantics,
                            generation := Next(r.policy.generation).value, updatedAt := now, epoch := epoch);
    if r.policy.semantics.target != q.semantics.target
    then r.(policy := policy, candidates := [], preference := NoPreference(q.semantics.target),
            stable := NO_STABLE, timing := NO_TIMING)
    else r.(policy := policy)
  }

  function UpdateStep(s: State, q: UpdateRequest, now: Ticks, limits: Limits): Step
  {
    match UpdateRefusal(s, q, limits)
    case Some(outcome) => Step(s, outcome)
    case None =>
      var bare := Unindexed(s, q.policy);
      var updated := bare.(policies := s.policies[q.policy := Updated(s.policies[q.policy], q, s.epoch, now)]);
      Step(Recorded(Reindexed(updated, q.policy, limits), q.context.attempt, q.fingerprint, POLICY_UPDATED, limits),
           POLICY_UPDATED)
  }

  predicate LegallyUsable(b: Binding) { b.authority.legal && b.route.current && b.available }

  function Relabelled(r: PolicyRecord, lifecycle: Lifecycle, epoch: u64): PolicyRecord
  {
    r.(policy := r.policy.(lifecycle := lifecycle, epoch := epoch))
  }

  // Revalidation is earned: some candidate must be legally usable.
  function TransitionStep(s: State, policy: Id, event: LifecycleEvent, ctx: Context): Step
  {
    if !ValidId(policy) then Step(s, MALFORMED_REQUEST)
    else if policy !in s.policies then Step(s, NOT_FOUND)
    else
      var r := s.policies[policy];
      match TargetRefusal(s, ctx, r.policy.semantics.target)
      case Some(outcome) => Step(s, outcome)
      case None =>
        if r.policy.lifecycle.Terminal() then Step(s, r.policy.lifecycle.Refused())
        else
          match NextLifecycle(r.policy.lifecycle, event)
          case None => Step(s, MALFORMED_REQUEST)
          case Some(next) =>
            if event.Revalidate? && !(exists c :: c in r.candidates && LegallyUsable(c.binding))
            then Step(s.(policies := s.policies[policy := Relabelled(r, NeedsRevalidation, r.policy.epoch)]),
                      REVALIDATION_REQUIRED)
            else Step(s.(policies := s.policies[policy := Relabelled(r, next, s.epoch)]), POLICY_UPDATED)
  }

  function RevokeStep(s: State, policy: Id, reason: RevocationReason, detail: seq<byte>, ctx: Context,
                      limits: Limits): Step
  {
    if !ValidId(policy) then Step(s, MALFORMED_REQUEST)
    else if policy !in s.policies then Step(s, NOT_FOUND)
    else
      var r := s.policies[policy];
      match TargetRefusal(s, ctx, r.policy.semantics.target)
      case Some(outcome) => Step(s, outcome)
      case None =>
        if policy in s.revocations then Step(s, if s.revocations[policy].reason == reason then IDEMPOTENT else REVOKED)
        else if r.policy.lifecycle.Terminal() then Step(s, r.policy.lifecycle.Refused())
        else if |s.revocations| >= limits.maxRevocations then Step(s, RESOURCE_LIMIT)
        else
          var revocation := Revocation(policy, r.policy.generation, s.authorityGeneration, s.epoch, ctx.publisher,
                                       reason, detail);
          Step(s.(revocations := s.revocations[policy := revocation],
                  policies := s.policies[policy := Relabelled(r, Revoked, s.epoch).(revocation := Some(revocation))]),
               POLICY_UPDATED)
  }

  // ------------------------------------------------------------------------
  // Upstream notifications
  // ------------------------------------------------------------------------

  function NoteRefusal(s: State, n: Notification, ctx: Context): Option<Outcome>
  {
    if !ValidId(n.policy) then Some(MALFORMED_REQUEST)
    else if n.policy !in s.policies then Some(NOT_FOUND)
    else
      var p := s.policies[n.policy].policy;
      var target := p.semantics.target;
      if !n.binding.WellFormed() then Some(MALFORMED_REQUEST)
      else if p.lifecycle.Terminal() then Some(p.lifecycle.Refused())
      else if ValidId(n.publisher) && n.publisher != ctx.publisher then Some(UNAUTHORIZED)
      else if ValidId(n.boot) && n.boot != ctx.boot then Some(STALE_WORKER)
      else if n.epoch != 0 && n.epoch != s.epoch then Some(STALE_EPOCH)
      else
        match TargetRefusal(s, ctx, target)
        case Some(outcome) => Some(outcome)
        case None =>
          if target.multipath.Some? && n.binding.multipath.Some?
             && n.binding.multipath.value.set_ != target.multipath.value
          then Some(MALFORMED_REQUEST)
          else if n.binding.route.route != target.route then Some(MALFORMED_REQUEST)
          else if !p.scope.CoversRoute(n.binding.route.site, n.binding.route.route) then Some(UNAUTHORIZED_SCOPE)
          else if !p.scope.CoversPathClass(n.binding.pathClass) then Some(UNAUTHORIZED_SCOPE)
          else None
  }

  predicate ExpectedMatches(n: Notification, generation: u64)
  {
    n.expectedPrevious.None? || n.expectedPrevious.value == generation
  }

  function EventRefusal(cs: seq<Candidate>, n: Notification, limits: Limits): Option<Outcome>
  {
    match Find(cs, n.binding.path)
    case None =>
      (match n.event
       case DeclareCandidate =>
         if |cs| >= limits.maxCandidates || |cs| + 1 > limits.maxTotalCandidates then Some(RESOURCE_LIMIT)
         else if !n.binding.authority.legal then Some(MALFORMED_REQUEST)
         else None
       case AdvancePathAuthority => Some(NOT_FOUND)
       case SetMembership => Some(NOT_FOUND)
       case AdvanceRoute => Some(NOT_FOUND)
       case AdvanceWeightPolicy => Some(NOT_FOUND)
       case _ => None)
    case Some(c) =>
      var generation := c.binding.authority.generation;
      match n.event
      case DeclareCandidate => if ExpectedMatches(n, generation) then None else Some(STALE_PATH_AUTHORITY)
      case AdvancePathAuthority =>
        if ExpectedMatches(n, generation) && n.binding.authority.generation > generation then None
        else Some(STALE_PATH_AUTHORITY)
      case _ => None
  }

  // What an event does to the binding of a declared candidate.
  function Rebound(b: Binding, n: Notification): Binding
  {
    match n.event
    case DeclareCandidate => n.binding
    case AdvancePathAuthority => b.(authority := n.binding.authority)
    case InvalidatePath =>
      b.(authority := b.authority.(
        legal := false,
        generation :=
          if n.binding.authority.generation != 0 then n.binding.authority.generation else b.authority.generation))
    case SetMembership => b.(multipath := n.binding.multipath)
    case InvalidateMultipathSet =>
      if b.multipath.Some? then b.(multipath := Some(b.multipath.value.(current := false))) else b
    case AdvanceRoute => b.(route := n.binding.route)
    case InvalidateRoute => b.(route := b.route.(current := false))
    case AdvanceWeightPolicy => b.(weighted := n.binding.weighted)
    case MarkUnavailable => b.(available := false)
    case MarkAvailable => b.(available := true)
    case HardFailureSignal => b.(hardFailure := true)
    case ClearHardFailureSignal => b.(hardFailure := false)
  }

  // The events that move the path watermark.
  predicate Invalidates(e: UpstreamEvent)
  {
    !e.DeclareCandidate? && !e.AdvanceWeightPolicy? && !e.ClearHardFailureSignal?
  }

  function Bound(s: State, n: Notification, limits: Limits): State
    requires n.policy in s.policies
  {
    var r := s.policies[n.policy];
    match Find(r.candidates, n.binding.path)
    case Some(c) =>
      s.(policies := s.policies[n.policy := WithCandidate(r, n.binding.path, c.(binding := Rebound(c.binding, n)))])
    case None =>
      if n.event.DeclareCandidate? then
        Reindexed(s.(policies :=
                    s.policies[n.policy := r.(candidates := Inserted(r.candidates, Candidate(n.binding, 0)))]),
                  n.policy, limits)
      else s
  }

  function NoteStep(s: State, n: Notification, ctx: Context, limits: Limits): Step
  {
    match NoteRefusal(s, n, ctx)
    case Some(outcome) => Step(s, outcome)
    case None =>
      match EventRefusal(s.policies[n.policy].candidates, n, limits)
      case Some(outcome) => Step(s, outcome)
      case None =>
        var bound := Bound(s, n, limits);
        Step(if Invalidates(n.event) then Invalidated(bound, n.binding.path) else bound, POLICY_UPDATED)
  }

  // Notifications before the first refused one stay applied.
  function NotesStep(s: State, ns: seq<Notification>, ctx: Context, limits: Limits): Step
    decreases |ns|
  {
    if ns == [] then Step(s, POLICY_UPDATED)
    else
      var first := NoteStep(s, ns[0], ctx, limits);
      if first.outcome != POLICY_UPDATED then first else NotesStep(first.state, ns[1..], ctx, limits)
  }

  function UpstreamRefusal(s: State, ns: seq<Notification>, ctx: Context, fingerprint: Id,
                           limits: Limits): Option<Outcome>
  {
    if ns == [] then Some(MALFORMED_REQUEST)
    else if |ns| > limits.maxBatch then Some(RESOURCE_LIMIT)
    else Replay(s, ctx.attempt, fingerprint)
  }

  function UpstreamStep(s: State, ns: seq<Notification>, ctx: Context, fingerprint: Id, limits: Limits): Step
  {
    match UpstreamRefusal(s, ns, ctx, fingerprint, limits)
    case Some(outcome) => Step(s, outcome)
    case None =>
      var applied := NotesStep(s, ns, ctx, limits);
      if applied.outcome != POLICY_UPDATED then applied
      else Step(Recorded(applied.state, ctx.attempt, fingerprint, POLICY_UPDATED, limits), POLICY_UPDATED)
  }

  // ------------------------------------------------------------------------
  // Evidence
  // ------------------------------------------------------------------------

  // A sample and the clock reading at which it is accepted.
  datatype Timed = Timed(sample: Publication, at: Ticks)

  function Samples(batch: seq<Timed>): seq<Publication>
  {
    seq(|batch|, i requires 0 <= i < |batch| => batch[i].sample)
  }

  function Readings(batch: seq<Timed>): seq<Ticks>
  {
    seq(|batch|, i requires 0 <= i < |batch| => batch[i].at)
  }

  // A publisher may only publish for paths that a policy in its scope binds.
  predicate Authorizes(s: State, scope: AuthorityScope, path: Id)
  {
    exists id :: id in Get(s.index.byPath, path) && id in s.policies
      && var p := s.policies[id].policy;
         scope.CoversRoute(p.scope.fabric, p.scope.namespace, p.semantics.target.route)
  }

  function AdmissionOf(s: State, publisher: Id, limits: Limits): Admission
    requires publisher in s.registrations
  {
    Admission((set path | path in s.index.byPath && Authorizes(s, s.registrations[publisher].scope, path)),
              limits.maxSources, limits.maxSamples)
  }

  function IndexSources(index: Index, byPath: Index, batch: seq<Publication>): Index
    decreases |batch|
  {
    if batch == [] then index
    else
      var p := batch[0];
      var dependents := Get(byPath, p.path);
      var next := if dependents == {} then index else index[p.source := Get(index, p.source) + dependents];
      IndexSources(next, byPath, batch[1..])
  }

  function PublishRefusal(s: State, batch: seq<Timed>, ctx: Context, fingerprint: Id, limits: Limits): Option<Outcome>
  {
    if batch == [] then Some(MALFORMED_REQUEST)
    else if |batch| > limits.maxBatch then Some(RESOURCE_LIMIT)
    else
      match CallerRefusal(s, ctx, None, None)
      case Some(outcome) => Some(outcome)
      case None =>
        match Replay(s, ctx.attempt, fingerprint)
        case Some(outcome) => Some(outcome)
        case None =>
          if ctx.publisher !in s.registrations then Some(UNAUTHORIZED)
          else Validate(s.evidence, map[], Samples(batch), AdmissionOf(s, ctx.publisher, limits))
  }

  // With an exhausted generation the samples are stored but nothing else is.
  function PublishStep(s: State, batch: seq<Timed>, ctx: Context, fingerprint: Id, limits: Limits): Step
  {
    match PublishRefusal(s, batch, ctx, fingerprint, limits)
    case Some(outcome) => Step(s, outcome)
    case None =>
      var admission := AdmissionOf(s, ctx.publisher, limits);
      ValidatedIsWellFormed(s.evidence, map[], Samples(batch), admission);
      var stored := s.(evidence := ApplyAll(s.evidence, Samples(batch), Readings(batch), admission));
      match Next(s.evidenceGeneration)
      case None => Step(stored, GENERATION_OVERFLOW)
      case Some(generation) =>
        var published := stored.(
          evidenceGeneration := generation,
          index := s.index.(bySource := IndexSources(s.index.bySource, s.index.byPath, Samples(batch))));
        Step(Recorded(published, ctx.attempt, fingerprint, POLICY_UPDATED, limits), POLICY_UPDATED)
  }

  // ------------------------------------------------------------------------
  // Phase one
  // ------------------------------------------------------------------------

  // What an evaluation read, as far as a commit compares it.
  datatype Dependencies = Dependencies(
    policy: Id, policyGeneration: u64, evidenceGeneration: u64, evidenceWatermark: u64, epoch: u64,
    authorityGeneration: u64, routeGeneration: u64, setGeneration: u64, paths: seq<Id>,
    authorities: seq<PathAuthority>, watermarks: seq<u64>)

  const NO_DEPENDENCIES: Dependencies := Dependencies(NO_ID, 0, 0, 0, 0, 0, 0, 0, [], [], [])

  datatype Ticket = Ticket(dependencies: Dependencies, decision: Id, verdict: Verdict)

  // The last candidate with a valid route generation names it.
  function RouteGenerationOf(cs: seq<Candidate>): u64
  {
    if cs == [] then 0
    else
      var last := cs[|cs| - 1].binding.route.generation;
      if last != 0 then last else RouteGenerationOf(cs[..|cs| - 1])
  }

  function DependenciesOf(s: State, policy: Id): Dependencies
    requires policy in s.policies
  {
    var r := s.policies[policy];
    var cs := r.candidates;
    Dependencies(policy, r.policy.generation, s.evidenceGeneration, s.evidence.watermark, s.epoch,
      s.authorityGeneration, RouteGenerationOf(cs),
      if cs != [] && cs[0].binding.multipath.Some? then cs[0].binding.multipath.value.generation else 0,
      seq(|cs|, i requires 0 <= i < |cs| => PathOf(cs[i])),
      seq(|cs|, i requires 0 <= i < |cs| => cs[i].binding.authority),
      seq(|cs|, i requires 0 <= i < |cs| => cs[i].watermark))
  }

  function RejectedTicket(outcome: Outcome): Ticket
  {
    Ticket(NO_DEPENDENCIES, NO_ID, Verdict(REJECTED, NONE, outcome, NO_ID, 0, false, None, []))
  }

  function BeginRefusal(s: State, policy: Id, ctx: Context): Option<Outcome>
  {
    if !ValidId(policy) then Some(MALFORMED_REQUEST)
    else if policy !in s.policies then Some(NOT_FOUND)
    else
      var p := s.policies[policy].policy;
      match TargetRefusal(s, ctx, p.semantics.target)
      case Some(outcome) => Some(outcome)
      case None =>
        if !p.lifecycle.Active? then Some(p.lifecycle.Refused())
        else if ctx.expectedPolicy.Some? && ctx.expectedPolicy.value != p.generation then Some(STALE_POLICY_GENERATION)
        else if ctx.expectedEvidence.Some? && ctx.expectedEvidence.value != s.evidenceGeneration
        then Some(STALE_EVIDENCE)
        else None
  }

  ghost function InputsOf(s: State, policy: Id, now: Ticks): Inputs
    requires policy in s.policies
  {
    var r := s.policies[policy];
    var sem := r.policy.semantics;
    Inputs(sem, r.candidates, r.preference, r.timing, Captured(s.evidence, r.candidates, sem.evidence), now)
  }

  // Reads the state, changes nothing.
  ghost function Begin(s: State, policy: Id, ctx: Context, decision: Id, now: Ticks): Ticket
  {
    match BeginRefusal(s, policy, ctx)
    case Some(outcome) => RejectedTicket(outcome)
    case None => Ticket(DependenciesOf(s, policy), decision, Decide(InputsOf(s, policy, now)))
  }

  // Begin behind the bound on tickets that are outstanding.
  ghost function Issue(
    s: State, outstanding: u64, policy: Id, ctx: Context, decision: Id, now: Ticks, limits: Limits): Ticket
  {
    if ValidId(policy) && outstanding >= limits.maxEvaluations then RejectedTicket(EVALUATION_LIMIT)
    else Begin(s, policy, ctx, decision, now)
  }

  // A ticket that read its dependencies is outstanding until a commit settles it;
  // a commit settles one whatever it answers.
  function IssuedCount(outstanding: u64, t: Ticket): nat
  {
    if ValidId(t.dependencies.policy) then outstanding + 1 else outstanding
  }

  function SettledCount(outstanding: u64): u64 { if outstanding != 0 then outstanding - 1 else 0 }

  // ------------------------------------------------------------------------
  // Phase two
  // ------------------------------------------------------------------------

  function MovedCause(c: Candidate, d: Dependencies, i: nat): Outcome
  {
    if i < |d.authorities| && AuthorityMoved(d.authorities[i], c.binding.authority) then STALE_PATH_AUTHORITY
    else if c.binding.multipath.Some? && (!c.binding.multipath.value.current || d.setGeneration == 0
            || c.binding.multipath.value.generation != d.setGeneration) then STALE_MULTIPATH_SET
    else if c.binding.route.generation != d.routeGeneration then STALE_ROUTE
    else STALE_PATH_AUTHORITY
  }

  predicate AuthorityMoved(recorded: PathAuthority, current: PathAuthority)
  {
    recorded.generation != current.generation || recorded.legal != current.legal
  }

  function DriftFrom(cs: seq<Candidate>, d: Dependencies, i: nat): Option<Outcome>
    requires i <= |cs| == |d.paths|
    decreases |cs| - i
  {
    if i == |cs| then None
    else if PathOf(cs[i]) != d.paths[i] then Some(REVALIDATION_REQUIRED)
    else if i < |d.watermarks| && cs[i].watermark != d.watermarks[i] then Some(MovedCause(cs[i], d, i))
    else if i < |d.authorities| && AuthorityMoved(d.authorities[i], cs[i].binding.authority)
    then Some(STALE_PATH_AUTHORITY)
    else DriftFrom(cs, d, i + 1)
  }

  function Drift(cs: seq<Candidate>, d: Dependencies): Option<Outcome>
  {
    if |cs| != |d.paths| then Some(REVALIDATION_REQUIRED) else DriftFrom(cs, d, 0)
  }

  // Everything a commit re-verifies before it looks at the verdict.
  function CommitRefusal(s: State, t: Ticket, ctx: Context, fingerprint: Id): Option<Outcome>
  {
    var d := t.dependencies;
    if t.verdict.lifecycle == REJECTED then Some(t.verdict.outcome)
    else if !ValidId(d.policy) then Some(MALFORMED_REQUEST)
    else
      match CallerRefusal(s, ctx, None, None)
      case Some(outcome) => Some(outcome)
      case None =>
        if d.policy !in s.policies then Some(NOT_FOUND)
        else
          var r := s.policies[d.policy];
          if s.epoch != d.epoch then Some(STALE_EPOCH)
          else if s.authorityGeneration != d.authorityGeneration then Some(REVALIDATION_REQUIRED)
          else if !r.policy.lifecycle.Active? then Some(r.policy.lifecycle.Refused())
          else if r.policy.generation != d.policyGeneration then Some(STALE_POLICY_GENERATION)
          else
            var stale := if t.verdict.lifecycle == ELIGIBLE then DependencyRefusal(s, r, d) else None;
            if stale.Some? then stale else Replay(s, ctx.attempt, fingerprint)
  }

  function DependencyRefusal(s: State, r: PolicyRecord, d: Dependencies): Option<Outcome>
  {
    if s.evidenceGeneration != d.evidenceGeneration || s.evidence.watermark != d.evidenceWatermark
    then Some(STALE_EVIDENCE)
    else Drift(r.candidates, d)
  }

  // Identities and digests minted by the coordinator are arguments.
  datatype Minted = Minted(decision: Id, transition: Id, digest: Id)

  function VerifiedHoldDown(sem: Semantics, penalty: u32): Ticks
  {
    if sem.dampening.enabled && penalty != 0 then Escalated(sem, penalty) else sem.holdDown
  }

  // The suppression predicates, asked again of the state as it is now.
  function SuppressedNow(r: PolicyRecord, v: Verdict, now: Ticks): Option<Outcome>
  {
    var sem, t := r.policy.semantics, r.timing;
    var reverse := ValidId(r.preference.previous) && r.preference.previous == v.target;
    if v.emergency then None
    else if t.holdDownActive && reverse && VerifiedHoldDown(sem, t.penalty) != 0 && now < t.holdDownDeadline
    then Some(HOLD_DOWN_ACTIVE)
    else if t.cooldownActive && now < t.cooldownDeadline then Some(COOLDOWN_ACTIVE)
    else if ChurnExhausted(sem.churn, t.churn, now) then Some(CHURN_LIMIT_REACHED)
    else None
  }

  predicate HeldDown(r: PolicyRecord, now: Ticks) { r.timing.holdDownActive && now < r.timing.holdDownDeadline }

  function Pending(s: State, now: Ticks): nat { |set id | id in s.policies && HeldDown(s.policies[id], now)| }

  function VerifyRefusal(s: State, r: PolicyRecord, v: Verdict, now: Ticks, limits: Limits): Option<Outcome>
  {
    match SuppressedNow(r, v, now)
    case Some(outcome) => Some(outcome)
    case None =>
      match Find(r.candidates, v.target)
      case None => Some(REVALIDATION_REQUIRED)
      case Some(c) =>
        if !c.binding.authority.legal then Some(STALE_PATH_AUTHORITY)
        else if v.targetAuthority != 0 && c.binding.authority.generation != v.targetAuthority
        then Some(STALE_PATH_AUTHORITY)
        else if Pending(s, now) >= limits.maxPending then Some(RESOURCE_LIMIT)
        else if Next(r.preference.adaptation).None? || Next(r.preference.transition).None?
        then Some(GENERATION_OVERFLOW)
        else None
  }

  function RaisedPenalty(d: Dampening, penalty: u32): u32
  {
    if d.enabled then Min(d.maxPenalty, WrapAdd32(penalty, d.increment)) else penalty
  }

  // The hold-down a commit arms.
  function ArmedHoldDown(sem: Semantics, penalty: u32): Ticks
  {
    if sem.dampening.enabled then Escalated(sem, RaisedPenalty(sem.dampening, penalty)) else sem.holdDown
  }

  function Armed(sem: Semantics, t: Timing, locked: Id, now: Ticks, limits: Limits): Timing
  {
    var holdDown := ArmedHoldDown(sem, t.penalty);
    Timing(holdDown != 0, WrapAdd(now, holdDown), locked, sem.cooldown != 0, WrapAdd(now, sem.cooldown),
           RaisedPenalty(sem.dampening, t.penalty), if sem.dampening.enabled then now else t.lastDecay,
           Base.Trimmed(t.churn + [now], limits.maxAdaptations))
  }

  // The preference that is displaced becomes the rollback anchor.
  function Anchored(p: Preference, now: Ticks): Stable
  {
    Stable(true, p.preferred, p.authorityGeneration, p.routeGeneration, p.setGeneration, p.adaptation, now)
  }

  function Noted(r: PolicyRecord, entry: HistoryEntry, limits: Limits): PolicyRecord
  {
    r.(history := Base.Trimmed(r.history + [entry], limits.maxHistory))
  }

  function CauseOf(v: Verdict): Cause { if v.emergency then EMERGENCY_OVERRIDE else TRIGGER_SATISFIED }

  function CommittedPreference(
    r: PolicyRecord, c: Candidate, t: Ticket, decision: Id, ctx: Context, epoch: u64, minted: Minted,
    now: Ticks): Preference
    requires Next(r.preference.adaptation).Some? && Next(r.preference.transition).Some?
  {
    var p, b := r.preference, c.binding;
    p.(previous := if p.established then p.preferred else NO_ID, preferred := b.path,
       authorityGeneration := b.authority.generation, routeGeneration := b.route.generation,
       multipath := r.policy.semantics.target.multipath,
       setGeneration := if b.multipath.Some? then b.multipath.value.generation else p.setGeneration,
       adaptation := Next(p.adaptation).value, transition := Next(p.transition).value,
       transitionId := minted.transition, proposal := t.verdict.proposal, committedAt := now, established := true,
       provenance := Provenance(ctx.publisher, ctx.boot, epoch, ctx.attempt, r.policy.generation, CauseOf(t.verdict)),
       decision := decision)
  }

  // Establishing the first preference is no adaptation and arms nothing.
  function Committed(
    r: PolicyRecord, c: Candidate, t: Ticket, ctx: Context, epoch: u64, minted: Minted, now: Ticks,
    limits: Limits): PolicyRecord
    requires Next(r.preference.adaptation).Some? && Next(r.preference.transition).Some?
  {
    var had := r.preference.established;
    var decision := if ValidId(t.decision) then t.decision else minted.decision;
    var preference := CommittedPreference(r, c, t, decision, ctx, epoch, minted, now);
    var moved := r.(
      preference := preference,
      stable := if had then Anchored(r.preference, now) else NO_STABLE,
      timing := if had then Armed(r.policy.semantics, r.timing, preference.previous, now, limits) else r.timing);
    Noted(moved, HistoryEntry(decision, COMMITTED, DECISION_COMMITTED, NONE, CauseOf(t.verdict), preference.previous,
                              preference.preferred, preference.adaptation, t.dependencies.evidenceGeneration, epoch,
                              now, minted.digest), limits)
  }

  // A suppressed evaluation is recorded with its reason.
  function SuppressionNoted(s: State, r: PolicyRecord, t: Ticket, minted: Minted, now: Ticks,
                            limits: Limits): PolicyRecord
  {
    var decision := if ValidId(t.decision) then t.decision else minted.decision;
    Noted(r, HistoryEntry(decision, SUPPRESSED_DECISION, t.verdict.outcome, t.verdict.suppression, TRIGGER_SATISFIED,
                          r.preference.preferred, t.verdict.target, r.preference.adaptation, s.evidenceGeneration,
                          s.epoch, now, minted.digest), limits)
  }

  // The ticket still asks for a move the record has not made.
  predicate AsksForMove(r: PolicyRecord, v: Verdict)
  {
    v.lifecycle == ELIGIBLE && !(r.preference.established && r.preference.preferred == v.target)
  }

  // The commit that changes the preference.
  predicate CommitsTicket(s: State, t: Ticket, ctx: Context, fingerprint: Id, now: Ticks, limits: Limits)
  {
    && CommitRefusal(s, t, ctx, fingerprint).None?
    && t.dependencies.policy in s.policies
    && AsksForMove(s.policies[t.dependencies.policy], t.verdict)
    && VerifyRefusal(s, s.policies[t.dependencies.policy], t.verdict, now, limits).None?
  }

  function CommitStep(s: State, t: Ticket, ctx: Context, fingerprint: Id, minted: Minted, now: Ticks,
                      limits: Limits): Step
  {
    match CommitRefusal(s, t, ctx, fingerprint)
    case Some(outcome) => Step(s, outcome)
    case None =>
      var id := t.dependencies.policy;
      var r := s.policies[id];
      if t.verdict.lifecycle != ELIGIBLE then
        var noted := s.(policies := s.policies[id := SuppressionNoted(s, r, t, minted, now, limits)]);
        Step(Recorded(noted, ctx.attempt, fingerprint, t.verdict.outcome, limits), t.verdict.outcome)
      else if !AsksForMove(r, t.verdict) then
        Step(Recorded(s, ctx.attempt, fingerprint, NO_CHANGE, limits), NO_CHANGE)
      else
        match VerifyRefusal(s, r, t.verdict, now, limits)
        case Some(outcome) => Step(s, outcome)
        case None =>
          var c := Find(r.candidates, t.verdict.target).value;
          var committed := s.(policies := s.policies[id := Committed(r, c, t, ctx, s.epoch, minted, now, limits)]);
          Step(Recorded(committed, ctx.attempt, fingerprint, DECISION_COMMITTED, limits), DECISION_COMMITTED)
  }

  // Begin and commit with nothing in between.
  ghost function EvaluateStep(
    s: State, policy: Id, ctx: Context, fingerprint: Id, minted: Minted, begun: Ticks, now: Ticks, limits: Limits): Step
  {
    CommitStep(s, Begin(s, policy, ctx, minted.decision, begun), ctx, fingerprint, minted, now, limits)
  }

  // ------------------------------------------------------------------------
  // Rollback
  // ------------------------------------------------------------------------

  function RollbackRefusal(s: State, policy: Id, ctx: Context, fingerprint: Id): Option<Outcome>
  {
    if !ValidId(policy) then Some(MALFORMED_REQUEST)
    else if policy !in s.policies then Some(NOT_FOUND)
    else
      var r := s.policies[policy];
      match TargetRefusal(s, ctx, r.policy.semantics.target)
      case Some(outcome) => Some(outcome)
      case None =>
        if !r.policy.lifecycle.Active? then Some(r.policy.lifecycle.Refused())
        else Replay(s, ctx.attempt, fingerprint)
  }

  // Membership as rollback asks it: the set identity is not compared again.
  predicate InSomeSet(target: Target, b: Binding)
  {
    target.multipath.Some? ==>
      b.multipath.Some? && b.multipath.value.current && b.path in b.multipath.value.members
  }

  // The second component says whether the refusal is recorded as an attempt.
  function RestoreRefusal(r: PolicyRecord): Option<(Outcome, bool)>
  {
    if !r.stable.established then Some((ROLLBACK_REFUSED, true))
    else
      match Find(r.candidates, r.stable.path)
      case None => Some((ROLLBACK_REFUSED, true))
      case Some(c) =>
        if !c.binding.authority.legal then Some((STALE_PATH_AUTHORITY, true))
        else if !c.binding.route.current then Some((STALE_ROUTE, false))
        else if !c.binding.available then Some((WITHDRAWN_UPSTREAM, false))
        else if !InSomeSet(r.policy.semantics.target, c.binding) then Some((STALE_MULTIPATH_SET, false))
        else if r.preference.established && r.preference.preferred == r.stable.path then Some((NO_CHANGE, true))
        else if Next(r.preference.adaptation).None? || Next(r.preference.transition).None?
        then Some((GENERATION_OVERFLOW, false))
        else None
  }

  function RestoredPreference(r: PolicyRecord, c: Candidate, ctx: Context, epoch: u64, minted: Minted,
                              now: Ticks): Preference
    requires Next(r.preference.adaptation).Some? && Next(r.preference.transition).Some?
  {
    var p, b := r.preference, c.binding;
    p.(previous := p.preferred, preferred := r.stable.path, authorityGeneration := b.authority.generation,
       routeGeneration := b.route.generation,
       setGeneration := if b.multipath.Some? then b.multipath.value.generation else p.setGeneration,
       adaptation := Next(p.adaptation).value, transition := Next(p.transition).value,
       transitionId := minted.transition, decision := minted.decision, committedAt := now,
       provenance := Provenance(ctx.publisher, ctx.boot, epoch, ctx.attempt, r.policy.generation, ROLLBACK_REQUESTED))
  }

  // Rollback arms the base durations and counts as churn, untrimmed.
  function RolledBack(
    r: PolicyRecord, c: Candidate, ctx: Context, s: State, minted: Minted, now: Ticks, limits: Limits): PolicyRecord
    requires Next(r.preference.adaptation).Some? && Next(r.preference.transition).Some?
  {
    var sem, p := r.policy.semantics, r.preference;
    var restored := RestoredPreference(r, c, ctx, s.epoch, minted, now);
    var moved := r.(
      preference := restored,
      stable := Anchored(p, now),
      timing := r.timing.(holdDownActive := sem.holdDown != 0, holdDownDeadline := WrapAdd(now, sem.holdDown),
                          lockedPath := p.preferred, cooldownActive := sem.cooldown != 0,
                          cooldownDeadline := WrapAdd(now, sem.cooldown), churn := r.timing.churn + [now]));
    Noted(moved, HistoryEntry(minted.decision, ROLLED_BACK, DECISION_COMMITTED, NONE, ROLLBACK_REQUESTED, p.preferred,
                              r.stable.path, restored.adaptation, s.evidenceGeneration, s.epoch, now, minted.digest),
          limits)
  }

  function RollbackStep(s: State, policy: Id, ctx: Context, fingerprint: Id, minted: Minted, now: Ticks,
                        limits: Limits): Step
  {
    match RollbackRefusal(s, policy, ctx, fingerprint)
    case Some(outcome) => Step(s, outcome)
    case None =>
      var r := s.policies[policy];
      match RestoreRefusal(r)
      case Some((outcome, noted)) =>
        Step(if noted then Recorded(s, ctx.attempt, fingerprint, outcome, limits) else s, outcome)
      case None =>
        var c := Find(r.candidates, r.stable.path).value;
        var back := s.(policies := s.policies[policy := RolledBack(r, c, ctx, s, minted, now, limits)]);
        Step(Recorded(back, ctx.attempt, fingerprint, DECISION_COMMITTED, limits), DECISION_COMMITTED)
  }

  // ------------------------------------------------------------------------
  // Save and recover
  // ------------------------------------------------------------------------

  // The state saved on one clock and recovered on another, which need not
  // continue it.
  ghost function RestartStep(s: State, saved: SaveTimes, now: Ticks, limits: Limits): Step
  {
    var d := Stripped(BuildDurable(s, saved));
    match RecoveryRefusal(d, limits)
    case Some(outcome) => Step(s, outcome)
    case None => Step(Recovered(d, now, limits), POLICY_UPDATED)
  }
}
