// The coordinator as it runs: one object whose fields the operations update in
// place. Each operation is proved against the step that specifies it
// (src/engine_impl.hpp, src/fabric*.cpp).

module Engine {
  import opened Base
  import opened Metrics
  import opened Evidence
  import opened Outcomes
  import opened Policy
  import opened Records
  import opened Ranking
  import opened Evaluation
  import opened Indexing
  import opened Durable
  import opened Fabric
  import opened Runs
  import opened Fencing
  import opened Moves
  import opened Invariants
  import Loading

  // What every operation keeps, operation by operation.
  lemma StepKeepsOk(s: State, op: Op, now: Ticks, limits: Limits)
    requires StateOk(s)
    ensures match op
            case Create(q, id) => StateOk(CreateStep(s, q, id, now, limits).state)
            case Update(q) => StateOk(UpdateStep(s, q, now, limits).state)
            case Transition(p, event, ctx) => StateOk(TransitionStep(s, p, event, ctx).state)
            case RevokePolicy(p, reason, detail, ctx) => StateOk(RevokeStep(s, p, reason, detail, ctx, limits).state)
            case Upstream(notes, ctx, fingerprint) => StateOk(UpstreamStep(s, notes, ctx, fingerprint, limits).state)
            case Commit(t, ctx, fingerprint, minted) =>
              StateOk(CommitStep(s, t, ctx, fingerprint, minted, now, limits).state)
            case Rollback(p, ctx, fingerprint, minted) =>
              StateOk(RollbackStep(s, p, ctx, fingerprint, minted, now, limits).state)
            case AdvanceEpoch => StateOk(AdvanceEpochStep(s).state)
            case Restart(saved) => StateOk(RestartStep(s, saved, now, limits).state)
            case _ => true
  {
    hide StateOk, RegisterStep, FenceStep, AdvanceEpochStep, CreateStep, UpdateStep, TransitionStep, RevokeStep,
         UpstreamStep, PublishStep, CommitStep, RollbackStep, RestartStep;
    StepOk(s, Event(op, now), limits);
  }

  lemma CreateOk(s: State, q: CreateRequest, id: Id, now: Ticks, limits: Limits)
    ensures StateOk(s) ==> StateOk(CreateStep(s, q, id, now, limits).state)
  {
    hide *;
    if StateOk(s) { StepKeepsOk(s, Create(q, id), now, limits); }
  }

  lemma UpdateOk(s: State, q: UpdateRequest, now: Ticks, limits: Limits)
    ensures StateOk(s) ==> StateOk(UpdateStep(s, q, now, limits).state)
  {
    hide *;
    if StateOk(s) { StepKeepsOk(s, Update(q), now, limits); }
  }

  lemma TransitionOk(s: State, p: Id, event: LifecycleEvent, ctx: Context, limits: Limits)
    ensures StateOk(s) ==> StateOk(TransitionStep(s, p, event, ctx).state)
  {
    hide *;
    if StateOk(s) { StepKeepsOk(s, Transition(p, event, ctx), 0, limits); }
  }

  lemma RevokeOk(s: State, p: Id, reason: RevocationReason, detail: seq<byte>, ctx: Context, limits: Limits)
    ensures StateOk(s) ==> StateOk(RevokeStep(s, p, reason, detail, ctx, limits).state)
  {
    hide *;
    if StateOk(s) { StepKeepsOk(s, RevokePolicy(p, reason, detail, ctx), 0, limits); }
  }

  lemma UpstreamOk(s: State, notes: seq<Notification>, ctx: Context, fingerprint: Id, limits: Limits)
    ensures StateOk(s) ==> StateOk(UpstreamStep(s, notes, ctx, fingerprint, limits).state)
  {
    hide *;
    if StateOk(s) { StepKeepsOk(s, Upstream(notes, ctx, fingerprint), 0, limits); }
  }

  lemma CommitOk(s: State, t: Ticket, ctx: Context, fingerprint: Id, minted: Minted, now: Ticks, limits: Limits)
    ensures StateOk(s) ==> StateOk(CommitStep(s, t, ctx, fingerprint, minted, now, limits).state)
  {
    hide *;
    if StateOk(s) { StepKeepsOk(s, Commit(t, ctx, fingerprint, minted), now, limits); }
  }

  lemma RollbackOk(s: State, p: Id, ctx: Context, fingerprint: Id, minted: Minted, now: Ticks, limits: Limits)
    ensures StateOk(s) ==> StateOk(RollbackStep(s, p, ctx, fingerprint, minted, now, limits).state)
  {
    hide *;
    if StateOk(s) { StepKeepsOk(s, Rollback(p, ctx, fingerprint, minted), now, limits); }
  }

  lemma AdvanceOk(s: State, limits: Limits)
    ensures StateOk(s) ==> StateOk(AdvanceEpochStep(s).state)
  {
    hide *;
    if StateOk(s) { StepKeepsOk(s, AdvanceEpoch, 0, limits); }
  }

  lemma RestartOk(s: State, saved: SaveTimes, now: Ticks, limits: Limits)
    ensures StateOk(s) ==> StateOk(RestartStep(s, saved, now, limits).state)
  {
    hide *;
    if StateOk(s) { StepKeepsOk(s, Restart(saved), now, limits); }
  }

  lemma SortedIn(s: State, p: Id)
    requires StateOk(s) && p in s.policies
    ensures Sorted(s.policies[p].candidates)
  {
    hide AnchorOk;
  }

  lemma IssuedNames(s: State, policy: Id)
    requires policy in s.policies
    ensures DependenciesOf(s, policy).policy == policy
  {
  }

  // A ticket is rejected exactly when it read no dependencies; it is as good as
  // no ticket to a commit. Below the bound it is the one that Begin makes.
  lemma IssueFacts(
    s: State, outstanding: u64, policy: Id, ctx: Context, fingerprint: Id, minted: Minted, begun: Ticks, now: Ticks,
    limits: Limits)
    ensures var t := Issue(s, outstanding, policy, ctx, minted.decision, begun, limits);
            && (t.verdict.lifecycle == REJECTED <==> !ValidId(t.dependencies.policy))
            && (t.verdict.lifecycle == REJECTED ==>
                  CommitStep(s, t, ctx, fingerprint, minted, now, limits) == Step(s, t.verdict.outcome))
            && (ValidId(t.dependencies.policy) ==> outstanding < limits.maxEvaluations)
            && (outstanding < limits.maxEvaluations ==> t == Begin(s, policy, ctx, minted.decision, begun))
  {
    hide TargetRefusal, DependenciesOf, InputsOf, Judged, Ranked, FirstEligible, EntryStop, OrdinaryStop, Proposal,
         IncumbentStop, EmergencyHolds;
    if policy in s.policies {
      IssuedNames(s, policy);
    }
  }

  // What an evaluation answers: the ticket's own outcome when it was refused or
  // the commit is left to the caller, and otherwise the outcome of the commit.
  ghost function EvaluatedStep(
    s: State, outstanding: u64, policy: Id, ctx: Context, fingerprint: Id, minted: Minted, deferCommit: bool,
    begun: Ticks, now: Ticks, limits: Limits): Step
  {
    var t := Issue(s, outstanding, policy, ctx, minted.decision, begun, limits);
    if deferCommit || t.verdict.lifecycle == REJECTED then Step(s, t.verdict.outcome)
    else CommitStep(s, t, ctx, fingerprint, minted, now, limits)
  }

  class Coordinator {
    const limits: Limits

    var epoch: u64
    var authorityGeneration: u64
    var evidenceGeneration: u64
    var upstreamWatermark: u64
    var evidence: Store
    var policies: map<Id, PolicyRecord>
    var names: map<Id, Id>
    var registrations: map<Id, Registration>
    var fenced: set<Id>
    var revocations: map<Id, Revocation>
    var attempts: AttemptLog
    var index: Indexes
    var outstanding: u64

    function Model(): State
      reads this
    {
      State(epoch, authorityGeneration, evidenceGeneration, upstreamWatermark, evidence, policies, names, registrations,
            fenced, revocations, attempts, index)
    }

    ghost predicate Valid()
      reads this
    {
      StateOk(Model())
    }

    constructor (configured: Limits)
      ensures limits == configured && Model() == INITIAL_STATE && Valid() && outstanding == 0
    {
      limits := configured;
      epoch, authorityGeneration, evidenceGeneration := 1, 1, 1;
      upstreamWatermark, evidence, fenced := 0, Store(map[], 0), {};
      policies, names, registrations, revocations := map[], map[], map[], map[];
      attempts, index, outstanding := AttemptLog(map[], []), Indexes(map[], map[], map[], map[]), 0;
    }

    // ----------------------------------------------------------------------
    // Attempts
    // ----------------------------------------------------------------------

    method RecordAttempt(attempt: Id, fingerprint: Id, outcome: Outcome)
      modifies this`attempts
      ensures attempts == if ValidId(attempt)
                          then Logged(old(attempts), attempt, Attempt(fingerprint, outcome), limits.maxAttempts)
                          else old(attempts)
    {
      if !ValidId(attempt) {
        return;
      }
      var known := attempt in attempts.entries;
      attempts := attempts.(entries := attempts.entries[attempt := Attempt(fingerprint, outcome)]);
      if !known {
        attempts := attempts.(order := attempts.order + [attempt]);
        PruneAttempts();
      }
    }

    // The oldest attempts are forgotten until the log fits its bound.
    method PruneAttempts()
      modifies this`attempts
      ensures var order := old(attempts).order;
              var excess := if |order| > limits.maxAttempts then |order| - limits.maxAttempts else 0;
              attempts == AttemptLog(old(attempts).entries - (set a | a in order[..excess]), order[excess..])
    {
      ghost var before, dropped := attempts, 0;
      while |attempts.order| > limits.maxAttempts
        invariant dropped <= |before.order| && attempts.order == before.order[dropped..]
        invariant dropped > 0 ==> |attempts.order| >= limits.maxAttempts
        invariant attempts.entries == before.entries - (set a | a in before.order[..dropped])
        decreases |attempts.order|
      {
        var oldest := attempts.order[0];
        assert before.order[..dropped + 1] == before.order[..dropped] + [oldest];
        attempts := AttemptLog(attempts.entries - {oldest}, attempts.order[1..]);
        dropped := dropped + 1;
      }
    }

    // ----------------------------------------------------------------------
    // Reverse indexes
    // ----------------------------------------------------------------------

    method ReindexPolicy(policy: Id)
      modifies this`index
      ensures index == if policy in policies
                       then IndexedWith(old(index), policies[policy], evidence, policy, PathCap(limits))
                       else old(index)
    {
      if policy !in policies {
        return;
      }
      var r := policies[policy];
      var byPath := IndexCandidates(index.byPath, r.candidates, policy, PathCap(limits));
      var byRoute := Add(index.byRoute, r.policy.semantics.target.route, policy);
      var bySet := index.bySet;
      if r.policy.semantics.target.multipath.Some? {
        bySet := Add(bySet, r.policy.semantics.target.multipath.value, policy);
      }
      var sources := CollectSources(evidence, r.candidates);
      var bySource := AddSources(index.bySource, sources, policy);
      index := Indexes(byPath, byRoute, bySet, bySource);
    }

    method UnindexPolicy(policy: Id)
      modifies this`index
      ensures index == if policy in policies
                       then IndexedWithout(old(index), policies[policy], evidence, policy)
                       else old(index)
    {
      if policy !in policies {
        return;
      }
      var r := policies[policy];
      var byPath := DropCandidates(index.byPath, r.candidates, policy);
      var byRoute := Drop(index.byRoute, r.policy.semantics.target.route, policy);
      var bySet := index.bySet;
      if r.policy.semantics.target.multipath.Some? {
        bySet := Drop(bySet, r.policy.semantics.target.multipath.value, policy);
      }
      var sources := CollectSources(evidence, r.candidates);
      var bySource := DropSources(index.bySource, sources, policy);
      index := Indexes(byPath, byRoute, bySet, bySource);
    }

    // Only the policies that bind the path are touched.
    method ApplyInvalidation(path: Id)
      modifies this`upstreamWatermark, this`policies
      ensures upstreamWatermark == Advanced(old(upstreamWatermark))
      ensures policies == map id | id in old(policies) ::
                if id in Get(index.byPath, path) then Bumped(old(policies)[id], path) else old(policies)[id]
    {
      upstreamWatermark := Advanced(upstreamWatermark);
      ghost var before := policies;
      var dependents := Get(index.byPath, path);
      var rest := dependents;
      while rest != {}
        invariant upstreamWatermark == Advanced(old(upstreamWatermark))
        invariant rest <= dependents && policies.Keys == before.Keys
        invariant forall id :: id in before ==>
          policies[id] == if id in dependents && id !in rest then Bumped(before[id], path) else before[id]
        decreases rest
      {
        var id :| id in rest;
        rest := rest - {id};
        if id in policies {
          policies := policies[id := Bumped(policies[id], path)];
        }
      }
    }

    // ----------------------------------------------------------------------
    // Publishers and epochs
    // ----------------------------------------------------------------------

    method RegisterPublisher(publisher: Id, boot: Id, scope: AuthorityScope, session: Id) returns (outcome: Outcome)
      requires Valid()
      modifies this`registrations, this`fenced
      ensures Step(Model(), outcome) == RegisterStep(old(Model()), publisher, boot, scope, session, limits) && Valid()
    {
      if !ValidId(publisher) || !ValidId(boot) || !ValidId(session) || !scope.WellFormed() {
        return MALFORMED_REQUEST;
      }
      if boot in fenced {
        return FENCED_WORKER;
      }
      if publisher !in registrations && |registrations| >= limits.maxPublishers {
        return RESOURCE_LIMIT;
      }
      var live := Registration(boot, scope, epoch, authorityGeneration, session);
      if publisher in registrations {
        var previous := registrations[publisher];
        if previous.boot == boot {
          registrations := registrations[publisher := live];
          return IDEMPOTENT;
        }
        fenced := fenced + {previous.boot};
      }
      registrations := registrations[publisher := live];
      return POLICY_UPDATED;
    }

    method FencePublisher(publisher: Id, boot: Id) returns (outcome: Outcome)
      requires Valid()
      modifies this`registrations, this`fenced
      ensures Step(Model(), outcome) == FenceStep(old(Model()), publisher, boot) && Valid()
    {
      if publisher !in registrations || registrations[publisher].boot != boot {
        return NOT_FOUND;
      }
      fenced := fenced + {boot};
      registrations := registrations - {publisher};
      return POLICY_UPDATED;
    }

    method AdvanceEpoch() returns (outcome: Outcome)
      requires Valid()
      modifies this
      ensures outstanding == old(outstanding)
      ensures Step(Model(), outcome) == AdvanceEpochStep(old(Model())) && Valid()
    {
      hide StateOk, QuiescedAll, LiveBoots;
      AdvanceOk(Model(), limits);
      var next := Next(epoch);
      if next.None? {
        return GENERATION_OVERFLOW;
      }
      epoch := next.value;
      var authority := Next(authorityGeneration);
      if authority.None? {
        return GENERATION_OVERFLOW;
      }
      authorityGeneration := authority.value;
      ResetProcess();
      return POLICY_UPDATED;
    }

    // Every live worker is fenced and every policy sent back to revalidation.
    method ResetProcess()
      modifies this`fenced, this`registrations, this`attempts, this`policies
      ensures fenced == old(fenced) + LiveBoots(old(registrations)) && registrations == map[]
      ensures attempts == AttemptLog(map[], []) && policies == QuiescedAll(old(policies))
    {
      hide QuiescedAll, LiveBoots;
      FenceAll();
      registrations, attempts := map[], AttemptLog(map[], []);
      QuiesceAll();
    }

    method FenceAll()
      modifies this`fenced
      ensures fenced == old(fenced) + LiveBoots(registrations)
    {
      var rest := registrations.Keys;
      while rest != {}
        invariant rest <= registrations.Keys
        invariant fenced == old(fenced) + set p | p in registrations && p !in rest :: registrations[p].boot
        decreases rest
      {
        var p :| p in rest;
        rest := rest - {p};
        fenced := fenced + {registrations[p].boot};
      }
    }

    method QuiesceAll()
      modifies this`policies
      ensures policies == QuiescedAll(old(policies))
    {
      ghost var before := policies;
      var rest := policies.Keys;
      while rest != {}
        invariant rest <= before.Keys == policies.Keys
        invariant forall id :: id in before ==> policies[id] == if id in rest then before[id] else Quiesced(before[id])
        decreases rest
      {
        var id :| id in rest;
        rest := rest - {id};
        policies := policies[id := Quiesced(policies[id])];
      }
    }

    // ----------------------------------------------------------------------
    // Policies
    // ----------------------------------------------------------------------

    method CreatePolicy(q: CreateRequest, id: Id, now: Ticks) returns (outcome: Outcome)
      requires Valid()
      modifies this
      ensures outstanding == old(outstanding)
      ensures Step(Model(), outcome) == CreateStep(old(Model()), q, id, now, limits) && Valid()
    {
      hide CreateRefusal, Logged, Reindexed, StateOk, NewRecord, NewPolicy;
      CreateOk(Model(), q, id, now, limits);
      var refusal := CreateRefusal(Model(), q, limits);
      if refusal.Some? {
        return refusal.value;
      }
      if q.name in names {
        RecordAttempt(q.context.attempt, q.fingerprint, ALREADY_EXISTS);
        return ALREADY_EXISTS;
      }
      if |policies| >= limits.maxPolicies {
        RecordAttempt(q.context.attempt, q.fingerprint, RESOURCE_LIMIT);
        return RESOURCE_LIMIT;
      }
      EmplacePolicy(q, id, now);
      RecordAttempt(q.context.attempt, q.fingerprint, POLICY_CREATED);
      return POLICY_CREATED;
    }

    // The new record, its name and its index entries.
    method EmplacePolicy(q: CreateRequest, id: Id, now: Ticks)
      modifies this`policies, this`names, this`index
      ensures var s := old(Model());
              Model() == Reindexed(s.(
                policies :=
                  if id in s.policies then s.policies else s.policies[id := NewRecord(NewPolicy(s, q, id, now))],
                names := s.names[q.name := id]), id, limits)
    {
      hide IndexedWith, NewRecord, NewPolicy;
      if id !in policies {
        policies := policies[id := NewRecord(NewPolicy(Model(), q, id, now))];
      }
      names := names[q.name := id];
      ReindexPolicy(id);
    }

    method UpdatePolicy(q: UpdateRequest, now: Ticks) returns (outcome: Outcome)
      requires Valid()
      modifies this
      ensures outstanding == old(outstanding)
      ensures Step(Model(), outcome) == UpdateStep(old(Model()), q, now, limits) && Valid()
    {
      hide UpdateRefusal, Logged, Reindexed, Unindexed, StateOk, Updated;
      UpdateOk(Model(), q, now, limits);
      UpdateNeedsPolicy(Model(), q, limits);
      var refusal := UpdateRefusal(Model(), q, limits);
      if refusal.Some? {
        return refusal.value;
      }
      RewritePolicy(q.policy, Updated(policies[q.policy], q, epoch, now));
      RecordAttempt(q.context.attempt, q.fingerprint, POLICY_UPDATED);
      return POLICY_UPDATED;
    }

    // The record is replaced between unindexing the old and indexing the new.
    method RewritePolicy(policy: Id, r: PolicyRecord)
      requires policy in policies
      modifies this`policies, this`index
      ensures var s := old(Model());
              Model() == Reindexed(Unindexed(s, policy).(policies := s.policies[policy := r]), policy, limits)
    {
      hide IndexedWith, IndexedWithout;
      UnindexPolicy(policy);
      policies := policies[policy := r];
      ReindexPolicy(policy);
    }

    method TransitionPolicy(policy: Id, event: LifecycleEvent, ctx: Context) returns (outcome: Outcome)
      requires Valid()
      modifies this`policies
      ensures Step(Model(), outcome) == TransitionStep(old(Model()), policy, event, ctx) && Valid()
    {
      hide TargetRefusal, NextLifecycle, StateOk, Relabelled;
      TransitionOk(Model(), policy, event, ctx, limits);
      if !ValidId(policy) {
        return MALFORMED_REQUEST;
      }
      if policy !in policies {
        return NOT_FOUND;
      }
      var r := policies[policy];
      var refusal := TargetRefusal(Model(), ctx, r.policy.semantics.target);
      if refusal.Some? {
        return refusal.value;
      }
      if r.policy.lifecycle.Terminal() {
        return r.policy.lifecycle.Refused();
      }
      var next := NextLifecycle(r.policy.lifecycle, event);
      if next.None? {
        return MALFORMED_REQUEST;
      }
      if event.Revalidate? {
        var usable := AnyUsable(r.candidates);
        if !usable {
          policies := policies[policy := Relabelled(r, NeedsRevalidation, r.policy.epoch)];
          return REVALIDATION_REQUIRED;
        }
      }
      policies := policies[policy := Relabelled(r, next.value, epoch)];
      return POLICY_UPDATED;
    }

    static method AnyUsable(cs: seq<Candidate>) returns (usable: bool)
      ensures usable <==> exists c :: c in cs && LegallyUsable(c.binding)
    {
      for i := 0 to |cs|
        invariant forall j :: 0 <= j < i ==> !LegallyUsable(cs[j].binding)
      {
        if LegallyUsable(cs[i].binding) {
          assert cs[i] in cs;
          return true;
        }
      }
      return false;
    }

    method RevokePolicy(policy: Id, reason: RevocationReason, detail: seq<byte>, ctx: Context)
      returns (outcome: Outcome)
      requires Valid()
      modifies this`policies, this`revocations
      ensures Step(Model(), outcome) == RevokeStep(old(Model()), policy, reason, detail, ctx, limits) && Valid()
    {
      hide TargetRefusal, StateOk, Relabelled;
      RevokeOk(Model(), policy, reason, detail, ctx, limits);
      if !ValidId(policy) {
        return MALFORMED_REQUEST;
      }
      if policy !in policies {
        return NOT_FOUND;
      }
      var r := policies[policy];
      var refusal := TargetRefusal(Model(), ctx, r.policy.semantics.target);
      if refusal.Some? {
        return refusal.value;
      }
      if policy in revocations {
        return if revocations[policy].reason == reason then IDEMPOTENT else REVOKED;
      }
      if r.policy.lifecycle.Terminal() {
        return r.policy.lifecycle.Refused();
      }
      if |revocations| >= limits.maxRevocations {
        return RESOURCE_LIMIT;
      }
      var revocation := Revocation(policy, r.policy.generation, authorityGeneration, epoch, ctx.publisher, reason,
                                   detail);
      revocations := revocations[policy := revocation];
      policies := policies[policy := Relabelled(r, Revoked, epoch).(revocation := Some(revocation))];
      return POLICY_UPDATED;
    }

    // ----------------------------------------------------------------------
    // Upstream notifications
    // ----------------------------------------------------------------------

    method ApplyNotification(n: Notification, ctx: Context) returns (outcome: Outcome)
      requires Valid()
      modifies this`policies, this`index, this`upstreamWatermark
      ensures Step(Model(), outcome) == NoteStep(old(Model()), n, ctx, limits) && Valid()
    {
      hide NoteRefusal, EventRefusal, StateOk, Rebound, Inserted, IndexedWith, Bumped, Position, Invalidated;
      NoteKeepsOk(Model(), n, ctx, limits);
      NoteNeedsPolicy(Model(), n, ctx);
      var refusal := NoteRefusal(Model(), n, ctx);
      if refusal.Some? {
        return refusal.value;
      }
      refusal := EventRefusal(policies[n.policy].candidates, n, limits);
      if refusal.Some? {
        return refusal.value;
      }
      BindCandidate(n);
      if Invalidates(n.event) {
        Invalidate(n.binding.path);
      }
      return POLICY_UPDATED;
    }

    method Invalidate(path: Id)
      modifies this`upstreamWatermark, this`policies
      ensures Model() == Invalidated(old(Model()), path)
    {
      hide Bumped;
      ApplyInvalidation(path);
    }

    // The binding is rewritten where the binary search finds it; only a
    // declaration adds one.
    method BindCandidate(n: Notification)
      requires Valid() && n.policy in policies
      modifies this`policies, this`index
      ensures Model() == Bound(old(Model()), n, limits)
    {
      hide StateOk, Rebound, Inserted, IndexedWith;
      SortedIn(Model(), n.policy);
      var r := policies[n.policy];
      var i := FindCandidate(r.candidates, n.binding.path);
      if i < |r.candidates| {
        var c := r.candidates[i];
        policies := policies[n.policy := r.(candidates := r.candidates[i := c.(binding := Rebound(c.binding, n))])];
      } else if n.event.DeclareCandidate? {
        policies := policies[n.policy := r.(candidates := Inserted(r.candidates, Candidate(n.binding, 0)))];
        ReindexPolicy(n.policy);
      }
    }

    // The batch stops at the first refused notification; the ones before it
    // stay applied.
    method ApplyUpstream(notes: seq<Notification>, ctx: Context, fingerprint: Id) returns (outcome: Outcome)
      requires Valid()
      modifies this
      ensures outstanding == old(outstanding)
      ensures Step(Model(), outcome) == UpstreamStep(old(Model()), notes, ctx, fingerprint, limits) && Valid()
    {
      hide UpstreamRefusal, StateOk, Logged, NoteStep;
      UpstreamOk(Model(), notes, ctx, fingerprint, limits);
      var refusal := UpstreamRefusal(Model(), notes, ctx, fingerprint, limits);
      if refusal.Some? {
        return refusal.value;
      }
      outcome := ApplyAllNotes(notes, ctx);
      if outcome == POLICY_UPDATED {
        RecordAttempt(ctx.attempt, fingerprint, POLICY_UPDATED);
      }
    }

    method ApplyAllNotes(notes: seq<Notification>, ctx: Context) returns (outcome: Outcome)
      requires Valid()
      modifies this`policies, this`index, this`upstreamWatermark
      ensures Step(Model(), outcome) == NotesStep(old(Model()), notes, ctx, limits) && Valid()
    {
      hide StateOk, NoteStep;
      for i := 0 to |notes|
        invariant Valid()
        invariant NotesStep(old(Model()), notes, ctx, limits) == NotesStep(Model(), notes[i..], ctx, limits)
      {
        assert notes[i..][1..] == notes[i + 1..];
        outcome := ApplyNotification(notes[i], ctx);
        if outcome != POLICY_UPDATED {
          return;
        }
      }
      return POLICY_UPDATED;
    }

    // ----------------------------------------------------------------------
    // Evidence
    // ----------------------------------------------------------------------

    method ApplySample(p: Publication, at: Ticks)
      requires p.value.Metric?
      modifies this`evidence
      ensures evidence == Applied(old(evidence), p, at, Admission({}, limits.maxSources, limits.maxSamples))
    {
      var k := p.Slot();
      var s := Series(p.generation, p.quality, [], 0);
      var watermark := evidence.watermark;
      if k in evidence.series {
        s := evidence.series[k];
        if p.generation > s.generation {
          s := s.(samples := [], generation := p.generation, quality := p.quality);
          watermark := Advanced(watermark);
        }
      }
      var samples := TrimFront(s.samples + [Sample(p.value, at, p.sequence)], limits.maxSamples);
      evidence := Store(evidence.series[k := s.(samples := samples, published := WrapAdd(s.published, 1))], watermark);
    }

    static method TrimFront<T>(s: seq<T>, bound: nat) returns (r: seq<T>)
      ensures r == Base.Trimmed(s, bound)
    {
      r := s;
      ghost var dropped := 0;
      while |r| > bound
        invariant dropped <= |s| && r == s[dropped..] && (dropped > 0 ==> |r| >= bound)
        decreases |r|
      {
        r := r[1..];
        dropped := dropped + 1;
      }
    }

    lemma AdmissionIrrelevant(store: Store, p: Publication, at: Ticks, a: Admission, b: Admission)
      requires p.value.Metric? && a.maxSamples == b.maxSamples
      ensures Applied(store, p, at, a) == Applied(store, p, at, b)
    {
    }

    method StoreSamples(batch: seq<Timed>, a: Admission)
      requires a.maxSamples == limits.maxSamples
      requires forall i :: 0 <= i < |batch| ==> Samples(batch)[i].value.Metric?
      modifies this`evidence
      ensures evidence == ApplyAll(old(evidence), Samples(batch), Readings(batch), a)
    {
      hide Applied;
      for i := 0 to |batch|
        invariant ApplyAll(old(evidence), Samples(batch), Readings(batch), a)
               == ApplyAll(evidence, Samples(batch)[i..], Readings(batch)[i..], a)
      {
        assert Samples(batch)[i..][1..] == Samples(batch)[i + 1..];
        assert Readings(batch)[i..][1..] == Readings(batch)[i + 1..];
        assert Samples(batch)[i].value.Metric?;
        AdmissionIrrelevant(evidence, batch[i].sample, batch[i].at, a,
                            Admission({}, limits.maxSources, limits.maxSamples));
        ApplySample(batch[i].sample, batch[i].at);
      }
    }

    method IndexPublished(batch: seq<Timed>)
      modifies this`index
      ensures index == old(index).(bySource := IndexSources(old(index).bySource, old(index).byPath, Samples(batch)))
    {
      for i := 0 to |batch|
        invariant index == old(index).(bySource := index.bySource)
        invariant IndexSources(old(index).bySource, index.byPath, Samples(batch))
               == IndexSources(index.bySource, index.byPath, Samples(batch)[i..])
      {
        assert Samples(batch)[i..][1..] == Samples(batch)[i + 1..];
        var bySource := AddDependents(index.bySource, batch[i].sample.source, Get(index.byPath, batch[i].sample.path));
        index := index.(bySource := bySource);
      }
    }

    static method AddDependents(sources: Index, source: Id, dependents: set<Id>) returns (r: Index)
      ensures r == if dependents == {} then sources else sources[source := Get(sources, source) + dependents]
    {
      r := sources;
      var rest, done: set<Id> := dependents, {};
      while rest != {}
        invariant rest + done == dependents && rest !! done
        invariant r == if done == {} then sources else sources[source := Get(sources, source) + done]
        decreases rest
      {
        var id :| id in rest;
        assert Get(sources, source) + done + {id} == Get(sources, source) + (done + {id});
        assert done == {} ==> Get(sources, source) + {id} == Get(sources, source) + (done + {id});
        rest, done := rest - {id}, done + {id};
        r := Add(r, source, id);
      }
    }

    method PublishEvidence(batch: seq<Timed>, ctx: Context, fingerprint: Id) returns (outcome: Outcome)
      requires Valid()
      modifies this
      ensures outstanding == old(outstanding)
      ensures Step(Model(), outcome) == PublishStep(old(Model()), batch, ctx, fingerprint, limits) && Valid()
    {
      hide CallerRefusal, Replay, Validate, ApplyAll, IndexSources, Logged, StateOk;
      PublishKeepsOk(Model(), batch, ctx, fingerprint, limits);
      if batch == [] {
        return MALFORMED_REQUEST;
      }
      if |batch| > limits.maxBatch {
        return RESOURCE_LIMIT;
      }
      var refusal := CallerRefusal(Model(), ctx, None, None);
      if refusal.Some? {
        return refusal.value;
      }
      refusal := Replay(Model(), ctx.attempt, fingerprint);
      if refusal.Some? {
        return refusal.value;
      }
      if ctx.publisher !in registrations {
        return UNAUTHORIZED;
      }
      var a := AdmissionOf(Model(), ctx.publisher, limits);
      refusal := ValidateBatch(evidence, Samples(batch), a);
      if refusal.Some? {
        return refusal.value;
      }
      ValidatedIsWellFormed(evidence, map[], Samples(batch), a);
      StoreSamples(batch, a);
      var next := Next(evidenceGeneration);
      if next.None? {
        return GENERATION_OVERFLOW;
      }
      evidenceGeneration := next.value;
      IndexPublished(batch);
      RecordAttempt(ctx.attempt, fingerprint, POLICY_UPDATED);
      return POLICY_UPDATED;
    }

    // ----------------------------------------------------------------------
    // Phase one: reads the state and changes nothing
    // ----------------------------------------------------------------------

    method BuildDependencies(policy: Id) returns (d: Dependencies)
      requires policy in policies
      ensures d == DependenciesOf(Model(), policy)
    {
      hide RouteGenerationOf;
      var cs := policies[policy].candidates;
      var paths: seq<Id> := [];
      var authorities: seq<PathAuthority> := [];
      var watermarks: seq<u64> := [];
      for i := 0 to |cs|
        invariant paths == seq(i, k requires 0 <= k < i => PathOf(cs[k]))
        invariant authorities == seq(i, k requires 0 <= k < i => cs[k].binding.authority)
        invariant watermarks == seq(i, k requires 0 <= k < i => cs[k].watermark)
      {
        paths := paths + [PathOf(cs[i])];
        authorities := authorities + [cs[i].binding.authority];
        watermarks := watermarks + [cs[i].watermark];
      }
      var routeGeneration := LastRouteGeneration(cs);
      d := Dependencies(policy, policies[policy].policy.generation, evidenceGeneration, evidence.watermark, epoch,
        authorityGeneration, routeGeneration,
        if cs != [] && cs[0].binding.multipath.Some? then cs[0].binding.multipath.value.generation else 0,
        paths, authorities, watermarks);
    }

    static method LastRouteGeneration(cs: seq<Candidate>) returns (generation: u64)
      ensures generation == RouteGenerationOf(cs)
    {
      generation := 0;
      for i := 0 to |cs|
        invariant generation == RouteGenerationOf(cs[..i])
      {
        assert cs[..i + 1][..i] == cs[..i];
        if cs[i].binding.route.generation != 0 {
          generation := cs[i].binding.route.generation;
        }
      }
      assert cs[..|cs|] == cs;
    }

    method BeginEvaluation(policy: Id, ctx: Context, decision: Id, now: Ticks) returns (t: Ticket)
      requires Valid()
      modifies this`outstanding
      ensures t == Issue(Model(), old(outstanding), policy, ctx, decision, now, limits)
      ensures outstanding == IssuedCount(old(outstanding), t)
      ensures old(outstanding) <= limits.maxEvaluations ==> outstanding <= limits.maxEvaluations
    {
      hide StateOk, TargetRefusal, Decide, DependenciesOf, Captured;
      if !ValidId(policy) {
        return RejectedTicket(MALFORMED_REQUEST);
      }
      if outstanding >= limits.maxEvaluations {
        return RejectedTicket(EVALUATION_LIMIT);
      }
      var refusal := BeginRefusal(Model(), policy, ctx);
      if refusal.Some? {
        return RejectedTicket(refusal.value);
      }
      var dependencies := BuildDependencies(policy);
      var r := policies[policy];
      var snapshot := CaptureEvidence(evidence, r.candidates, r.policy.semantics.evidence);
      var verdict := EvaluateInputs(
        Inputs(r.policy.semantics, r.candidates, r.preference, r.timing, snapshot, now));
      outstanding := outstanding + 1;
      t := Ticket(dependencies, decision, verdict);
      IssuedNames(Model(), policy);
    }

    // ----------------------------------------------------------------------
    // Phase two
    // ----------------------------------------------------------------------

    static method CheckDrift(cs: seq<Candidate>, d: Dependencies) returns (drift: Option<Outcome>)
      ensures drift == Drift(cs, d)
    {
      if |cs| != |d.paths| {
        return Some(REVALIDATION_REQUIRED);
      }
      for i := 0 to |cs|
        invariant DriftFrom(cs, d, 0) == DriftFrom(cs, d, i)
      {
        if PathOf(cs[i]) != d.paths[i] {
          return Some(REVALIDATION_REQUIRED);
        }
        if i < |d.watermarks| && cs[i].watermark != d.watermarks[i] {
          return Some(MovedCause(cs[i], d, i));
        }
        if i < |d.authorities| && AuthorityMoved(d.authorities[i], cs[i].binding.authority) {
          return Some(STALE_PATH_AUTHORITY);
        }
      }
      return None;
    }

    method CheckCommit(t: Ticket, ctx: Context, fingerprint: Id) returns (refusal: Option<Outcome>)
      ensures refusal == CommitRefusal(Model(), t, ctx, fingerprint)
    {
      hide CallerRefusal, Replay, Drift;
      var d := t.dependencies;
      if t.verdict.lifecycle == REJECTED {
        return Some(t.verdict.outcome);
      }
      if !ValidId(d.policy) {
        return Some(MALFORMED_REQUEST);
      }
      refusal := CallerRefusal(Model(), ctx, None, None);
      if refusal.Some? {
        return;
      }
      if d.policy !in policies {
        return Some(NOT_FOUND);
      }
      var r := policies[d.policy];
      if epoch != d.epoch {
        return Some(STALE_EPOCH);
      }
      if authorityGeneration != d.authorityGeneration {
        return Some(REVALIDATION_REQUIRED);
      }
      if !r.policy.lifecycle.Active? {
        return Some(r.policy.lifecycle.Refused());
      }
      if r.policy.generation != d.policyGeneration {
        return Some(STALE_POLICY_GENERATION);
      }
      if t.verdict.lifecycle == ELIGIBLE {
        if evidenceGeneration != d.evidenceGeneration || evidence.watermark != d.evidenceWatermark {
          return Some(STALE_EVIDENCE);
        }
        refusal := CheckDrift(r.candidates, d);
        if refusal.Some? {
          return;
        }
      }
      refusal := Replay(Model(), ctx.attempt, fingerprint);
    }

    // Policies whose hold-down is still running.
    method CountPending(now: Ticks) returns (pending: nat)
      ensures pending == Pending(Model(), now)
    {
      pending := 0;
      var rest := policies.Keys;
      ghost var held := {};
      while rest != {}
        invariant rest <= policies.Keys
        invariant held == set id | id in policies && id !in rest && HeldDown(policies[id], now)
        invariant pending == |held|
        decreases rest
      {
        var id :| id in rest;
        rest := rest - {id};
        if policies[id].timing.holdDownActive && now < policies[id].timing.holdDownDeadline {
          pending := pending + 1;
          held := held + {id};
        }
      }
      assert held == set id | id in Model().policies && HeldDown(Model().policies[id], now);
    }

    method CheckSuppression(r: PolicyRecord, v: Verdict, now: Ticks) returns (refusal: Option<Outcome>)
      ensures refusal == SuppressedNow(r, v, now)
    {
      hide VerifiedHoldDown;
      var sem, t := r.policy.semantics, r.timing;
      if v.emergency {
        return None;
      }
      var reverse := ValidId(r.preference.previous) && r.preference.previous == v.target;
      if t.holdDownActive && reverse && VerifiedHoldDown(sem, t.penalty) != 0 && now < t.holdDownDeadline {
        return Some(HOLD_DOWN_ACTIVE);
      }
      if t.cooldownActive && now < t.cooldownDeadline {
        return Some(COOLDOWN_ACTIVE);
      }
      if sem.churn.Enabled() {
        var recent := CountRecent(t.churn, now, sem.churn.window);
        if recent >= sem.churn.max {
          return Some(CHURN_LIMIT_REACHED);
        }
      }
      return None;
    }

    method VerifyCommit(policy: Id, v: Verdict, now: Ticks) returns (refusal: Option<Outcome>)
      requires Valid() && policy in policies
      ensures refusal == VerifyRefusal(Model(), policies[policy], v, now, limits)
    {
      hide StateOk, SuppressedNow, Pending;
      SortedIn(Model(), policy);
      var r := policies[policy];
      refusal := CheckSuppression(r, v, now);
      if refusal.Some? {
        return;
      }
      var i := FindCandidate(r.candidates, v.target);
      if i == |r.candidates| {
        return Some(REVALIDATION_REQUIRED);
      }
      var authority := r.candidates[i].binding.authority;
      if !authority.legal || (v.targetAuthority != 0 && authority.generation != v.targetAuthority) {
        return Some(STALE_PATH_AUTHORITY);
      }
      var pending := CountPending(now);
      if pending >= limits.maxPending {
        return Some(RESOURCE_LIMIT);
      }
      if Next(r.preference.adaptation).None? || Next(r.preference.transition).None? {
        return Some(GENERATION_OVERFLOW);
      }
      return None;
    }

    method CommitEvaluation(t: Ticket, ctx: Context, fingerprint: Id, minted: Minted, now: Ticks)
      returns (outcome: Outcome)
      requires Valid()
      modifies this`policies, this`attempts, this`outstanding
      ensures Step(Model(), outcome) == CommitStep(old(Model()), t, ctx, fingerprint, minted, now, limits) && Valid()
      ensures outstanding == SettledCount(old(outstanding))
    {
      hide StateOk, CommitRefusal, VerifyRefusal, Logged, Committed, SuppressionNoted;
      CommitOk(Model(), t, ctx, fingerprint, minted, now, limits);
      CommitNeedsPolicy(Model(), t, ctx, fingerprint);
      outstanding := SettledCount(outstanding);
      var refusal := CheckCommit(t, ctx, fingerprint);
      if refusal.Some? {
        return refusal.value;
      }
      var id := t.dependencies.policy;
      var r := policies[id];
      if t.verdict.lifecycle != ELIGIBLE {
        policies := policies[id := SuppressionNoted(Model(), r, t, minted, now, limits)];
        RecordAttempt(ctx.attempt, fingerprint, t.verdict.outcome);
        return t.verdict.outcome;
      }
      if r.preference.established && r.preference.preferred == t.verdict.target {
        RecordAttempt(ctx.attempt, fingerprint, NO_CHANGE);
        return NO_CHANGE;
      }
      VerifiedHasTarget(Model(), r, t.verdict, now, limits);
      refusal := VerifyCommit(id, t.verdict, now);
      if refusal.Some? {
        return refusal.value;
      }
      MovePreference(id, t, ctx, minted, now);
      RecordAttempt(ctx.attempt, fingerprint, DECISION_COMMITTED);
      return DECISION_COMMITTED;
    }

    // The atomic state transition of a commit.
    method MovePreference(policy: Id, t: Ticket, ctx: Context, minted: Minted, now: Ticks)
      requires Valid() && policy in policies
      requires VerifyRefusal(Model(), policies[policy], t.verdict, now, limits).None?
      modifies this`policies
      ensures policies
           == old(policies)[policy := CommittedTo(old(policies)[policy], t, ctx, epoch, minted, now, limits)]
    {
      hide StateOk, SuppressedNow, Pending;
      SortedIn(Model(), policy);
      var r := policies[policy];
      var i := FindCandidate(r.candidates, t.verdict.target);
      var c := r.candidates[i];
      var had := r.preference.established;
      var decision := if ValidId(t.decision) then t.decision else minted.decision;
      var preference := CommittedPreference(r, c, t, decision, ctx, epoch, minted, now);
      var moved := r.(preference := preference, stable := NO_STABLE);
      if had {
        var timing := ArmTimers(r.policy.semantics, r.timing, preference.previous, now);
        moved := moved.(stable := Anchored(r.preference, now), timing := timing);
      }
      var entry := HistoryEntry(decision, COMMITTED, DECISION_COMMITTED, NONE, CauseOf(t.verdict), preference.previous,
        preference.preferred, preference.adaptation, t.dependencies.evidenceGeneration, epoch, now, minted.digest);
      var history := TrimFront(moved.history + [entry], limits.maxHistory);
      policies := policies[policy := moved.(history := history)];
    }

    method ArmTimers(sem: Semantics, t: Timing, locked: Id, now: Ticks) returns (armed: Timing)
      ensures armed == Armed(sem, t, locked, now, limits)
    {
      hide Escalated;
      armed := t;
      var holdDown := sem.holdDown;
      if sem.dampening.enabled {
        armed := armed.(penalty := RaisedPenalty(sem.dampening, t.penalty), lastDecay := now);
        holdDown := Escalated(sem, armed.penalty);
      }
      var churn := TrimFront(t.churn + [now], limits.maxAdaptations);
      armed := armed.(holdDownActive := holdDown != 0, holdDownDeadline := WrapAdd(now, holdDown), lockedPath := locked,
                      cooldownActive := sem.cooldown != 0, cooldownDeadline := WrapAdd(now, sem.cooldown),
                      churn := churn);
    }

    // Begin and commit, or only begin when the commit is left to the caller. A
    // refused evaluation settles nothing.
    method Evaluate(
      policy: Id, ctx: Context, fingerprint: Id, minted: Minted, deferCommit: bool, begun: Ticks, now: Ticks)
      returns (outcome: Outcome)
      requires Valid()
      modifies this`policies, this`attempts, this`outstanding
      ensures Valid()
      ensures Step(Model(), outcome) ==
        EvaluatedStep(old(Model()), old(outstanding), policy, ctx, fingerprint, minted, deferCommit, begun, now, limits)
      ensures outstanding == old(outstanding)
              || (deferCommit && outstanding == old(outstanding) + 1 <= limits.maxEvaluations)
      ensures !deferCommit && old(outstanding) < limits.maxEvaluations ==>
        Step(Model(), outcome) == EvaluateStep(old(Model()), policy, ctx, fingerprint, minted, begun, now, limits)
    {
      hide StateOk, Issue, Begin, CommitStep;
      IssueFacts(Model(), outstanding, policy, ctx, fingerprint, minted, begun, now, limits);
      var t := BeginEvaluation(policy, ctx, minted.decision, begun);
      if t.verdict.lifecycle == REJECTED && !ValidId(t.dependencies.policy) {
        return t.verdict.outcome;
      }
      if deferCommit {
        return t.verdict.outcome;
      }
      outcome := CommitEvaluation(t, ctx, fingerprint, minted, now);
    }

    // ----------------------------------------------------------------------
    // Rollback
    // ----------------------------------------------------------------------

    method CheckRestore(policy: Id) returns (refusal: Option<(Outcome, bool)>)
      requires Valid() && policy in policies
      ensures refusal == RestoreRefusal(policies[policy])
    {
      hide StateOk;
      SortedIn(Model(), policy);
      var r := policies[policy];
      if !r.stable.established {
        return Some((ROLLBACK_REFUSED, true));
      }
      var i := FindCandidate(r.candidates, r.stable.path);
      if i == |r.candidates| {
        return Some((ROLLBACK_REFUSED, true));
      }
      var b := r.candidates[i].binding;
      if !b.authority.legal {
        return Some((STALE_PATH_AUTHORITY, true));
      }
      if !b.route.current {
        return Some((STALE_ROUTE, false));
      }
      if !b.available {
        return Some((WITHDRAWN_UPSTREAM, false));
      }
      if !InSomeSet(r.policy.semantics.target, b) {
        return Some((STALE_MULTIPATH_SET, false));
      }
      if r.preference.established && r.preference.preferred == r.stable.path {
        return Some((NO_CHANGE, true));
      }
      if Next(r.preference.adaptation).None? || Next(r.preference.transition).None? {
        return Some((GENERATION_OVERFLOW, false));
      }
      return None;
    }

    method Rollback(policy: Id, ctx: Context, fingerprint: Id, minted: Minted, now: Ticks) returns (outcome: Outcome)
      requires Valid()
      modifies this`policies, this`attempts
      ensures Step(Model(), outcome) == RollbackStep(old(Model()), policy, ctx, fingerprint, minted, now, limits)
      ensures Valid()
    {
      hide StateOk, RollbackRefusal, RestoreRefusal, Logged, RolledBack;
      RollbackOk(Model(), policy, ctx, fingerprint, minted, now, limits);
      RollbackNeedsPolicy(Model(), policy, ctx, fingerprint);
      var refusal := RollbackRefusal(Model(), policy, ctx, fingerprint);
      if refusal.Some? {
        return refusal.value;
      }
      var r := policies[policy];
      RestoreHasTarget(r);
      var restore := CheckRestore(policy);
      if restore.Some? {
        if restore.value.1 {
          RecordAttempt(ctx.attempt, fingerprint, restore.value.0);
        }
        return restore.value.0;
      }
      SortedIn(Model(), policy);
      var i := FindCandidate(r.candidates, r.stable.path);
      FoundAt(r.candidates, r.stable.path, i);
      policies := policies[policy := RolledBack(r, r.candidates[i], ctx, Model(), minted, now, limits)];
      RecordAttempt(ctx.attempt, fingerprint, DECISION_COMMITTED);
      return DECISION_COMMITTED;
    }

    // ----------------------------------------------------------------------
    // Save and recover
    // ----------------------------------------------------------------------

    // Policies in the order of their identities, with every clock reading
    // turned into a duration.
    method Save(now: SaveTimes) returns (d: DurableState)
      ensures d == BuildDurable(Model(), now)
    {
      hide SavedTiming, AllHistory;
      var ids := SortKeys(policies.Keys);
      var saved, preferences, stables, timings, history := SaveSections(policies, ids, now);
      var revoked := SaveRevocations(revocations);
      d := DurableState(PERSISTENCE_FORMAT_VERSION, epoch, authorityGeneration, evidenceGeneration, evidence.watermark,
                        upstreamWatermark, saved, revoked, preferences, stables, timings, history);
    }

    static method SaveSections(ps: map<Id, PolicyRecord>, ids: seq<Id>, now: SaveTimes)
      returns (saved: seq<AdaptivePolicy>, preferences: seq<DurablePreference>, stables: seq<DurableStable>,
               timings: seq<DurableTiming>, history: seq<DurableHistory>)
      requires forall i :: 0 <= i < |ids| ==> ids[i] in ps
      ensures saved == seq(|ids|, k requires 0 <= k < |ids| => ps[ids[k]].policy)
      ensures preferences == seq(|ids|, k requires 0 <= k < |ids| => DurablePreference(ids[k], ps[ids[k]].preference))
      ensures stables == seq(|ids|, k requires 0 <= k < |ids| => DurableStable(ids[k], ps[ids[k]].stable))
      ensures timings == seq(|ids|, k requires 0 <= k < |ids| => SavedTiming(ids[k], ps[ids[k]], now(ids[k])))
      ensures history == AllHistory(ps, ids)
    {
      hide SavedTiming, SavedHistory;
      saved, preferences, stables, timings, history := [], [], [], [], [];
      for i := 0 to |ids|
        invariant |saved| == |preferences| == |stables| == |timings| == i
        invariant forall k :: 0 <= k < i ==>
          && saved[k] == ps[ids[k]].policy && preferences[k] == DurablePreference(ids[k], ps[ids[k]].preference)
          && stables[k] == DurableStable(ids[k], ps[ids[k]].stable)
          && timings[k] == SavedTiming(ids[k], ps[ids[k]], now(ids[k]))
        invariant history == AllHistory(ps, ids[..i])
      {
        assert ids[..i + 1][..i] == ids[..i];
        var r := ps[ids[i]];
        saved := saved + [r.policy];
        preferences := preferences + [DurablePreference(ids[i], r.preference)];
        stables := stables + [DurableStable(ids[i], r.stable)];
        timings := timings + [SavedTiming(ids[i], r, now(ids[i]))];
        history := history + SavedHistory(ids[i], r.history);
      }
      assert ids[..|ids|] == ids;
    }

    static method SaveRevocations(revocations: map<Id, Revocation>) returns (revoked: seq<Revocation>)
      ensures var ids := InOrderOf(revocations.Keys);
              revoked == seq(|ids|, i requires 0 <= i < |ids| => revocations[ids[i]])
    {
      var ids := SortKeys(revocations.Keys);
      revoked := [];
      for i := 0 to |ids|
        invariant |revoked| == i && forall k :: 0 <= k < i ==> revoked[k] == revocations[ids[k]]
      {
        revoked := revoked + [revocations[ids[i]]];
      }
    }

    // One section of the store against the recovered records.
    static method RestoreEach<T>(
      m: map<Id, PolicyRecord>, items: seq<T>, key: T -> Id, put: (PolicyRecord, T) -> PolicyRecord)
      returns (r: map<Id, PolicyRecord>)
      ensures r == Each(m, items, key, put)
    {
      r := m;
      for i := 0 to |items|
        invariant r == Each(m, items[..i], key, put)
      {
        assert items[..i + 1][..i] == items[..i];
        if key(items[i]) in r {
          r := r[key(items[i]) := put(r[key(items[i])], items[i])];
        }
      }
      assert items[..|items|] == items;
    }

    method RestoreRecords(d: DurableState, now: Ticks) returns (records: map<Id, PolicyRecord>)
      ensures records == RestoredRecords(d, now, limits)
    {
      records := map[];
      for i := 0 to |d.policies|
        invariant records == RestorePolicies(d.policies[..i], limits.conservativeRecovery)
      {
        assert d.policies[..i + 1][..i] == d.policies[..i];
        var p := d.policies[i];
        if p.id !in records {
          records := records[p.id := RestoredPolicy(p, limits.conservativeRecovery)];
        }
      }
      assert d.policies[..|d.policies|] == d.policies;
      records := RestoreEach(records, d.preferences, PreferenceKey, PutPreference);
      records := RestoreEach(records, d.stables, StableKey, PutStable);
      records := RestoreEach(records, d.timings, TimingKey, PutTiming(now));
      records := RestoreEach(records, d.revocations, RevocationKey, PutRevocation);
      records := RestoreEach(records, d.history, HistoryKey, PutHistory(limits.maxHistory));
    }

    // The whole state is replaced; nothing of the old process survives. A refused
    // store changes nothing; an accepted one need not be loadable.
    method Load(d: DurableState, now: Ticks) returns (outcome: Outcome)
      modifies this
      ensures outstanding == old(outstanding)
      ensures RecoveryRefusal(d, limits).Some? ==>
                outcome == RecoveryRefusal(d, limits).value && Model() == old(Model())
      ensures RecoveryRefusal(d, limits).None? ==>
                outcome == POLICY_UPDATED && Model() == Recovered(d, now, limits) && (Valid() <==> Loading.Loadable(d))
    {
      hide RestoredRecords, RestoreNames, RestoreRevocations, ReindexedAll, StateOk, Loading.Loadable;
      var refusal := RecoveryRefusal(d, limits);
      if refusal.Some? {
        return refusal.value;
      }
      Loading.LoadedIsOk(d, now, limits);
      Install(d, now);
      ReindexAll();
      return POLICY_UPDATED;
    }

    method Install(d: DurableState, now: Ticks)
      requires RecoveryRefusal(d, limits).None?
      modifies this
      ensures outstanding == old(outstanding)
      ensures Model() == Bare(d, now, limits)
    {
      hide RestoredRecords, RestoreNames, RestoreRevocations;
      var records := RestoreRecords(d, now);
      InstallCounters(d);
      policies, names := records, RestoreNames(d.policies);
      revocations := RestoreRevocations(d.revocations, records.Keys);
      ForgetProcess();
    }

    method InstallCounters(d: DurableState)
      requires Next(d.epoch).Some? && Next(d.authorityGeneration).Some?
      modifies this`epoch, this`authorityGeneration, this`evidenceGeneration, this`evidence, this`upstreamWatermark
      ensures epoch == Next(d.epoch).value && authorityGeneration == Next(d.authorityGeneration).value
      ensures evidenceGeneration == d.evidenceGeneration && evidence == Store(map[], d.evidenceWatermark)
      ensures upstreamWatermark == d.upstreamWatermark
    {
      epoch, authorityGeneration := Next(d.epoch).value, Next(d.authorityGeneration).value;
      evidenceGeneration, evidence := d.evidenceGeneration, Store(map[], d.evidenceWatermark);
      upstreamWatermark := d.upstreamWatermark;
    }

    method ForgetProcess()
      modifies this`registrations, this`fenced, this`attempts, this`index
      ensures registrations == map[] && fenced == {} && attempts == AttemptLog(map[], [])
      ensures index == Indexes(map[], map[], map[], map[])
    {
      registrations, fenced, attempts := map[], {}, AttemptLog(map[], []);
      index := Indexes(map[], map[], map[], map[]);
    }

    method ReindexAll()
      modifies this`index
      ensures Model() == ReindexedAll(old(Model()), InOrderOf(policies.Keys), limits)
    {
      hide IndexedWith, ReindexedAll;
      ghost var s := Model();
      var ids := SortKeys(policies.Keys);
      ReindexNone(s, limits);
      for i := 0 to |ids|
        invariant Model() == s.(index := index)
        invariant index == ReindexedAll(s, ids[..i], limits).index
      {
        ReindexNext(s, ids, i, limits);
        ReindexKeeps(s, ids[..i], limits);
        ReindexPolicy(ids[i]);
      }
      ReindexKeeps(s, ids, limits);
      assert ids[..|ids|] == ids;
    }

    // Save, carry over and recover, on a clock that need not be the same.
    method Restart(saved: SaveTimes, now: Ticks) returns (outcome: Outcome)
      requires Valid()
      modifies this
      ensures outstanding == old(outstanding)
      ensures Step(Model(), outcome) == RestartStep(old(Model()), saved, now, limits) && Valid()
    {
      hide StateOk, BuildDurable, Recovered, RecoveryRefusal;
      RestartOk(Model(), saved, now, limits);
      var d := Save(saved);
      outcome := Load(Stripped(d), now);
    }
  }

  lemma ReindexNone(s: State, limits: Limits)
    ensures ReindexedAll(s, [], limits) == s
  {
  }

  lemma ReindexNext(s: State, ids: seq<Id>, i: nat, limits: Limits)
    requires i < |ids|
    ensures ReindexedAll(s, ids[..i + 1], limits) == Reindexed(ReindexedAll(s, ids[..i], limits), ids[i], limits)
  {
    hide Reindexed;
    assert ids[..i + 1][..i] == ids[..i];
  }

  lemma FoundAt(cs: seq<Candidate>, path: Id, i: nat)
    requires i == Position(cs, path) && Find(cs, path).Some?
    ensures i < |cs| && cs[i] == Find(cs, path).value
  {
  }

  // A commit with its target looked up.
  ghost function CommittedTo(
    r: PolicyRecord, t: Ticket, ctx: Context, epoch: u64, minted: Minted, now: Ticks, limits: Limits): PolicyRecord
    requires Find(r.candidates, t.verdict.target).Some?
    requires Next(r.preference.adaptation).Some? && Next(r.preference.transition).Some?
  {
    Committed(r, Find(r.candidates, t.verdict.target).value, t, ctx, epoch, minted, now, limits)
  }

  lemma PublishKeepsOk(s: State, batch: seq<Timed>, ctx: Context, fingerprint: Id, limits: Limits)
    requires StateOk(s)
    ensures StateOk(PublishStep(s, batch, ctx, fingerprint, limits).state)
  {
    hide PublishStep, PolicyOk;
    PublishKeeps(s, batch, ctx, fingerprint, limits);
  }
}
