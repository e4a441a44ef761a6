// When the requests that govern a policy are accepted and what they leave, told
// from the records alone (src/fabric_policy.cpp, src/lifecycle.cpp,
// src/fabric_evaluate.cpp, src/fabric.cpp).

module Requests {
  import opened Base
  import opened Outcomes
  import opened Policy
  import opened Records
  import opened Evaluation
  import opened Indexing
  import opened Fabric
  import opened Runs
  import opened Callers
  import opened Commitment
  import Choice
  import Merit
  import Revalidation
  import Verdicts

  // ------------------------------------------------------------------------
  // Transitions
  // ------------------------------------------------------------------------

  // Where an event leads.
  ghost predicate LeadsTo(event: LifecycleEvent, next: Lifecycle)
  {
    match event
    case Activate => next == Active
    case Resume => next == Active
    case Revalidate => next == Active
    case Suspend => next == Suspended
    case RequireRevalidation => next == NeedsRevalidation
    case Revoke => next == Revoked
    case Supersede => next == Superseded
    case Retire => next == Retired
  }

  // From where: nothing leads out of the three ends.
  ghost predicate StartsFrom(event: LifecycleEvent, state: Lifecycle)
  {
    match event
    case Activate => state == Declared
    case Resume => state == Suspended
    case Revalidate => state == NeedsRevalidation
    case Suspend => state in {Active, NeedsRevalidation}
    case RequireRevalidation => state in {Declared, Active, Suspended}
    case _ => state in {Declared, Active, Suspended, NeedsRevalidation}
  }

  // Revoked, superseded and retired policies answer every request accordingly.
  ghost predicate EndAnswer(state: Lifecycle, outcome: Outcome)
  {
    && (state == Revoked ==> outcome == REVOKED)
    && (state == Superseded ==> outcome == POLICY_SUPERSEDED)
    && (state == Retired ==> outcome == RETIRED)
  }

  ghost predicate Ended(state: Lifecycle) { state in {Revoked, Superseded, Retired} }

  lemma LifecycleIsExact(state: Lifecycle, event: LifecycleEvent)
    ensures NextLifecycle(state, event).Some? <==> StartsFrom(event, state)
    ensures NextLifecycle(state, event).Some? ==> LeadsTo(event, NextLifecycle(state, event).value)
    ensures state.Terminal() <==> Ended(state)
    ensures StartsFrom(event, state) ==> !Ended(state)
    ensures EndAnswer(state, state.Refused())
  {
  }

  // Some candidate is legal, on a current route and available.
  ghost predicate HasUsable(r: PolicyRecord)
  {
    exists c :: c in r.candidates && c.binding.authority.legal && c.binding.route.current && c.binding.available
  }

  // Every other field of the record.
  ghost predicate OnlyLabelled(r': PolicyRecord, r: PolicyRecord)
  {
    && r'.candidates == r.candidates && r'.preference == r.preference && r'.stable == r.stable
    && r'.timing == r.timing && r'.history == r.history
    && r'.policy == r.policy.(lifecycle := r'.policy.lifecycle, epoch := r'.policy.epoch)
  }

  // A transition is accepted exactly from a live caller with authority over the
  // target, when the event starts from the policy's state and, to revalidate,
  // some candidate is usable; it leads where the event says and changes nothing
  // but the label and its epoch. An ended policy answers by its end. A REVALIDATE
  // without a usable candidate changes nothing either.
  lemma TransitionIsExact(s: State, p: Id, event: LifecycleEvent, ctx: Context)
    ensures var t := TransitionStep(s, p, event, ctx);
            && (t.outcome == POLICY_UPDATED <==>
                  && ValidId(p) && GovernsPolicy(s, ctx, p)
                  && StartsFrom(event, s.policies[p].policy.lifecycle)
                  && (event == Revalidate ==> HasUsable(s.policies[p])))
            && (t.outcome == POLICY_UPDATED ==>
                  && p in t.state.policies && t.state == s.(policies := s.policies[p := t.state.policies[p]])
                  && LeadsTo(event, t.state.policies[p].policy.lifecycle)
                  && t.state.policies[p].policy.epoch == s.epoch
                  && t.state.policies[p].revocation == s.policies[p].revocation
                  && OnlyLabelled(t.state.policies[p], s.policies[p]))
            && (t.outcome != POLICY_UPDATED ==> t.state == s)
            && (ValidId(p) && GovernsPolicy(s, ctx, p) && Ended(s.policies[p].policy.lifecycle) ==>
                  EndAnswer(s.policies[p].policy.lifecycle, t.outcome))
  {
    hide TargetRefusal, Governs, NextLifecycle, LeadsTo, StartsFrom;
    if p in s.policies {
      var state := s.policies[p].policy.lifecycle;
      LifecycleIsExact(state, event);
      CallerIsExact(s, ctx, s.policies[p].policy.semantics.target);
      Revalidation.RefusalIsNoUpdate(s, ctx, s.policies[p].policy.semantics.target);
      UsableIsExact(s.policies[p]);
      RevalidatesOnly(state, event);
      if s.policies[p].policy.lifecycle == NeedsRevalidation {
        var r := s.policies[p];
        assert Relabelled(r, NeedsRevalidation, r.policy.epoch) == r;
        assert s.policies[p := r] == s.policies;
      }
    }
  }

  lemma UsableIsExact(r: PolicyRecord)
    ensures (exists c :: c in r.candidates && LegallyUsable(c.binding)) <==> HasUsable(r)
  {
    if HasUsable(r) {
      var c :|
        c in r.candidates && c.binding.authority.legal && c.binding.route.current && c.binding.available;
      assert LegallyUsable(c.binding);
    }
  }

  lemma RevalidatesOnly(state: Lifecycle, event: LifecycleEvent)
    ensures StartsFrom(event, state) && event == Revalidate ==> state == NeedsRevalidation
  {
  }

  // A revocation is accepted exactly once, with room for it; it is recorded with
  // the policy and beside it, and the policy is revoked.
  lemma RevocationIsExact(
    s: State, p: Id, reason: RevocationReason, detail: seq<byte>, ctx: Context, limits: Limits)
    ensures var t := RevokeStep(s, p, reason, detail, ctx, limits);
            && (t.outcome == POLICY_UPDATED <==>
                  && ValidId(p) && GovernsPolicy(s, ctx, p) && p !in s.revocations
                  && !Ended(s.policies[p].policy.lifecycle) && |s.revocations| < limits.maxRevocations)
            && (t.outcome == POLICY_UPDATED ==>
                  && p in t.state.policies && p in t.state.revocations
                  && t.state == s.(policies := s.policies[p := t.state.policies[p]],
                                   revocations := s.revocations[p := t.state.revocations[p]])
                  && var r', v := t.state.policies[p], t.state.revocations[p];
                     && r'.revocation == Some(v) && r'.policy.lifecycle == Revoked && r'.policy.epoch == s.epoch
                     && OnlyLabelled(r', s.policies[p])
                     && v.policy == p && v.reason == reason && v.detail == detail && v.publisher == ctx.publisher
                     && v.epoch == s.epoch && v.generation == s.policies[p].policy.generation
                     && v.authorityGeneration == s.authorityGeneration)
            && (t.outcome != POLICY_UPDATED ==> t.state == s)
            && (ValidId(p) && GovernsPolicy(s, ctx, p) && p in s.revocations ==>
                  t.outcome == if s.revocations[p].reason == reason then IDEMPOTENT else REVOKED)
  {
    hide TargetRefusal, Governs;
    if p in s.policies {
      CallerIsExact(s, ctx, s.policies[p].policy.semantics.target);
      Revalidation.RefusalIsNoUpdate(s, ctx, s.policies[p].policy.semantics.target);
    }
  }

  // ------------------------------------------------------------------------
  // Updates and declarations
  // ------------------------------------------------------------------------

  // An accepted update replaces scope and semantics and advances the generation;
  // with a new target the bindings, the preference, the anchor and the timers go,
  // otherwise they stay. Label, history and revocation stay either way.
  ghost predicate Replaces(r': PolicyRecord, r: PolicyRecord, q: UpdateRequest, epoch: u64, now: Ticks)
  {
    && r'.policy.scope == q.scope && r'.policy.semantics == q.semantics
    && r'.policy.generation == r.policy.generation + 1 && r'.policy.updatedAt == now && r'.policy.epoch == epoch
    && r'.policy.id == r.policy.id && r'.policy.name == r.policy.name && r'.policy.lifecycle == r.policy.lifecycle
    && r'.policy.owner == r.policy.owner && r'.policy.declaredAt == r.policy.declaredAt
    && r'.policy.authorityGeneration == r.policy.authorityGeneration
    && r'.history == r.history && r'.revocation == r.revocation
    && if q.semantics.target != r.policy.semantics.target then
         && r'.candidates == [] && !r'.preference.established && r'.preference.preferred == NO_ID
         && r'.preference.previous == NO_ID && r'.preference.route == q.semantics.target.route
         && r'.preference.multipath == q.semantics.target.multipath
         && r'.preference.adaptation == r'.preference.transition == 1
         && !r'.stable.established && !r'.timing.holdDownActive && !r'.timing.cooldownActive
         && r'.timing.penalty == 0 && r'.timing.churn == []
       else
         && r'.candidates == r.candidates && r'.preference == r.preference && r'.stable == r.stable
         && r'.timing == r.timing
  }

  lemma UpdatedIs(r: PolicyRecord, q: UpdateRequest, epoch: u64, now: Ticks)
    requires Next(r.policy.generation).Some?
    ensures Replaces(Updated(r, q, epoch, now), r, q, epoch, now)
  {
  }

  // What an update needs.
  ghost predicate MayReplace(s: State, q: UpdateRequest, limits: Limits)
  {
    && ValidId(q.policy) && q.scope.WellFormed() && q.semantics.Valid() && q.policy in s.policies
    && GovernsScope(s, q.context, q.scope, q.semantics.target)
    && !Ended(s.policies[q.policy].policy.lifecycle)
    && q.context.expectedPolicy == Some(s.policies[q.policy].policy.generation)
    && s.policies[q.policy].policy.generation != 0xFFFF_FFFF_FFFF_FFFF
    && |q.scope.routes| <= limits.maxScopeRoutes && |q.scope.sets| <= limits.maxScopeSets
    && |q.semantics.thresholds| <= limits.maxThresholds && |q.semantics.evidence| <= limits.maxRequirements
    && |q.semantics.objective.terms| <= limits.maxTerms
    && Unused(s, q.context.attempt)
  }

  lemma UpdateOutcome(s: State, q: UpdateRequest, limits: Limits)
    ensures UpdateRefusal(s, q, limits) != Some(POLICY_UPDATED)
  {
    hide ScopeRefusal, Semantics.FirstDefect, PolicyScope.WellFormed, Next;
    ScopeIsExact(s, q.context, q.scope, q.semantics.target);
  }

  lemma UpdateIsExact(s: State, q: UpdateRequest, now: Ticks, limits: Limits)
    ensures var t := UpdateStep(s, q, now, limits);
            && (t.outcome == POLICY_UPDATED <==> MayReplace(s, q, limits))
            && (t.outcome == POLICY_UPDATED ==>
                  && q.policy in s.policies && t.state.policies.Keys == s.policies.Keys
                  && Replaces(t.state.policies[q.policy], s.policies[q.policy], q, s.epoch, now)
                  && (forall p :: p in s.policies && p != q.policy ==> t.state.policies[p] == s.policies[p]))
            && (t.outcome != POLICY_UPDATED ==> t.state == s)
  {
    hide UpdateRefusal, Updated, Recorded, Reindexed, Unindexed, Replaces, MayReplace;
    UpdateOutcome(s, q, limits);
    UpdatePolicies(s, q, now, limits);
    UpdateAdmission(s, q, limits);
    if UpdateRefusal(s, q, limits).None? {
      UpdatedIs(s.policies[q.policy], q, s.epoch, now);
    }
  }

  lemma UpdateAdmission(s: State, q: UpdateRequest, limits: Limits)
    ensures UpdateRefusal(s, q, limits).None? <==> MayReplace(s, q, limits)
  {
    hide ScopeRefusal, Semantics.FirstDefect, PolicyScope.WellFormed, GovernsScope, Replay, Unused;
    ScopeIsExact(s, q.context, q.scope, q.semantics.target);
    UnusedIsExact(s, q.context.attempt, q.fingerprint);
  }

  // What a declaration needs besides a new name.
  ghost predicate MayDeclare(s: State, q: CreateRequest, limits: Limits)
  {
    && ValidId(q.name) && q.scope.WellFormed() && q.semantics.Valid()
    && GovernsScope(s, q.context, q.scope, q.semantics.target)
    && |q.scope.routes| <= limits.maxScopeRoutes && |q.scope.sets| <= limits.maxScopeSets
    && |q.semantics.thresholds| <= limits.maxThresholds && |q.semantics.evidence| <= limits.maxRequirements
    && |q.semantics.objective.terms| <= limits.maxTerms && |q.semantics.priorities| <= limits.maxCandidates
    && (q.semantics.churn.max != 0 ==> q.semantics.churn.max <= limits.maxAdaptations)
    && (q.semantics.dampening.enabled ==> q.semantics.dampening.maxPenalty <= limits.maxPenalty)
    && Unused(s, q.context.attempt)
  }

  lemma DeclarationAdmission(s: State, q: CreateRequest, limits: Limits)
    ensures CreateRefusal(s, q, limits).None? <==> MayDeclare(s, q, limits)
    ensures CreateRefusal(s, q, limits) != Some(POLICY_CREATED)
  {
    hide ScopeRefusal, Semantics.FirstDefect, PolicyScope.WellFormed, GovernsScope, Replay, Unused;
    ScopeIsExact(s, q.context, q.scope, q.semantics.target);
    UnusedIsExact(s, q.context.attempt, q.fingerprint);
    DefectIsNoCreation(q.semantics);
  }

  lemma DefectIsNoCreation(sem: Semantics)
    ensures sem.FirstDefect().Refused() != POLICY_CREATED && sem.FirstDefect().Refused() != POLICY_UPDATED
  {
    hide Semantics.FirstDefect;
  }

  // A new policy is declared, not yet in service, with nothing bound, nothing
  // preferred and no timer running.
  ghost predicate Blank(r: PolicyRecord, s: State, q: CreateRequest, id: Id, now: Ticks)
  {
    && r.policy.id == id && r.policy.name == q.name && r.policy.scope == q.scope
    && r.policy.semantics == q.semantics && r.policy.generation == 1 && r.policy.lifecycle == Declared
    && r.policy.epoch == s.epoch && r.policy.owner == q.context.publisher && r.policy.declaredAt == now
    && r.candidates == [] && !r.preference.established && r.preference.preferred == NO_ID
    && r.preference.route == q.semantics.target.route && r.preference.multipath == q.semantics.target.multipath
    && !r.stable.established && !r.timing.holdDownActive && !r.timing.cooldownActive && r.timing.penalty == 0
    && r.timing.churn == [] && r.history == [] && r.revocation.None?
  }

  // The name leads to the policy, which is new unless its identity was taken; no
  // other policy changes.
  ghost predicate Adds(t: State, s: State, q: CreateRequest, id: Id, now: Ticks)
  {
    && t.names == s.names[q.name := id] && t.policies.Keys == s.policies.Keys + {id}
    && (forall p :: p in s.policies ==> t.policies[p] == s.policies[p])
    && (id !in s.policies ==> Blank(t.policies[id], s, q, id, now))
  }

  lemma CreatedAdds(s: State, q: CreateRequest, id: Id, now: Ticks, limits: Limits)
    requires CreateRefusal(s, q, limits).None? && q.name !in s.names && |s.policies| < limits.maxPolicies
    ensures CreateStep(s, q, id, now, limits).outcome == POLICY_CREATED
    ensures Adds(CreateStep(s, q, id, now, limits).state, s, q, id, now)
  {
    hide CreateRefusal, Recorded, Reindexed;
    var stored := s.(
      policies := if id in s.policies then s.policies else s.policies[id := NewRecord(NewPolicy(s, q, id, now))],
      names := s.names[q.name := id]);
    ReindexedKeeps(stored, id, limits);
    RecordedKeepsPolicies(Reindexed(stored, id, limits), q.context.attempt, q.fingerprint, POLICY_CREATED, limits);
    assert Adds(stored, s, q, id, now);
  }

  lemma NotCreated(s: State, q: CreateRequest, id: Id, now: Ticks, limits: Limits)
    requires CreateRefusal(s, q, limits) != Some(POLICY_CREATED)
    requires CreateRefusal(s, q, limits).Some? || q.name in s.names || |s.policies| >= limits.maxPolicies
    ensures var t := CreateStep(s, q, id, now, limits);
            t.outcome != POLICY_CREATED && t.state == s.(attempts := t.state.attempts)
  {
    hide CreateRefusal, Recorded, Reindexed, NewRecord, NewPolicy;
    RecordedKeepsPolicies(s, q.context.attempt, q.fingerprint, ALREADY_EXISTS, limits);
    RecordedKeepsPolicies(s, q.context.attempt, q.fingerprint, RESOURCE_LIMIT, limits);
  }

  // A declaration is accepted exactly when it is admissible, its name is new and
  // there is room; otherwise no policy and no name changes.
  lemma DeclarationIsExact(s: State, q: CreateRequest, id: Id, now: Ticks, limits: Limits)
    ensures var t := CreateStep(s, q, id, now, limits);
            && (t.outcome == POLICY_CREATED <==>
                  MayDeclare(s, q, limits) && q.name !in s.names && |s.policies| < limits.maxPolicies)
            && (if t.outcome == POLICY_CREATED then Adds(t.state, s, q, id, now)
                else t.state == s.(attempts := t.state.attempts))
  {
    hide CreateRefusal, CreateStep, MayDeclare, Adds;
    DeclarationAdmission(s, q, limits);
    if CreateRefusal(s, q, limits).None? && q.name !in s.names && |s.policies| < limits.maxPolicies {
      CreatedAdds(s, q, id, now, limits);
    } else {
      NotCreated(s, q, id, now, limits);
    }
  }

  // ------------------------------------------------------------------------
  // Rollback
  // ------------------------------------------------------------------------

  // The anchor may be preferred again.
  ghost predicate Restorable(r: PolicyRecord)
  {
    && r.stable.established
    && (exists c :: c in r.candidates && PathOf(c) == r.stable.path && Merit.Lawful(LooseTarget(r), c.binding))
    && Changes(r, r.stable.path)
    && r.preference.adaptation != 0xFFFF_FFFF_FFFF_FFFF && r.preference.transition != 0xFFFF_FFFF_FFFF_FFFF
  }

  // Rollback asks for membership in the set the binding names.
  ghost function LooseTarget(r: PolicyRecord): Target
  {
    var c := Find(r.candidates, r.stable.path);
    var target := r.policy.semantics.target;
    if target.multipath.Some? && c.Some? && c.value.binding.multipath.Some?
    then target.(multipath := Some(c.value.binding.multipath.value.set_)) else target
  }

  lemma RestoreIsExact(r: PolicyRecord)
    requires Choice.DistinctPaths(r.candidates)
    ensures RestoreRefusal(r).None? <==> Restorable(r)
    ensures RestoreRefusal(r).Some? ==> RestoreRefusal(r).value.0 != DECISION_COMMITTED
  {
    hide Find, Choice.DistinctPaths;
    Verdicts.FindIsExact(r.candidates, r.stable.path);
  }

  // The timers a rollback arms: the declared durations, without dampening, and
  // one more stamp.
  ghost predicate Rearms(a: Timing, sem: Semantics, t: Timing, from: Id, now: Ticks)
  {
    && a.holdDownActive == (sem.holdDown != 0) && a.holdDownDeadline == (now + sem.holdDown) % TWO_64
    && a.cooldownActive == (sem.cooldown != 0) && a.cooldownDeadline == (now + sem.cooldown) % TWO_64
    && a.lockedPath == from && a.penalty == t.penalty && a.lastDecay == t.lastDecay && a.churn == t.churn + [now]
  }

  ghost predicate Restores(s: State, p: Id, ctx: Context, minted: Minted, now: Ticks, limits: Limits, r': PolicyRecord)
    requires p in s.policies
  {
    var r, q := s.policies[p], r'.preference;
    && r'.policy == r.policy && r'.candidates == r.candidates && r'.revocation == r.revocation
    && q.preferred == r.stable.path && q.previous == r.preference.preferred && q.committedAt == now
    && (exists c :: c in r.candidates && PathOf(c) == r.stable.path
          && q.authorityGeneration == c.binding.authority.generation
          && q.routeGeneration == c.binding.route.generation
          && q.setGeneration == (if c.binding.multipath.Some? then c.binding.multipath.value.generation
                                 else r.preference.setGeneration))
    && q.adaptation == r.preference.adaptation + 1 && q.transition == r.preference.transition + 1
    && q.established == r.preference.established && q.decision == minted.decision
    && q.transitionId == minted.transition && q.proposal == r.preference.proposal
    && q.route == r.preference.route && q.multipath == r.preference.multipath
    && Signed(q.provenance, ctx, s.epoch, r.policy.generation, ROLLBACK_REQUESTED)
    && Anchors(r'.stable, r.preference, now)
    && Rearms(r'.timing, r.policy.semantics, r.timing, r.preference.preferred, now)
    && exists entry :: Tells(entry, r, minted, now) && Appends(r'.history, r.history, entry, limits.maxHistory)
  }

  ghost predicate Tells(entry: HistoryEntry, r: PolicyRecord, minted: Minted, now: Ticks)
  {
    && entry.lifecycle == ROLLED_BACK && entry.outcome == DECISION_COMMITTED && entry.cause == ROLLBACK_REQUESTED
    && entry.from == r.preference.preferred && entry.to == r.stable.path && entry.decision == minted.decision
    && entry.adaptation == r.preference.adaptation + 1 && entry.committedAt == now && entry.digest == minted.digest
  }

  lemma RolledBackIs(s: State, p: Id, c: Candidate, ctx: Context, minted: Minted, now: Ticks, limits: Limits)
    requires p in s.policies
    requires var r := s.policies[p];
             && c in r.candidates && PathOf(c) == r.stable.path
             && Next(r.preference.adaptation).Some? && Next(r.preference.transition).Some?
    ensures Restores(s, p, ctx, minted, now, limits, RolledBack(s.policies[p], c, ctx, s, minted, now, limits))
  {
    hide Base.Trimmed, Appends;
    var r := s.policies[p];
    var entry := HistoryEntry(minted.decision, ROLLED_BACK, DECISION_COMMITTED, NONE, ROLLBACK_REQUESTED,
                              r.preference.preferred, r.stable.path, r.preference.adaptation + 1, s.evidenceGeneration,
                              s.epoch, now, minted.digest);
    TrimmedAppends(r.history, entry, limits.maxHistory);
    assert Tells(entry, r, minted, now);
  }

  lemma RollbackAdmission(s: State, p: Id, ctx: Context, fingerprint: Id)
    ensures RollbackRefusal(s, p, ctx, fingerprint).None? <==>
      && ValidId(p) && GovernsPolicy(s, ctx, p) && s.policies[p].policy.lifecycle == Active && Unused(s, ctx.attempt)
    ensures RollbackRefusal(s, p, ctx, fingerprint) != Some(DECISION_COMMITTED)
  {
    hide TargetRefusal, Governs, Replay, Unused;
    UnusedIsExact(s, ctx.attempt, fingerprint);
    if p in s.policies {
      CallerIsExact(s, ctx, s.policies[p].policy.semantics.target);
    }
  }

  // A rollback succeeds exactly for a caller with authority, a new attempt, an
  // active policy and a restorable anchor. Then the anchor is preferred, what was
  // preferred is the anchor, the declared durations are armed and nothing else
  // changes; otherwise no policy does.
  lemma RollbackIsExact(s: State, p: Id, ctx: Context, fingerprint: Id, minted: Minted, now: Ticks, limits: Limits)
    requires p in s.policies ==> Choice.DistinctPaths(s.policies[p].candidates)
    ensures var t := RollbackStep(s, p, ctx, fingerprint, minted, now, limits);
            && (t.outcome == DECISION_COMMITTED <==>
                  && ValidId(p) && GovernsPolicy(s, ctx, p) && s.policies[p].policy.lifecycle == Active
                  && Unused(s, ctx.attempt) && Restorable(s.policies[p]))
            && (t.outcome == DECISION_COMMITTED ==>
                  && t.state.policies.Keys == s.policies.Keys
                  && Restores(s, p, ctx, minted, now, limits, t.state.policies[p])
                  && (forall q :: q in s.policies && q != p ==> t.state.policies[q] == s.policies[q])
                  && t.state == s.(policies := t.state.policies, attempts := t.state.attempts))
            && (t.outcome != DECISION_COMMITTED ==> t.state == s.(attempts := t.state.attempts))
  {
    hide RollbackRefusal, RestoreRefusal, RolledBack, Restores, Restorable, Logged, Governs, Unused,
         Choice.DistinctPaths;
    RollbackAdmission(s, p, ctx, fingerprint);
    if p in s.policies {
      var r := s.policies[p];
      RestoreIsExact(r);
      RestoreHasTarget(r);
      if RestoreRefusal(r).None? {
        RolledBackIs(s, p, Find(r.candidates, r.stable.path).value, ctx, minted, now, limits);
      }
    }
  }

  // ------------------------------------------------------------------------
  // Beginning an evaluation
  // ------------------------------------------------------------------------

  ghost predicate MayBegin(s: State, p: Id, ctx: Context)
  {
    && ValidId(p) && GovernsPolicy(s, ctx, p) && s.policies[p].policy.lifecycle == Active
    && (ctx.expectedPolicy.Some? ==> ctx.expectedPolicy.value == s.policies[p].policy.generation)
    && (ctx.expectedEvidence.Some? ==> ctx.expectedEvidence.value == s.evidenceGeneration)
  }

  lemma BeginIsExact(s: State, p: Id, ctx: Context)
    ensures BeginRefusal(s, p, ctx).None? <==> MayBegin(s, p, ctx)
  {
    hide TargetRefusal, Governs;
    if p in s.policies {
      CallerIsExact(s, ctx, s.policies[p].policy.semantics.target);
    }
  }

  // At the bound on outstanding tickets none is issued; below it the request is
  // begun, and counted when it was read. The count never passes the bound, and
  // each commit takes one off.
  lemma IssueIsExact(
    s: State, outstanding: u64, p: Id, ctx: Context, decision: Id, now: Ticks, limits: Limits)
    requires outstanding <= limits.maxEvaluations
    ensures var t := Issue(s, outstanding, p, ctx, decision, now, limits);
            && (ValidId(p) && outstanding == limits.maxEvaluations ==>
                  t.verdict.lifecycle == REJECTED && t.verdict.outcome == EVALUATION_LIMIT)
            && (ValidId(p) && outstanding < limits.maxEvaluations ==> t == Begin(s, p, ctx, decision, now))
            && (IssuedCount(outstanding, t) == outstanding + 1 <==>
                  MayBegin(s, p, ctx) && outstanding < limits.maxEvaluations)
            && outstanding <= IssuedCount(outstanding, t) <= limits.maxEvaluations
    ensures outstanding > 0 ==> SettledCount(outstanding) + 1 == outstanding
    ensures SettledCount(0) == 0
  {
    hide BeginRefusal, MayBegin, Decide, InputsOf;
    BeginIsExact(s, p, ctx);
    MayBeginIsNamed(s, p, ctx);
  }

  lemma MayBeginIsNamed(s: State, p: Id, ctx: Context)
    ensures MayBegin(s, p, ctx) ==> ValidId(p) && p in s.policies
  {
  }

  // ------------------------------------------------------------------------
  // Epochs
  // ------------------------------------------------------------------------

  // When the epoch can advance and the authority generation cannot, only the epoch
  // does, and the request is refused.
  lemma ExhaustedEpoch(s: State)
    ensures s.epoch == 0xFFFF_FFFF_FFFF_FFFF ==> AdvanceEpochStep(s) == Step(s, GENERATION_OVERFLOW)
    ensures s.epoch != 0xFFFF_FFFF_FFFF_FFFF && s.authorityGeneration == 0xFFFF_FFFF_FFFF_FFFF ==>
              AdvanceEpochStep(s) == Step(s.(epoch := s.epoch + 1), GENERATION_OVERFLOW)
  {
  }

  // Short of exhaustion a new epoch displaces every publisher, forgets every
  // attempt, stops every timer, clears every churn window and asks every policy
  // that has not ended for revalidation; preference, anchor and penalty stay.
  lemma EpochIsExact(s: State)
    ensures var t := AdvanceEpochStep(s);
            && (t.outcome == POLICY_UPDATED <==>
                  s.epoch != 0xFFFF_FFFF_FFFF_FFFF && s.authorityGeneration != 0xFFFF_FFFF_FFFF_FFFF)
            && (t.outcome == POLICY_UPDATED ==>
                  && t.state.epoch == s.epoch + 1 && t.state.authorityGeneration == s.authorityGeneration + 1
                  && t.state.registrations == map[] && t.state.attempts.entries == map[]
                  && t.state.attempts.order == []
                  && (forall p :: p in s.registrations ==> s.registrations[p].boot in t.state.fenced)
                  && s.fenced <= t.state.fenced && t.state.policies.Keys == s.policies.Keys
                  && (forall p :: p in s.policies ==> Stilled(t.state.policies[p], s.policies[p]))
                  && t.state.evidence == s.evidence && t.state.index == s.index && t.state.names == s.names
                  && t.state.revocations == s.revocations)
  {
    hide Quiesced, Stilled;
    if Next(s.epoch).Some? && Next(s.authorityGeneration).Some? {
      forall p | p in s.policies
        ensures Stilled(AdvanceEpochStep(s).state.policies[p], s.policies[p])
      {
        QuiescedIsStill(s.policies[p]);
      }
    }
  }

  ghost predicate Stilled(r': PolicyRecord, r: PolicyRecord)
  {
    && !r'.timing.holdDownActive && !r'.timing.cooldownActive && r'.timing.churn == []
    && r'.timing.penalty == r.timing.penalty
    && (if Ended(r.policy.lifecycle) then r'.policy == r.policy
        else r'.policy == r.policy.(lifecycle := NeedsRevalidation))
    && r'.candidates == r.candidates && r'.preference == r.preference && r'.stable == r.stable
    && r'.history == r.history && r'.revocation == r.revocation
  }

  lemma QuiescedIsStill(r: PolicyRecord)
    ensures Stilled(Quiesced(r), r)
  {
  }
}
