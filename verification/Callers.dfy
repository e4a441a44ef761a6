// Who may change what, told from the registrations alone (src/fabric.cpp,
// src/authority.cpp).

module Callers {
  import opened Base
  import opened Evidence
  import opened Outcomes
  import opened Policy
  import opened Records
  import opened Evaluation
  import opened Indexing
  import opened Durable
  import opened Fabric
  import opened Runs
  import opened Absorbing
  import Fencing

  // The request comes from the live incarnation of a registered publisher, in
  // the current epoch and through its own session.
  ghost predicate Live(s: State, ctx: Context)
  {
    && ValidId(ctx.publisher) && ValidId(ctx.boot) && ValidId(ctx.session) && ValidId(ctx.attempt)
    && ctx.epoch == s.epoch != 0
    && ctx.boot !in s.fenced && ctx.publisher in s.registrations
    && var r := s.registrations[ctx.publisher];
       r.boot == ctx.boot && r.session == ctx.session && r.scope.WellFormed()
  }

  // Its authority reaches the target; an empty list reaches everything.
  ghost predicate Governs(s: State, ctx: Context, target: Target)
  {
    && Live(s, ctx)
    && var scope := s.registrations[ctx.publisher].scope;
       && (scope.routes == [] || target.route in scope.routes)
       && (target.multipath.Some? ==> scope.sets == [] || target.multipath.value in scope.sets)
  }

  // Exactly such a caller is heard; what a refusal says is so.
  lemma CallerIsExact(s: State, ctx: Context, target: Target)
    ensures CallerRefusal(s, ctx, None, None).None? <==> Live(s, ctx)
    ensures TargetRefusal(s, ctx, target).None? <==> Governs(s, ctx, target)
    ensures match TargetRefusal(s, ctx, target)
            case None => true
            case Some(outcome) =>
              && (outcome == STALE_EPOCH ==> ctx.epoch != s.epoch)
              && (outcome == FENCED_WORKER ==> ctx.epoch == s.epoch && ctx.boot in s.fenced)
              && (outcome == STALE_WORKER ==>
                    ctx.publisher in s.registrations && s.registrations[ctx.publisher].boot != ctx.boot)
              && (outcome == UNAUTHORIZED_SCOPE ==>
                    ctx.publisher in s.registrations && s.registrations[ctx.publisher].boot == ctx.boot)
              && (outcome == UNAUTHORIZED ==> !Live(s, ctx))
              && outcome in {STALE_EPOCH, FENCED_WORKER, STALE_WORKER, UNAUTHORIZED_SCOPE, UNAUTHORIZED}
  {
  }

  // Any other caller changes nothing at all, whatever it asks for.
  lemma OutsiderChangesNothing(s: State, e: Event, limits: Limits)
    requires ContextOf(e).Some? && !Live(s, ContextOf(e).value)
    ensures After(s, e, limits) == s
  {
    hide After, Live, CallerRefusal;
    CallerIsExact(s, ContextOf(e).value, Target(NO_ID, None));
    RefusedStepChangesNothing(s, e, limits);
  }

  // ------------------------------------------------------------------------
  // Scope
  // ------------------------------------------------------------------------

  // A live caller may act on the policy.
  ghost predicate GovernsPolicy(s: State, ctx: Context, p: Id)
  {
    p in s.policies && Governs(s, ctx, s.policies[p].policy.semantics.target)
  }

  // Relabelling, revoking, rolling back and upstream notifications need authority
  // over the target of the policy.
  lemma LabelNeedsAuthority(s: State, p: Id, event: LifecycleEvent, ctx: Context)
    requires !GovernsPolicy(s, ctx, p)
    ensures TransitionStep(s, p, event, ctx).state == s
    ensures TransitionStep(s, p, event, ctx).outcome != POLICY_UPDATED
  {
    hide TargetRefusal, Governs, Relabelled;
    if p in s.policies {
      CallerIsExact(s, ctx, s.policies[p].policy.semantics.target);
    }
  }

  lemma RevocationNeedsAuthority(
    s: State, p: Id, reason: RevocationReason, detail: seq<byte>, ctx: Context, limits: Limits)
    requires !GovernsPolicy(s, ctx, p)
    ensures RevokeStep(s, p, reason, detail, ctx, limits).state == s
    ensures RevokeStep(s, p, reason, detail, ctx, limits).outcome != POLICY_UPDATED
  {
    hide TargetRefusal, Governs, Relabelled;
    if p in s.policies {
      CallerIsExact(s, ctx, s.policies[p].policy.semantics.target);
    }
  }

  lemma RollbackNeedsAuthority(
    s: State, p: Id, ctx: Context, fingerprint: Id, minted: Minted, now: Ticks, limits: Limits)
    requires !GovernsPolicy(s, ctx, p)
    ensures RollbackStep(s, p, ctx, fingerprint, minted, now, limits).state == s
  {
    hide TargetRefusal, Governs, RolledBack, RestoreRefusal, Recorded, Replay;
    if p in s.policies {
      CallerIsExact(s, ctx, s.policies[p].policy.semantics.target);
    }
  }

  // A notification also has to name the caller, or nobody, as its origin.
  lemma NoteNeedsAuthority(s: State, n: Notification, ctx: Context, limits: Limits)
    requires !GovernsPolicy(s, ctx, n.policy) || (ValidId(n.publisher) && n.publisher != ctx.publisher)
             || (ValidId(n.boot) && n.boot != ctx.boot) || (n.epoch != 0 && n.epoch != s.epoch)
    ensures NoteStep(s, n, ctx, limits).state == s && NoteStep(s, n, ctx, limits).outcome != POLICY_UPDATED
  {
    hide TargetRefusal, Governs, EventRefusal, Bound, Invalidated;
    if n.policy in s.policies {
      CallerIsExact(s, ctx, s.policies[n.policy].policy.semantics.target);
    }
  }

  // Beginning an evaluation needs it as well.
  lemma BeginNeedsAuthority(s: State, p: Id, ctx: Context, decision: Id, now: Ticks)
    requires !GovernsPolicy(s, ctx, p)
    ensures Begin(s, p, ctx, decision, now).verdict.lifecycle == REJECTED
  {
    hide TargetRefusal, Governs, Decide, InputsOf, DependenciesOf;
    if p in s.policies {
      CallerIsExact(s, ctx, s.policies[p].policy.semantics.target);
    }
  }

  // The declared scope and target must lie inside the authority of the caller.
  ghost predicate GovernsScope(s: State, ctx: Context, scope: PolicyScope, target: Target)
  {
    && Governs(s, ctx, target)
    && s.registrations[ctx.publisher].scope.fabric == scope.fabric
    && s.registrations[ctx.publisher].scope.namespace == scope.namespace
  }

  lemma ScopeIsExact(s: State, ctx: Context, scope: PolicyScope, target: Target)
    ensures ScopeRefusal(s, ctx, scope, target).None? <==> GovernsScope(s, ctx, scope, target)
    ensures ScopeRefusal(s, ctx, scope, target) != Some(POLICY_UPDATED)
    ensures ScopeRefusal(s, ctx, scope, target) != Some(POLICY_CREATED)
  {
    hide TargetRefusal, AuthorityScope.WellFormed;
    CallerIsExact(s, ctx, target);
  }

  lemma DeclarationNeedsAuthority(s: State, q: CreateRequest, id: Id, now: Ticks, limits: Limits)
    requires !GovernsScope(s, q.context, q.scope, q.semantics.target)
    ensures CreateStep(s, q, id, now, limits).state == s
  {
    hide ScopeRefusal, GovernsScope, Replay, Recorded, Reindexed, Semantics.FirstDefect;
    ScopeIsExact(s, q.context, q.scope, q.semantics.target);
  }

  lemma UpdateNeedsAuthority(s: State, q: UpdateRequest, now: Ticks, limits: Limits)
    requires !GovernsScope(s, q.context, q.scope, q.semantics.target)
    ensures UpdateStep(s, q, now, limits).state == s
  {
    hide ScopeRefusal, GovernsScope, Replay, Recorded, Reindexed, Unindexed, Updated, Semantics.FirstDefect;
    ScopeIsExact(s, q.context, q.scope, q.semantics.target);
  }

  // ------------------------------------------------------------------------
  // Displacement
  // ------------------------------------------------------------------------

  ghost predicate Holds(s: State, publisher: Id, boot: Id)
  {
    publisher in s.registrations && s.registrations[publisher].boot == boot
  }

  // A boot that stops being the live one of its publisher, by a new incarnation,
  // by being fenced or by a new epoch, is fenced from then on.
  lemma DisplacedIsFenced(s: State, e: Event, publisher: Id, boot: Id, limits: Limits)
    requires Holds(s, publisher, boot) && !Holds(After(s, e, limits), publisher, boot) && !e.op.Restart?
    ensures boot in After(s, e, limits).fenced
  {
    hide CreateStep, UpdateStep, TransitionStep, RevokeStep, UpstreamStep, PublishStep, CommitStep, RollbackStep,
         RestartStep, Quiesced;
    if !e.op.Register? && !e.op.FencePublisher? && !e.op.AdvanceEpoch? {
      Fencing.StepAuthority(s, e, limits);
    }
  }

  // Only registration makes a boot live: a fenced one stays out, a known
  // publisher may always come back and a new one needs room.
  lemma RegistrationIsExact(s: State, publisher: Id, boot: Id, scope: AuthorityScope, session: Id, limits: Limits)
    ensures var t := RegisterStep(s, publisher, boot, scope, session, limits);
            && (t.outcome in {POLICY_UPDATED, IDEMPOTENT} <==>
                  && ValidId(publisher) && ValidId(boot) && ValidId(session) && scope.WellFormed()
                  && boot !in s.fenced
                  && (publisher in s.registrations || |s.registrations| < limits.maxPublishers))
            && (t.outcome in {POLICY_UPDATED, IDEMPOTENT} ==>
                  && publisher in t.state.registrations
                  && t.state.registrations[publisher]
                       == Registration(boot, scope, s.epoch, s.authorityGeneration, session)
                  && (t.outcome == IDEMPOTENT <==> Holds(s, publisher, boot))
                  && forall other :: other != publisher ==>
                       (other in t.state.registrations <==> other in s.registrations)
                       && (other in s.registrations ==> t.state.registrations[other] == s.registrations[other]))
            && (t.outcome !in {POLICY_UPDATED, IDEMPOTENT} ==> t.state == s)
  {
  }
}
