// States that no later step leaves: terminal policies and fenced boots.

module Absorbing {
  import opened Base
  import opened Outcomes
  import opened Policy
  import opened Records
  import opened Evidence
  import opened Evaluation
  import opened Indexing
  import opened Durable
  import opened Fabric
  import opened Runs
  import opened Fencing

  // ------------------------------------------------------------------------
  // Terminal policies
  // ------------------------------------------------------------------------

  ghost predicate TerminalIn(s: State, p: Id) { p in s.policies && s.policies[p].policy.lifecycle.Terminal() }

  // Everything governed is as it was; recovery only relabels the cause.
  ghost predicate Enshrined(s: State, t: State, p: Id)
  {
    && p in s.policies && p in t.policies
    && t.policies[p].policy == s.policies[p].policy
    && t.policies[p].stable == s.policies[p].stable
    && t.policies[p].preference == s.policies[p].preference.(
         provenance := s.policies[p].preference.provenance.(cause := t.policies[p].preference.provenance.cause))
  }

  lemma NoMoveWhenTerminal(s: State, e: Event, p: Id, limits: Limits)
    requires TerminalIn(s, p)
    ensures !Commits(s, e, p, limits) && !RollsBack(s, e, p) && !UpdatesPolicy(s, e, p, limits)
  {
    hide CommitRefusal, VerifyRefusal, RestoreRefusal, UpdateRefusal, RollbackRefusal;
    if e.op.Commit? {
      CommitNeedsPolicy(s, e.op.ticket, e.op.context, e.op.fingerprint);
    }
    if e.op.Rollback? {
      RollbackNeedsPolicy(s, p, e.op.context, e.op.fingerprint);
    }
    if e.op.Update? {
      UpdateNeedsPolicy(s, e.op.update, limits);
    }
  }

  lemma StepEnshrines(s: State, e: Event, p: Id, limits: Limits)
    requires Keyed(s) && TerminalIn(s, p)
    ensures Enshrined(s, After(s, e, limits), p)
  {
    hide After, Commits, RollsBack, UpdatesPolicy, RecoveryRefusal, BuildDurable, RestoredTiming, SavedTiming;
    NoMoveWhenTerminal(s, e, p, limits);
    Evolution(s, e, p, limits);
  }

  lemma EnshrinedCompose(s: State, t: State, u: State, p: Id)
    requires Enshrined(s, t, p) && Enshrined(t, u, p)
    ensures Enshrined(s, u, p)
  {
  }

  // Once a policy is revoked, superseded or retired, no later step -- save and
  // recovery included -- changes its lifecycle, scope, semantics, generation,
  // anchor or preference.
  lemma {:induction false} TerminalForever(s: State, es: seq<Event>, p: Id, limits: Limits)
    requires Keyed(s) && TerminalIn(s, p)
    ensures Enshrined(s, Exec(s, es, limits), p)
    decreases |es|
  {
    hide After, Keyed;
    if es != [] {
      var t := After(s, es[0], limits);
      StepEnshrines(s, es[0], p, limits);
      KeyedStep(s, es[0], limits);
      TerminalForever(t, es[1..], p, limits);
      EnshrinedCompose(s, t, Exec(t, es[1..], limits), p);
    }
  }

  // ------------------------------------------------------------------------
  // Fenced boots
  // ------------------------------------------------------------------------

  // The request is made under the worker boot.
  ghost predicate ActsAs(e: Event, boot: Id)
  {
    match e.op
    case Register(_, b, _, _) => b == boot
    case Create(q, _) => q.context.boot == boot
    case Update(q) => q.context.boot == boot
    case Transition(_, _, ctx) => ctx.boot == boot
    case RevokePolicy(_, _, _, ctx) => ctx.boot == boot
    case Upstream(_, ctx, _) => ctx.boot == boot
    case Publish(_, ctx, _) => ctx.boot == boot
    case Commit(_, ctx, _, _) => ctx.boot == boot
    case Rollback(_, ctx, _, _) => ctx.boot == boot
    case _ => false
  }

  // The caller a request names.
  ghost function ContextOf(e: Event): Option<Context>
  {
    match e.op
    case Create(q, _) => Some(q.context)
    case Update(q) => Some(q.context)
    case Transition(_, _, ctx) => Some(ctx)
    case RevokePolicy(_, _, _, ctx) => Some(ctx)
    case Upstream(_, ctx, _) => Some(ctx)
    case Publish(_, ctx, _) => Some(ctx)
    case Commit(_, ctx, _, _) => Some(ctx)
    case Rollback(_, ctx, _, _) => Some(ctx)
    case _ => None
  }

  // A caller that is refused for any target is refused for every target.
  ghost predicate Refused(s: State, ctx: Context) { CallerRefusal(s, ctx, None, None).Some? }

  lemma RefusedIsRefused(s: State, ctx: Context, route: Option<Id>, set_: Option<Id>)
    requires Refused(s, ctx)
    ensures CallerRefusal(s, ctx, route, set_).Some?
  {
  }

  lemma FencedIsRefused(s: State, ctx: Context)
    requires ctx.boot in s.fenced
    ensures Refused(s, ctx)
  {
  }

  lemma RefusedPolicyOps(s: State, e: Event, limits: Limits)
    requires ContextOf(e).Some? && Refused(s, ContextOf(e).value)
    ensures e.op.Create? ==> CreateStep(s, e.op.creation, e.op.newId, e.now, limits).state == s
    ensures e.op.Update? ==> UpdateStep(s, e.op.update, e.now, limits).state == s
  {
    hide CallerRefusal, Replay, Recorded, Reindexed, Unindexed, Updated, WithinLimits, WithinCreationLimits;
    if e.op.Create? {
      RefusedIsRefused(s, e.op.creation.context, Some(e.op.creation.semantics.target.route),
                       e.op.creation.semantics.target.multipath);
    }
    if e.op.Update? {
      RefusedIsRefused(s, e.op.update.context, Some(e.op.update.semantics.target.route),
                       e.op.update.semantics.target.multipath);
    }
  }

  lemma RefusedLabelOps(s: State, e: Event, limits: Limits)
    requires ContextOf(e).Some? && Refused(s, ContextOf(e).value)
    ensures e.op.Transition? ==> TransitionStep(s, e.op.policy, e.op.event, e.op.context).state == s
    ensures e.op.RevokePolicy? ==>
      RevokeStep(s, e.op.policy, e.op.reason, e.op.detail, e.op.context, limits).state == s
  {
    hide CallerRefusal, Relabelled, NextLifecycle;
    if (e.op.Transition? || e.op.RevokePolicy?) && e.op.policy in s.policies {
      var target := s.policies[e.op.policy].policy.semantics.target;
      RefusedIsRefused(s, e.op.context, Some(target.route), target.multipath);
    }
  }

  lemma RefusedNotes(s: State, ns: seq<Notification>, ctx: Context, fingerprint: Id, limits: Limits)
    requires Refused(s, ctx)
    ensures UpstreamStep(s, ns, ctx, fingerprint, limits).state == s
  {
    hide CallerRefusal, Replay, Recorded, Bound, Invalidated, EventRefusal;
    if ns != [] && ns[0].policy in s.policies {
      var target := s.policies[ns[0].policy].policy.semantics.target;
      RefusedIsRefused(s, ctx, Some(target.route), target.multipath);
      RefusalIsNoUpdate(s, ctx, Some(target.route), target.multipath);
    }
  }

  lemma RefusalIsNoUpdate(s: State, ctx: Context, route: Option<Id>, set_: Option<Id>)
    ensures CallerRefusal(s, ctx, route, set_) != Some(POLICY_UPDATED)
  {
  }

  lemma RefusedDecisions(s: State, e: Event, limits: Limits)
    requires ContextOf(e).Some? && Refused(s, ContextOf(e).value)
    ensures e.op.Publish? ==> PublishStep(s, e.op.batch, e.op.context, e.op.fingerprint, limits).state == s
    ensures e.op.Commit? ==>
      CommitStep(s, e.op.ticket, e.op.context, e.op.fingerprint, e.op.minted, e.now, limits).state == s
    ensures e.op.Rollback? ==>
      RollbackStep(s, e.op.policy, e.op.context, e.op.fingerprint, e.op.minted, e.now, limits).state == s
  {
    hide Replay, Recorded, Validate, ApplyAll, IndexSources, VerifyRefusal, Committed, SuppressionNoted, RestoreRefusal,
         RolledBack, DependencyRefusal, AdmissionOf, CallerRefusal;
    if e.op.Commit? {
      CommitNeedsPolicy(s, e.op.ticket, e.op.context, e.op.fingerprint);
    }
    if e.op.Rollback? && e.op.policy in s.policies {
      var target := s.policies[e.op.policy].policy.semantics.target;
      RefusedIsRefused(s, e.op.context, Some(target.route), target.multipath);
    }
  }

  // A request whose caller is refused changes nothing at all.
  lemma RefusedStepChangesNothing(s: State, e: Event, limits: Limits)
    requires ContextOf(e).Some? && Refused(s, ContextOf(e).value)
    ensures After(s, e, limits) == s
  {
    hide CreateStep, UpdateStep, TransitionStep, RevokeStep, UpstreamStep, PublishStep, CommitStep, RollbackStep,
         FenceStep, AdvanceEpochStep, RestartStep, RegisterStep, Refused;
    RefusedPolicyOps(s, e, limits);
    RefusedLabelOps(s, e, limits);
    RefusedDecisions(s, e, limits);
    if e.op.Upstream? {
      RefusedNotes(s, e.op.notes, e.op.context, e.op.fingerprint, limits);
    }
  }

  // A fenced boot changes nothing at all.
  lemma FencedStepChangesNothing(s: State, e: Event, boot: Id, limits: Limits)
    requires boot in s.fenced && ActsAs(e, boot)
    ensures After(s, e, limits) == s
  {
    hide CreateStep, UpdateStep, TransitionStep, RevokeStep, UpstreamStep, PublishStep, CommitStep, RollbackStep,
         FenceStep, AdvanceEpochStep, RestartStep, Refused;
    if ContextOf(e).Some? {
      FencedIsRefused(s, ContextOf(e).value);
      RefusedStepChangesNothing(s, e, limits);
    }
  }

  lemma FencesOnlyGrow(s: State, e: Event, limits: Limits)
    requires !e.op.Restart?
    ensures s.fenced <= After(s, e, limits).fenced
  {
    hide RegisterStep, FenceStep, CreateStep, UpdateStep, TransitionStep, RevokeStep, UpstreamStep, PublishStep,
         CommitStep, RollbackStep, Quiesced, RestartStep;
    match e.op
    case Register(publisher, boot, scope, session) => RegisterKeeps(s, publisher, boot, scope, session, limits);
    case FencePublisher(publisher, boot) => FenceKeeps(s, publisher, boot);
    case AdvanceEpoch =>
    case _ => StepAuthority(s, e, limits);
  }

  // The step at i does nothing.
  ghost predicate Idle(s: State, es: seq<Event>, i: nat, limits: Limits)
  {
    i < |es| ==> Exec(s, es[..i + 1], limits) == Exec(s, es[..i], limits)
  }

  lemma {:induction false} FencedForever(s: State, es: seq<Event>, boot: Id, limits: Limits)
    requires boot in s.fenced && forall i :: 0 <= i < |es| ==> !es[i].op.Restart?
    ensures boot in Exec(s, es, limits).fenced
    decreases |es|
  {
    hide After;
    if es != [] {
      FencesOnlyGrow(s, es[0], limits);
      assert forall i :: 0 <= i < |es[1..]| ==> es[1..][i] == es[i + 1];
      FencedForever(After(s, es[0], limits), es[1..], boot, limits);
    }
  }

  // Once a boot is fenced, every later request of the process under it leaves
  // the whole state unchanged, whichever publisher makes it and whoever tries
  // to register the boot again.
  lemma FencedBootIsPowerless(s: State, es: seq<Event>, boot: Id, i: nat, limits: Limits)
    requires boot in s.fenced && forall k :: 0 <= k < |es| ==> !es[k].op.Restart?
    requires i < |es| && ActsAs(es[i], boot)
    ensures Idle(s, es, i, limits)
  {
    hide After, ActsAs;
    assert es[..i + 1] == es[..i] + [es[i]];
    ExecConcat(s, es[..i], [es[i]], limits);
    FencedForever(s, es[..i], boot, limits);
    FencedStepChangesNothing(Exec(s, es[..i], limits), es[i], boot, limits);
    assert [es[i]][1..] == [];
    assert Exec(After(Exec(s, es[..i], limits), es[i], limits), [], limits)
        == After(Exec(s, es[..i], limits), es[i], limits);
  }
}
