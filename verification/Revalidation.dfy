// When a policy that must be revalidated serves again: over whole runs, and
// after recovery (src/fabric_policy.cpp, src/lifecycle.cpp, src/fabric_api.cpp).

module Revalidation {
  import opened Base
  import opened Outcomes
  import opened Policy
  import opened Records
  import opened Evaluation
  import opened Durable
  import opened Fabric
  import opened Runs

  ghost predicate ActiveIn(s: State, p: Id) { p in s.policies && s.policies[p].policy.lifecycle.Active? }

  ghost predicate Labelled(s: State, p: Id, l: Lifecycle) { p in s.policies && s.policies[p].policy.lifecycle == l }

  // An accepted transition of the policy by the event.
  ghost predicate Accepts(s: State, e: Event, p: Id, event: LifecycleEvent)
  {
    && e.op.Transition? && e.op.policy == p && e.op.event == event
    && TransitionStep(s, p, event, e.op.context).outcome == POLICY_UPDATED
  }

  ghost predicate Revalidates(s: State, e: Event, p: Id) { Accepts(s, e, p, Revalidate) }

  ghost predicate ResumesSuspended(s: State, e: Event, p: Id) { Labelled(s, p, Suspended) && Accepts(s, e, p, Resume) }

  lemma RefusalIsNoUpdate(s: State, ctx: Context, target: Target)
    ensures TargetRefusal(s, ctx, target) != Some(POLICY_UPDATED)
  {
  }

  lemma TransitionEnters(s: State, policy: Id, event: LifecycleEvent, ctx: Context, p: Id)
    requires p in s.policies && !s.policies[p].policy.lifecycle.Active? && !s.policies[p].policy.lifecycle.Declared?
    ensures var t := TransitionStep(s, policy, event, ctx);
            && p in t.state.policies && !t.state.policies[p].policy.lifecycle.Declared?
            && (t.state.policies[p].policy.lifecycle.Active? <==>
                  policy == p && t.outcome == POLICY_UPDATED
                  && (event.Revalidate? || (event.Resume? && s.policies[p].policy.lifecycle.Suspended?)))
  {
    hide TargetRefusal, LegallyUsable;
    if policy in s.policies {
      RefusalIsNoUpdate(s, ctx, s.policies[policy].policy.semantics.target);
    }
  }

  lemma RevokeEnters(s: State, policy: Id, reason: RevocationReason, detail: seq<byte>, ctx: Context, limits: Limits,
                     p: Id)
    requires p in s.policies && !s.policies[p].policy.lifecycle.Active? && !s.policies[p].policy.lifecycle.Declared?
    ensures var t := RevokeStep(s, policy, reason, detail, ctx, limits).state;
            p in t.policies && !t.policies[p].policy.lifecycle.Active? && !t.policies[p].policy.lifecycle.Declared?
  {
    hide TargetRefusal;
  }

  // One step brings a policy that was declared long ago back to service exactly
  // when it is an accepted REVALIDATE, or an accepted RESUME of a suspended one.
  lemma StepEnters(s: State, e: Event, p: Id, limits: Limits)
    requires Keyed(s) && p in s.policies
    requires !s.policies[p].policy.lifecycle.Active? && !s.policies[p].policy.lifecycle.Declared?
    ensures ActiveIn(After(s, e, limits), p) <==> Revalidates(s, e, p) || ResumesSuspended(s, e, p)
    ensures !Labelled(After(s, e, limits), p, Declared) && p in After(s, e, limits).policies
  {
    hide RegisterStep, FenceStep, AdvanceEpochStep, CreateStep, UpdateStep, TransitionStep, RevokeStep, UpstreamStep,
         PublishStep, CommitStep, RollbackStep, RestartStep, CommitsTicket, RollbackRefusal, RestoreRefusal,
         UpdateRefusal, RecoveryRefusal, BuildDurable, RestoredTiming, SavedTiming, Armed, Anchored,
         CommittedPreference, RestoredPreference;
    if e.op.Transition? {
      TransitionEnters(s, e.op.policy, e.op.event, e.op.context, p);
    } else if e.op.RevokePolicy? {
      RevokeEnters(s, e.op.policy, e.op.reason, e.op.detail, e.op.context, limits, p);
    } else {
      Evolution(s, e, p, limits);
      UnlabelledKeeps(s, e, p, After(s, e, limits), limits);
    }
  }

  lemma UnlabelledKeeps(s: State, e: Event, p: Id, t: State, limits: Limits)
    requires Becomes(s, e, p, t, limits) && !Labels(e)
    ensures t.policies[p].policy.lifecycle == s.policies[p].policy.lifecycle
            || t.policies[p].policy.lifecycle.NeedsRevalidation?
  {
    hide CommitsTicket, RollbackRefusal, RestoreRefusal, UpdateRefusal, RecoveryRefusal, BuildDurable, RestoredTiming,
         SavedTiming, Armed, Anchored, CommittedPreference, RestoredPreference;
    if UpdatesPolicy(s, e, p, limits) {
      UpdateNeedsPolicy(s, e.op.update, limits);
    }
  }

  // Some state of the run has the policy in service.
  ghost predicate EverActive(s: State, es: seq<Event>, p: Id, limits: Limits)
    decreases |es|
  {
    ActiveIn(s, p) || (es != [] && EverActive(After(s, es[0], limits), es[1..], p, limits))
  }

  // Some step of the run is an accepted REVALIDATE, or an accepted RESUME of
  // the policy while it is suspended.
  ghost predicate EverEnters(s: State, es: seq<Event>, p: Id, limits: Limits)
    decreases |es|
  {
    es != [] && (Revalidates(s, es[0], p) || ResumesSuspended(s, es[0], p)
                 || EverEnters(After(s, es[0], limits), es[1..], p, limits))
  }

  lemma {:induction false} ServiceIsEntered(s: State, es: seq<Event>, p: Id, limits: Limits)
    requires Keyed(s) && p in s.policies
    requires !s.policies[p].policy.lifecycle.Active? && !s.policies[p].policy.lifecycle.Declared?
    ensures EverActive(s, es, p, limits) <==> EverEnters(s, es, p, limits)
    decreases |es|
  {
    hide After, Revalidates, ResumesSuspended, Keyed;
    if es != [] {
      StepEnters(s, es[0], p, limits);
      KeyedStep(s, es[0], limits);
      if !ActiveIn(After(s, es[0], limits), p) {
        ServiceIsEntered(After(s, es[0], limits), es[1..], p, limits);
      }
    }
  }

  // The promise is broken by an authorized SUSPEND followed by an authorized
  // RESUME: no candidate is declared, no revalidation succeeds.
  lemma SuspendedThenResumed(s: State, p: Id, ctx: Context, ctx': Context)
    requires ValidId(p) && Labelled(s, p, NeedsRevalidation)
    requires TargetRefusal(s, ctx, s.policies[p].policy.semantics.target).None?
    requires TargetRefusal(s, ctx', s.policies[p].policy.semantics.target).None?
    ensures var t := TransitionStep(TransitionStep(s, p, Suspend, ctx).state, p, Resume, ctx');
            t.outcome == POLICY_UPDATED && ActiveIn(t.state, p)
            && t.state.policies[p].candidates == s.policies[p].candidates
  {
  }

  // The documentation promises that after recovery a policy returns to service
  // only when revalidation succeeds. Exactly: whatever runs after a conservative
  // recovery, a policy that was not terminal is in service at some point if and
  // only if a REVALIDATE of it was accepted, or a RESUME of it while it was
  // suspended.
  lemma ServiceAfterRecovery(s: State, saved: SaveTimes, now: Ticks, es: seq<Event>, p: Id, limits: Limits)
    requires Keyed(s) && p in s.policies && limits.conservativeRecovery
    requires RecoveryRefusal(Stripped(BuildDurable(s, saved)), limits).None?
    ensures var t := RestartStep(s, saved, now, limits).state;
            EverActive(t, es, p, limits) <==> EverEnters(t, es, p, limits)
  {
    hide After, EverActive, EverEnters, BuildDurable, RecoveryRefusal, Recovered, RestoredRecords;
    RestartAt(s, saved, now, limits, p);
    RecoveredFacts(Stripped(BuildDurable(s, saved)), now, limits);
    KeyedStep(s, Event(Restart(saved), now), limits);
    AfterRestart(s, saved, now, limits);
    ServiceIsEntered(RestartStep(s, saved, now, limits).state, es, p, limits);
  }

  lemma AfterRestart(s: State, saved: SaveTimes, now: Ticks, limits: Limits)
    ensures After(s, Event(Restart(saved), now), limits) == RestartStep(s, saved, now, limits).state
  {
    hide RestartStep;
  }
}
