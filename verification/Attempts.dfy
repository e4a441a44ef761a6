// The attempt log: a request is applied at most once while its attempt is
// remembered (src/fabric.cpp).

module Attempts {
  import opened Base
  import opened Evidence
  import opened Outcomes
  import opened Policy
  import opened Records
  import opened Evaluation
  import opened Indexing
  import opened Durable
  import opened Fabric
  import opened Runs
  import Commitment
  import Escapes
  import Fencing
  import Publishing
  import Requests

  // The attempt a request is logged under.
  ghost function AttemptOf(e: Event): Option<Id>
  {
    match e.op
    case Create(q, _) => Some(q.context.attempt)
    case Update(q) => Some(q.context.attempt)
    case Upstream(_, ctx, _) => Some(ctx.attempt)
    case Publish(_, ctx, _) => Some(ctx.attempt)
    case Commit(_, ctx, _, _) => Some(ctx.attempt)
    case Rollback(_, ctx, _, _) => Some(ctx.attempt)
    case _ => None
  }

  ghost predicate Remembered(s: State, attempt: Id) { attempt in s.attempts.entries }

  // A remembered attempt is answered as a repetition of the same request or as a
  // conflict, never carried out.
  lemma ReplayIsExact(s: State, attempt: Id, fingerprint: Id)
    requires Remembered(s, attempt) && ValidId(attempt)
    ensures Replay(s, attempt, fingerprint)
         == Some(if s.attempts.entries[attempt].fingerprint == fingerprint then IDEMPOTENT else ATTEMPT_CONFLICT)
  {
  }

  lemma RememberedIsRefused(s: State, attempt: Id, fingerprint: Id)
    ensures Remembered(s, attempt) ==> Replay(s, attempt, fingerprint).Some?
  {
  }

  lemma RepeatedRequests(s: State, e: Event, limits: Limits)
    requires AttemptOf(e).Some? && Remembered(s, AttemptOf(e).value)
    ensures e.op.Create? ==> CreateStep(s, e.op.creation, e.op.newId, e.now, limits).state == s
    ensures e.op.Update? ==> UpdateStep(s, e.op.update, e.now, limits).state == s
    ensures e.op.Upstream? ==> UpstreamStep(s, e.op.notes, e.op.context, e.op.fingerprint, limits).state == s
    ensures e.op.Publish? ==> PublishStep(s, e.op.batch, e.op.context, e.op.fingerprint, limits).state == s
  {
    hide ScopeRefusal, CallerRefusal, Replay, Recorded, Reindexed, Unindexed, Updated, NotesStep, ApplyAll, Validate,
         IndexSources, AdmissionOf, WithinLimits, WithinCreationLimits, Semantics.FirstDefect, PolicyScope.WellFormed,
         Remembered;
    match e.op
    case Create(q, _) => RememberedIsRefused(s, q.context.attempt, q.fingerprint);
    case Update(q) => RememberedIsRefused(s, q.context.attempt, q.fingerprint);
    case Upstream(_, ctx, fingerprint) => RememberedIsRefused(s, ctx.attempt, fingerprint);
    case Publish(_, ctx, fingerprint) => RememberedIsRefused(s, ctx.attempt, fingerprint);
    case _ =>
  }

  lemma RepeatedDecisions(s: State, e: Event, limits: Limits)
    requires AttemptOf(e).Some? && Remembered(s, AttemptOf(e).value)
    ensures e.op.Commit? ==>
      CommitStep(s, e.op.ticket, e.op.context, e.op.fingerprint, e.op.minted, e.now, limits).state == s
    ensures e.op.Rollback? ==>
      RollbackStep(s, e.op.policy, e.op.context, e.op.fingerprint, e.op.minted, e.now, limits).state == s
  {
    hide TargetRefusal, CallerRefusal, Replay, Recorded, DependencyRefusal, VerifyRefusal, RestoreRefusal, Committed,
         RolledBack, SuppressionNoted, Remembered;
    match e.op
    case Commit(_, ctx, fingerprint, _) => RememberedIsRefused(s, ctx.attempt, fingerprint);
    case Rollback(_, ctx, fingerprint, _) => RememberedIsRefused(s, ctx.attempt, fingerprint);
    case _ =>
  }

  // A request whose attempt is remembered changes nothing, whoever made it before
  // and whatever it asks for now.
  lemma RepeatedChangesNothing(s: State, e: Event, limits: Limits)
    requires AttemptOf(e).Some? && Remembered(s, AttemptOf(e).value)
    ensures After(s, e, limits) == s
  {
    hide CreateStep, UpdateStep, TransitionStep, RevokeStep, UpstreamStep, PublishStep, CommitStep, RollbackStep,
         FenceStep, AdvanceEpochStep, RestartStep, RegisterStep, Remembered;
    RepeatedRequests(s, e, limits);
    RepeatedDecisions(s, e, limits);
  }

  // ------------------------------------------------------------------------
  // The log
  // ------------------------------------------------------------------------

  // Every remembered attempt once, in the order of arrival, and no more than the
  // bound.
  ghost predicate LogOk(log: AttemptLog, bound: nat)
  {
    && NoDuplicates(log.order) && |log.order| <= bound
    && forall a :: a in log.entries <==> a in log.order
  }

  // One more attempt: a known one is answered anew in its place, a new one comes
  // last and the oldest past the bound are forgotten.
  ghost predicate Gains(after: AttemptLog, before: AttemptLog, attempt: Id, entry: Attempt, bound: nat)
  {
    && (attempt in before.entries ==> after.order == before.order)
    && (attempt !in before.entries && |before.order| < bound ==> after.order == before.order + [attempt])
    && (attempt !in before.entries && |before.order| == bound > 0 ==> after.order == before.order[1..] + [attempt])
    && (bound > 0 ==> attempt in after.entries && after.entries[attempt] == entry)
    && (forall a :: a in after.entries && a != attempt ==>
          a in before.entries && after.entries[a] == before.entries[a])
  }

  // The order after a new attempt, with the forgotten ones apart.
  lemma OrderGrows(order: seq<Id>, attempt: Id, excess: nat)
    requires NoDuplicates(order) && attempt !in order && excess <= |order| + 1
    ensures var all := order + [attempt];
            && NoDuplicates(all[excess..]) && |all[excess..]| == |order| + 1 - excess
            && (forall a :: a in all[excess..] <==> (a in order || a == attempt) && a !in all[..excess])
            && (excess <= |order| ==> attempt in all[excess..])
  {
    var all := order + [attempt];
    assert all == all[..excess] + all[excess..];
    assert NoDuplicates(all);
    forall a
      ensures a in all[excess..] <==> (a in order || a == attempt) && a !in all[..excess]
    {
      assert a in all <==> a in order || a == attempt;
      assert a in all <==> a in all[..excess] || a in all[excess..];
      if a in all[..excess] && a in all[excess..] {
        TwiceInOrder(all, excess, a);
      }
    }
    if excess <= |order| {
      assert all[excess..][|order| - excess] == attempt;
    }
  }

  lemma TwiceInOrder(order: seq<Id>, n: nat, a: Id)
    requires n <= |order| && a in order[..n] && a in order[n..]
    ensures !NoDuplicates(order)
  {
    var i :| 0 <= i < n && order[..n][i] == a;
    var j :| 0 <= j < |order| - n && order[n..][j] == a;
    assert order[i] == a && order[n + j] == a;
  }

  ghost function Excess(order: seq<Id>, bound: nat): nat
  {
    if |order| + 1 > bound then |order| + 1 - bound else 0
  }

  // The entries left are those of the order left.
  lemma EntriesFollow(log: AttemptLog, attempt: Id, entry: Attempt, bound: nat)
    requires LogOk(log, bound) && attempt !in log.entries
    ensures var all, n := log.order + [attempt], Excess(log.order, bound);
            var left := log.entries[attempt := entry] - (set a | a in all[..n]);
            && Logged(log, attempt, entry, bound) == AttemptLog(left, all[n..])
            && (forall a :: a in left <==> a in all[n..])
            && (forall a :: a in left ==> left[a] == if a == attempt then entry else log.entries[a])
            && NoDuplicates(all[n..]) && |all[n..]| <= bound && (bound > 0 ==> attempt in all[n..])
  {
    hide NoDuplicates;
    OrderGrows(log.order, attempt, Excess(log.order, bound));
  }

  lemma OneForgotten(order: seq<Id>, attempt: Id, bound: nat)
    requires |order| <= bound
    ensures var after := (order + [attempt])[Excess(order, bound)..];
            && (|order| < bound ==> after == order + [attempt])
            && (|order| == bound > 0 ==> after == order[1..] + [attempt])
  {
  }

  lemma LoggedIsExact(log: AttemptLog, attempt: Id, entry: Attempt, bound: nat)
    requires LogOk(log, bound)
    ensures LogOk(Logged(log, attempt, entry, bound), bound)
    ensures Gains(Logged(log, attempt, entry, bound), log, attempt, entry, bound)
  {
    hide NoDuplicates;
    if attempt !in log.entries {
      hide Logged;
      EntriesFollow(log, attempt, entry, bound);
      OneForgotten(log.order, attempt, bound);
    }
  }

  lemma RecordedKeepsLog(s: State, attempt: Id, fingerprint: Id, outcome: Outcome, limits: Limits)
    requires LogOk(s.attempts, limits.maxAttempts)
    ensures var t := Recorded(s, attempt, fingerprint, outcome, limits);
            && LogOk(t.attempts, limits.maxAttempts)
            && (ValidId(attempt) && limits.maxAttempts > 0 ==>
                  Remembered(t, attempt) && t.attempts.entries[attempt] == Attempt(fingerprint, outcome))
  {
    hide LogOk, Logged;
    if ValidId(attempt) {
      LoggedIsExact(s.attempts, attempt, Attempt(fingerprint, outcome), limits.maxAttempts);
    }
  }

  // The request was carried out and its attempt is in the log with its answer.
  ghost predicate Entered(s: State, attempt: Id, fingerprint: Id, outcome: Outcome)
  {
    Remembered(s, attempt) && s.attempts.entries[attempt] == Attempt(fingerprint, outcome)
  }

  lemma DeclarationKeepsLog(s: State, q: CreateRequest, id: Id, now: Ticks, limits: Limits)
    requires LogOk(s.attempts, limits.maxAttempts) && limits.maxAttempts > 0
    ensures var t := CreateStep(s, q, id, now, limits);
            && LogOk(t.state.attempts, limits.maxAttempts)
            && (t.outcome == POLICY_CREATED ==> Entered(t.state, q.context.attempt, q.fingerprint, POLICY_CREATED))
  {
    hide LogOk, CreateRefusal, Recorded, Reindexed, NewRecord, NewPolicy;
    Requests.DeclarationAdmission(s, q, limits);
    DeclaredIsUnused(s, q, limits);
    RecordedKeepsLog(s, q.context.attempt, q.fingerprint, ALREADY_EXISTS, limits);
    RecordedKeepsLog(s, q.context.attempt, q.fingerprint, RESOURCE_LIMIT, limits);
    var stored := s.(
      policies := if id in s.policies then s.policies else s.policies[id := NewRecord(NewPolicy(s, q, id, now))],
      names := s.names[q.name := id]);
    ReindexedKeeps(stored, id, limits);
    RecordedKeepsLog(Reindexed(stored, id, limits), q.context.attempt, q.fingerprint, POLICY_CREATED, limits);
  }

  lemma UpdateKeepsLog(s: State, q: UpdateRequest, now: Ticks, limits: Limits)
    requires LogOk(s.attempts, limits.maxAttempts) && limits.maxAttempts > 0
    ensures var t := UpdateStep(s, q, now, limits);
            && LogOk(t.state.attempts, limits.maxAttempts)
            && (t.outcome == POLICY_UPDATED ==> Entered(t.state, q.context.attempt, q.fingerprint, POLICY_UPDATED))
  {
    hide LogOk, UpdateRefusal, Recorded, Reindexed, Unindexed, Updated;
    Requests.UpdateOutcome(s, q, limits);
    UpdatedIsUnused(s, q, limits);
    UpdateNeedsPolicy(s, q, limits);
    if UpdateRefusal(s, q, limits).None? {
      UnindexedKeeps(s, q.policy);
      var updated := Unindexed(s, q.policy).(
        policies := s.policies[q.policy := Updated(s.policies[q.policy], q, s.epoch, now)]);
      ReindexedKeeps(updated, q.policy, limits);
      RecordedKeepsLog(Reindexed(updated, q.policy, limits), q.context.attempt, q.fingerprint, POLICY_UPDATED, limits);
    }
  }

  lemma DeclaredIsUnused(s: State, q: CreateRequest, limits: Limits)
    ensures CreateRefusal(s, q, limits).None? ==> ValidId(q.context.attempt)
  {
    hide CreateRefusal;
    Requests.DeclarationAdmission(s, q, limits);
  }

  lemma UpdatedIsUnused(s: State, q: UpdateRequest, limits: Limits)
    ensures UpdateRefusal(s, q, limits).None? ==> ValidId(q.context.attempt)
  {
    hide UpdateRefusal;
    Requests.UpdateAdmission(s, q, limits);
  }

  lemma UpstreamKeepsLog(s: State, ns: seq<Notification>, ctx: Context, fingerprint: Id, limits: Limits)
    requires LogOk(s.attempts, limits.maxAttempts) && limits.maxAttempts > 0
    ensures var t := UpstreamStep(s, ns, ctx, fingerprint, limits);
            && LogOk(t.state.attempts, limits.maxAttempts)
            && (t.outcome == POLICY_UPDATED ==> Entered(t.state, ctx.attempt, fingerprint, POLICY_UPDATED))
  {
    hide LogOk, NotesStep, Recorded, Replay;
    Commitment.UnusedIsExact(s, ctx.attempt, fingerprint);
    NotesKeepAttempts(s, ns, ctx, limits);
    RecordedKeepsLog(NotesStep(s, ns, ctx, limits).state, ctx.attempt, fingerprint, POLICY_UPDATED, limits);
  }

  lemma PublishKeepsLog(s: State, batch: seq<Timed>, ctx: Context, fingerprint: Id, limits: Limits)
    requires LogOk(s.attempts, limits.maxAttempts) && limits.maxAttempts > 0
    ensures var t := PublishStep(s, batch, ctx, fingerprint, limits);
            && LogOk(t.state.attempts, limits.maxAttempts)
            && (t.outcome == POLICY_UPDATED ==> Entered(t.state, ctx.attempt, fingerprint, POLICY_UPDATED))
  {
    hide LogOk, Recorded, CallerRefusal, Replay, ApplyAll, IndexSources, AdmissionOf, Validate;
    Commitment.UnusedIsExact(s, ctx.attempt, fingerprint);
    if PublishStep(s, batch, ctx, fingerprint, limits).outcome == POLICY_UPDATED {
      Publishing.PublishNeeds(s, batch, ctx, fingerprint, limits);
    }
    if PublishRefusal(s, batch, ctx, fingerprint, limits).None? {
      var admission := AdmissionOf(s, ctx.publisher, limits);
      ValidatedIsWellFormed(s.evidence, map[], Samples(batch), admission);
      var stored := s.(evidence := ApplyAll(s.evidence, Samples(batch), Readings(batch), admission));
      if Next(s.evidenceGeneration).Some? {
        var published := stored.(
          evidenceGeneration := Next(s.evidenceGeneration).value,
          index := s.index.(bySource := IndexSources(s.index.bySource, s.index.byPath, Samples(batch))));
        RecordedKeepsLog(published, ctx.attempt, fingerprint, POLICY_UPDATED, limits);
      }
    }
  }

  lemma {:induction false} NotesKeepAttempts(s: State, ns: seq<Notification>, ctx: Context, limits: Limits)
    ensures NotesStep(s, ns, ctx, limits).state.attempts == s.attempts
    decreases |ns|
  {
    hide NoteRefusal, EventRefusal, Rebound, Inserted, IndexedWith, WithCandidate, Bumped;
    if ns != [] {
      var first := NoteStep(s, ns[0], ctx, limits);
      NoteNeedsPolicy(s, ns[0], ctx);
      if first.outcome == POLICY_UPDATED {
        NotesKeepAttempts(first.state, ns[1..], ctx, limits);
      }
    }
  }

  lemma CommitKeepsLog(
    s: State, t: Ticket, ctx: Context, fingerprint: Id, minted: Minted, now: Ticks, limits: Limits)
    requires LogOk(s.attempts, limits.maxAttempts) && limits.maxAttempts > 0
    ensures var u := CommitStep(s, t, ctx, fingerprint, minted, now, limits);
            && LogOk(u.state.attempts, limits.maxAttempts)
            && (CommitsTicket(s, t, ctx, fingerprint, now, limits) ==>
                  Entered(u.state, ctx.attempt, fingerprint, DECISION_COMMITTED))
  {
    hide LogOk, Recorded, CommitRefusal, VerifyRefusal, Committed, SuppressionNoted;
    CommitNeedsPolicy(s, t, ctx, fingerprint);
    Escapes.NotReplayed(s, t, ctx, fingerprint);
    Commitment.UnusedIsExact(s, ctx.attempt, fingerprint);
    var p := t.dependencies.policy;
    if CommitRefusal(s, t, ctx, fingerprint).None? {
      var r := s.policies[p];
      var noted := s.(policies := s.policies[p := SuppressionNoted(s, r, t, minted, now, limits)]);
      RecordedKeepsLog(noted, ctx.attempt, fingerprint, t.verdict.outcome, limits);
      RecordedKeepsLog(s, ctx.attempt, fingerprint, NO_CHANGE, limits);
      if VerifyRefusal(s, r, t.verdict, now, limits).None? {
        VerifiedHasTarget(s, r, t.verdict, now, limits);
        var c := Find(r.candidates, t.verdict.target).value;
        var committed := s.(policies := s.policies[p := Committed(r, c, t, ctx, s.epoch, minted, now, limits)]);
        RecordedKeepsLog(committed, ctx.attempt, fingerprint, DECISION_COMMITTED, limits);
      }
    }
  }

  lemma RollbackKeepsLog(
    s: State, p: Id, ctx: Context, fingerprint: Id, minted: Minted, now: Ticks, limits: Limits)
    requires LogOk(s.attempts, limits.maxAttempts) && limits.maxAttempts > 0
    ensures var u := RollbackStep(s, p, ctx, fingerprint, minted, now, limits);
            && LogOk(u.state.attempts, limits.maxAttempts)
            && (RollbackRefusal(s, p, ctx, fingerprint).None? && p in s.policies
                && RestoreRefusal(s.policies[p]).None? ==>
                  Entered(u.state, ctx.attempt, fingerprint, DECISION_COMMITTED))
  {
    hide LogOk, Recorded, RollbackRefusal, RestoreRefusal, RolledBack;
    RollbackNeedsPolicy(s, p, ctx, fingerprint);
    Requests.RollbackAdmission(s, p, ctx, fingerprint);
    if RollbackRefusal(s, p, ctx, fingerprint).None? {
      var r := s.policies[p];
      var refused := RestoreRefusal(r);
      if refused.Some? {
        RecordedKeepsLog(s, ctx.attempt, fingerprint, refused.value.0, limits);
      } else {
        RestoreHasTarget(r);
        var c := Find(r.candidates, r.stable.path).value;
        var back := s.(policies := s.policies[p := RolledBack(r, c, ctx, s, minted, now, limits)]);
        RecordedKeepsLog(back, ctx.attempt, fingerprint, DECISION_COMMITTED, limits);
      }
    }
  }

  // ------------------------------------------------------------------------
  // At most once
  // ------------------------------------------------------------------------

  // The step carries its request out: it creates, updates, notes, stores or moves
  // what it was asked to.
  ghost predicate CarriesOut(s: State, e: Event, limits: Limits)
  {
    match e.op
    case Create(q, id) => CreateStep(s, q, id, e.now, limits).outcome == POLICY_CREATED
    case Update(q) => UpdateStep(s, q, e.now, limits).outcome == POLICY_UPDATED
    case Upstream(ns, ctx, fingerprint) => UpstreamStep(s, ns, ctx, fingerprint, limits).outcome == POLICY_UPDATED
    case Publish(batch, ctx, fingerprint) =>
      PublishStep(s, batch, ctx, fingerprint, limits).outcome == POLICY_UPDATED
    case Commit(_, _, _, _) => Commits(s, e, e.op.ticket.dependencies.policy, limits)
    case Rollback(_, _, _, _) => RollsBack(s, e, e.op.policy)
    case _ => false
  }

  // With room for at least one attempt, a request that is carried out is
  // remembered.
  lemma CarriedOutIsRemembered(s: State, e: Event, limits: Limits)
    requires LogOk(s.attempts, limits.maxAttempts) && limits.maxAttempts > 0 && CarriesOut(s, e, limits)
    ensures AttemptOf(e).Some? && Remembered(After(s, e, limits), AttemptOf(e).value)
  {
    hide CreateStep, UpdateStep, TransitionStep, RevokeStep, UpstreamStep, PublishStep, CommitStep, RollbackStep,
         FenceStep, AdvanceEpochStep, RestartStep, RegisterStep, LogOk, CommitsTicket, RollbackRefusal, RestoreRefusal;
    match e.op
    case Create(q, id) => DeclarationKeepsLog(s, q, id, e.now, limits);
    case Update(q) => UpdateKeepsLog(s, q, e.now, limits);
    case Upstream(ns, ctx, fingerprint) => UpstreamKeepsLog(s, ns, ctx, fingerprint, limits);
    case Publish(batch, ctx, fingerprint) => PublishKeepsLog(s, batch, ctx, fingerprint, limits);
    case Commit(t, ctx, fingerprint, minted) => CommitKeepsLog(s, t, ctx, fingerprint, minted, e.now, limits);
    case Rollback(p, ctx, fingerprint, minted) => RollbackKeepsLog(s, p, ctx, fingerprint, minted, e.now, limits);
    case _ =>
  }

  // Sending it again, or another request under its attempt, changes nothing.
  lemma AtMostOnce(s: State, e: Event, again: Event, limits: Limits)
    requires LogOk(s.attempts, limits.maxAttempts) && limits.maxAttempts > 0 && CarriesOut(s, e, limits)
    requires AttemptOf(again) == AttemptOf(e)
    ensures After(After(s, e, limits), again, limits) == After(s, e, limits)
  {
    hide After, CarriesOut, LogOk, AttemptOf, Remembered;
    CarriedOutIsRemembered(s, e, limits);
    RepeatedChangesNothing(After(s, e, limits), again, limits);
  }

  lemma StepKeepsLog(s: State, e: Event, limits: Limits)
    requires LogOk(s.attempts, limits.maxAttempts) && limits.maxAttempts > 0
    ensures LogOk(After(s, e, limits).attempts, limits.maxAttempts)
  {
    hide CreateStep, UpdateStep, TransitionStep, RevokeStep, UpstreamStep, PublishStep, CommitStep, RollbackStep,
         Quiesced, RestartStep, RegisterStep, FenceStep, LogOk;
    match e.op
    case Register(publisher, boot, scope, session) => RegisterKeeps(s, publisher, boot, scope, session, limits);
    case FencePublisher(publisher, boot) => FenceKeeps(s, publisher, boot);
    case AdvanceEpoch => EmptyLogOk(limits.maxAttempts);
    case Create(q, id) => DeclarationKeepsLog(s, q, id, e.now, limits);
    case Update(q) => UpdateKeepsLog(s, q, e.now, limits);
    case Transition(p, event, ctx) => LabelKeepsLog(s, p, event, ctx);
    case RevokePolicy(p, reason, detail, ctx) => RevocationKeepsLog(s, p, reason, detail, ctx, limits);
    case Upstream(ns, ctx, fingerprint) => UpstreamKeepsLog(s, ns, ctx, fingerprint, limits);
    case Publish(batch, ctx, fingerprint) => PublishKeepsLog(s, batch, ctx, fingerprint, limits);
    case Commit(t, ctx, fingerprint, minted) => CommitKeepsLog(s, t, ctx, fingerprint, minted, e.now, limits);
    case Rollback(p, ctx, fingerprint, minted) => RollbackKeepsLog(s, p, ctx, fingerprint, minted, e.now, limits);
    case Restart(saved) => RestartKeepsLog(s, saved, e.now, limits);
  }

  lemma EmptyLogOk(bound: nat)
    ensures LogOk(AttemptLog(map[], []), bound)
  {
  }

  lemma LabelKeepsLog(s: State, p: Id, event: LifecycleEvent, ctx: Context)
    ensures TransitionStep(s, p, event, ctx).state.attempts == s.attempts
  {
    hide TargetRefusal, Relabelled, NextLifecycle;
  }

  lemma RevocationKeepsLog(
    s: State, p: Id, reason: RevocationReason, detail: seq<byte>, ctx: Context, limits: Limits)
    ensures RevokeStep(s, p, reason, detail, ctx, limits).state.attempts == s.attempts
  {
    hide TargetRefusal, Relabelled;
  }

  lemma RestartKeepsLog(s: State, saved: SaveTimes, now: Ticks, limits: Limits)
    requires LogOk(s.attempts, limits.maxAttempts)
    ensures LogOk(RestartStep(s, saved, now, limits).state.attempts, limits.maxAttempts)
  {
    hide Recovered, BuildDurable, RecoveryRefusal, RestoredRecords;
    var d := Stripped(BuildDurable(s, saved));
    if RecoveryRefusal(d, limits).None? {
      RecoveredFacts(d, now, limits);
    }
  }

  // Along every run from the start the log holds each remembered attempt once, in
  // order of arrival, and never more than the bound.
  lemma {:induction false} LogStaysBounded(s: State, es: seq<Event>, limits: Limits)
    requires LogOk(s.attempts, limits.maxAttempts) && limits.maxAttempts > 0
    ensures LogOk(Exec(s, es, limits).attempts, limits.maxAttempts)
    decreases |es|
  {
    hide After, LogOk;
    if es != [] {
      StepKeepsLog(s, es[0], limits);
      LogStaysBounded(After(s, es[0], limits), es[1..], limits);
    }
  }
}
