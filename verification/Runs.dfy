// Runs of the coordinator: sequences of atomic steps, and what one step can do
// to one policy.

module Runs {
  import opened Base
  import opened Evidence
  import opened Outcomes
  import opened Policy
  import opened Records
  import opened Evaluation
  import opened Indexing
  import opened Durable
  import opened Fabric

  datatype Op =
    | Register(publisher: Id, boot: Id, scope: AuthorityScope, session: Id)
    | FencePublisher(publisher: Id, boot: Id)
    | AdvanceEpoch
    | Create(creation: CreateRequest, newId: Id)
    | Update(update: UpdateRequest)
    | Transition(policy: Id, event: LifecycleEvent, context: Context)
    | RevokePolicy(policy: Id, reason: RevocationReason, detail: seq<byte>, context: Context)
    | Upstream(notes: seq<Notification>, context: Context, fingerprint: Id)
    | Publish(batch: seq<Timed>, context: Context, fingerprint: Id)
    | Commit(ticket: Ticket, context: Context, fingerprint: Id, minted: Minted)
    | Rollback(policy: Id, context: Context, fingerprint: Id, minted: Minted)
    | Restart(saved: SaveTimes)

  // A step and the clock reading at its end.
  datatype Event = Event(op: Op, now: Ticks)

  ghost function Apply(s: State, e: Event, limits: Limits): Step
  {
    match e.op
    case Register(publisher, boot, scope, session) => RegisterStep(s, publisher, boot, scope, session, limits)
    case FencePublisher(publisher, boot) => FenceStep(s, publisher, boot)
    case AdvanceEpoch => AdvanceEpochStep(s)
    case Create(q, id) => CreateStep(s, q, id, e.now, limits)
    case Update(q) => UpdateStep(s, q, e.now, limits)
    case Transition(policy, event, ctx) => TransitionStep(s, policy, event, ctx)
    case RevokePolicy(policy, reason, detail, ctx) => RevokeStep(s, policy, reason, detail, ctx, limits)
    case Upstream(notes, ctx, fingerprint) => UpstreamStep(s, notes, ctx, fingerprint, limits)
    case Publish(batch, ctx, fingerprint) => PublishStep(s, batch, ctx, fingerprint, limits)
    case Commit(t, ctx, fingerprint, minted) => CommitStep(s, t, ctx, fingerprint, minted, e.now, limits)
    case Rollback(policy, ctx, fingerprint, minted) => RollbackStep(s, policy, ctx, fingerprint, minted, e.now, limits)
    case Restart(saved) => RestartStep(s, saved, e.now, limits)
  }

  ghost function After(s: State, e: Event, limits: Limits): State { Apply(s, e, limits).state }

  ghost function Exec(s: State, es: seq<Event>, limits: Limits): State
    decreases |es|
  {
    if es == [] then s else Exec(After(s, es[0], limits), es[1..], limits)
  }

  lemma {:induction false} ExecConcat(s: State, a: seq<Event>, b: seq<Event>, limits: Limits)
    ensures Exec(s, a + b, limits) == Exec(Exec(s, a, limits), b, limits)
    decreases |a|
  {
    hide After;
    if a == [] {
      assert a + b == b;
    } else {
      assert (a + b)[0] == a[0] && (a + b)[1..] == a[1..] + b;
      ExecConcat(After(s, a[0], limits), a[1..], b, limits);
    }
  }

  // ------------------------------------------------------------------------
  // The clock
  // ------------------------------------------------------------------------

  ghost predicate ReadingsTimely(batch: seq<Timed>, from: Ticks, to: Ticks)
  {
    && (forall i :: 0 <= i < |batch| ==> from <= batch[i].at <= to)
    && (forall i, j :: 0 <= i < j < |batch| ==> batch[i].at <= batch[j].at)
  }

  // Clock readings never decrease; a restart may start a new clock.
  ghost predicate Timely(previous: Ticks, e: Event)
  {
    match e.op
    case Publish(batch, _, _) => previous <= e.now && ReadingsTimely(batch, previous, e.now)
    case Restart(saved) => forall id :: previous <= saved(id)
    case _ => previous <= e.now
  }

  ghost predicate Clocked(previous: Ticks, es: seq<Event>)
    decreases |es|
  {
    es == [] || (Timely(previous, es[0]) && Clocked(es[0].now, es[1..]))
  }

  // ------------------------------------------------------------------------
  // What one step does to one policy
  // ------------------------------------------------------------------------

  ghost predicate Commits(s: State, e: Event, p: Id, limits: Limits)
  {
    && e.op.Commit? && e.op.ticket.dependencies.policy == p
    && CommitsTicket(s, e.op.ticket, e.op.context, e.op.fingerprint, e.now, limits)
  }

  ghost predicate RollsBack(s: State, e: Event, p: Id)
  {
    && e.op.Rollback? && e.op.policy == p
    && RollbackRefusal(s, p, e.op.context, e.op.fingerprint).None?
    && p in s.policies && RestoreRefusal(s.policies[p]).None?
  }

  ghost predicate UpdatesPolicy(s: State, e: Event, p: Id, limits: Limits)
  {
    e.op.Update? && e.op.update.policy == p && UpdateRefusal(s, e.op.update, limits).None?
  }

  ghost predicate QuiescesPolicies(s: State, e: Event)
  {
    e.op.AdvanceEpoch? && Next(s.epoch).Some? && Next(s.authorityGeneration).Some?
  }

  ghost predicate Restarts(s: State, e: Event, limits: Limits)
  {
    e.op.Restart? && RecoveryRefusal(Stripped(BuildDurable(s, e.op.saved)), limits).None?
  }

  // Nothing but bindings, history and lifecycle labels changed, and a terminal
  // policy kept its label.
  ghost predicate Quiet(r: PolicyRecord, r': PolicyRecord, epoch: u64)
  {
    && (r'.policy.epoch == r.policy.epoch || r'.policy.epoch == epoch)
    && r'.preference == r.preference && r'.stable == r.stable && r'.timing == r.timing
    && r'.policy == r.policy.(lifecycle := r'.policy.lifecycle, epoch := r'.policy.epoch)
    && (r.policy.lifecycle.Terminal() ==> r'.policy == r.policy)
  }

  ghost function CommittedBy(s: State, e: Event, p: Id, limits: Limits): PolicyRecord
    requires Commits(s, e, p, limits)
  {
    var r, t := s.policies[p], e.op.ticket;
    Committed(r, Find(r.candidates, t.verdict.target).value, t, e.op.context, s.epoch, e.op.minted, e.now, limits)
  }

  ghost function RolledBackBy(s: State, e: Event, p: Id, limits: Limits): PolicyRecord
    requires RollsBack(s, e, p)
  {
    var r := s.policies[p];
    RolledBack(r, Find(r.candidates, r.stable.path).value, e.op.context, s, e.op.minted, e.now, limits)
  }

  // The five ways a step rewrites a policy; every other step is quiet.
  ghost predicate Change(s: State, e: Event, p: Id, r': PolicyRecord, limits: Limits)
    requires p in s.policies
  {
    var r := s.policies[p];
    if Commits(s, e, p, limits) then r' == CommittedBy(s, e, p, limits)
    else if RollsBack(s, e, p) then r' == RolledBackBy(s, e, p, limits)
    else if UpdatesPolicy(s, e, p, limits) then r' == Updated(r, e.op.update, s.epoch, e.now)
    else if QuiescesPolicies(s, e) then r' == Quiesced(r)
    else if Restarts(s, e, limits) then RestartedRecord(p, r, r', e.op.saved(p), e.now, limits)
    else Quiet(r, r', s.epoch) && (r'.policy != r.policy ==> Labels(e))
  }

  // Only these steps write a lifecycle label on their own.
  ghost predicate Labels(e: Event) { e.op.Transition? || e.op.RevokePolicy? }

  ghost predicate Becomes(s: State, e: Event, p: Id, t: State, limits: Limits)
  {
    p in s.policies && p in t.policies && Change(s, e, p, t.policies[p], limits)
  }

  lemma RecordedKeepsPolicies(s: State, attempt: Id, fingerprint: Id, outcome: Outcome, limits: Limits)
    ensures var t := Recorded(s, attempt, fingerprint, outcome, limits);
            t == s.(attempts := t.attempts)
  {
  }

  lemma ReindexedKeeps(s: State, policy: Id, limits: Limits)
    ensures var t := Reindexed(s, policy, limits);
            t == s.(index := t.index)
  {
  }

  lemma UnindexedKeeps(s: State, policy: Id)
    ensures var t := Unindexed(s, policy);
            t == s.(index := t.index)
  {
  }

  lemma CreateKeeps(s: State, q: CreateRequest, id: Id, now: Ticks, limits: Limits, p: Id)
    requires p in s.policies
    ensures var t := CreateStep(s, q, id, now, limits).state; p in t.policies && t.policies[p] == s.policies[p]
  {
    hide CreateRefusal, Recorded, Reindexed;
    RecordedKeepsPolicies(s, q.context.attempt, q.fingerprint, ALREADY_EXISTS, limits);
    RecordedKeepsPolicies(s, q.context.attempt, q.fingerprint, RESOURCE_LIMIT, limits);
    var stored := s.(
      policies := if id in s.policies then s.policies else s.policies[id := NewRecord(NewPolicy(s, q, id, now))],
      names := s.names[q.name := id]);
    ReindexedKeeps(stored, id, limits);
    RecordedKeepsPolicies(Reindexed(stored, id, limits), q.context.attempt, q.fingerprint, POLICY_CREATED, limits);
  }

  lemma UpdatePolicies(s: State, q: UpdateRequest, now: Ticks, limits: Limits)
    ensures UpdateStep(s, q, now, limits).state.policies ==
      if UpdateRefusal(s, q, limits).None? && q.policy in s.policies
         && Next(s.policies[q.policy].policy.generation).Some?
      then s.policies[q.policy := Updated(s.policies[q.policy], q, s.epoch, now)] else s.policies
    ensures UpdateRefusal(s, q, limits).None? ==>
      q.policy in s.policies && Next(s.policies[q.policy].policy.generation).Some?
  {
    hide Updated, Recorded, Reindexed, Unindexed;
    UpdateNeedsPolicy(s, q, limits);
    if UpdateRefusal(s, q, limits).None? {
      UnindexedKeeps(s, q.policy);
      var updated := Unindexed(s, q.policy).(
        policies := s.policies[q.policy := Updated(s.policies[q.policy], q, s.epoch, now)]);
      ReindexedKeeps(updated, q.policy, limits);
      RecordedKeepsPolicies(Reindexed(updated, q.policy, limits), q.context.attempt, q.fingerprint, POLICY_UPDATED,
                            limits);
    }
  }

  lemma UpdateNeedsPolicy(s: State, q: UpdateRequest, limits: Limits)
    ensures UpdateRefusal(s, q, limits).None? ==>
      && q.policy in s.policies && Next(s.policies[q.policy].policy.generation).Some?
      && !s.policies[q.policy].policy.lifecycle.Terminal() && q.semantics.Valid()
  {
    hide ScopeRefusal, Replay;
  }

  lemma RelabelledIsQuiet(s: State, r: PolicyRecord, lifecycle: Lifecycle, epoch: u64, revocation: Option<Revocation>)
    requires epoch == s.epoch || epoch == r.policy.epoch
    ensures !r.policy.lifecycle.Terminal() ==> Quiet(r, Relabelled(r, lifecycle, epoch), s.epoch)
    ensures !r.policy.lifecycle.Terminal() ==>
              Quiet(r, Relabelled(r, lifecycle, epoch).(revocation := revocation), s.epoch)
    ensures Quiet(r, r, s.epoch)
  {
  }

  lemma TransitionIsQuiet(s: State, policy: Id, event: LifecycleEvent, ctx: Context, p: Id)
    requires p in s.policies
    ensures var t := TransitionStep(s, policy, event, ctx).state;
            p in t.policies && Quiet(s.policies[p], t.policies[p], s.epoch)
  {
    hide TargetRefusal, Relabelled, Quiet, NextLifecycle;
    var r := s.policies[p];
    RelabelledIsQuiet(s, r, NeedsRevalidation, r.policy.epoch, None);
    var next := NextLifecycle(r.policy.lifecycle, event);
    if next.Some? {
      RelabelledIsQuiet(s, r, next.value, s.epoch, None);
    }
  }

  lemma RevokeIsQuiet(
    s: State, policy: Id, reason: RevocationReason, detail: seq<byte>, ctx: Context, limits: Limits, p: Id)
    requires p in s.policies
    ensures var t := RevokeStep(s, policy, reason, detail, ctx, limits).state;
            p in t.policies && Quiet(s.policies[p], t.policies[p], s.epoch)
  {
    hide TargetRefusal, Relabelled, Quiet;
    var r := s.policies[p];
    var revocation := Revocation(policy, r.policy.generation, s.authorityGeneration, s.epoch, ctx.publisher, reason,
                                 detail);
    RelabelledIsQuiet(s, r, Revoked, s.epoch, Some(revocation));
  }

  ghost predicate SameButCandidates(r: PolicyRecord, r': PolicyRecord)
  {
    r' == r.(candidates := r'.candidates)
  }

  ghost predicate OnlyCandidatesMove(s: State, t: State, p: Id)
  {
    && t.policies.Keys == s.policies.Keys
    && (p in s.policies ==> SameButCandidates(s.policies[p], t.policies[p]))
  }

  lemma BoundMovesCandidates(s: State, n: Notification, limits: Limits, p: Id)
    requires n.policy in s.policies
    ensures OnlyCandidatesMove(s, Bound(s, n, limits), p)
  {
    hide Reindexed, Inserted, Rebound;
    var r := s.policies[n.policy];
    var inserted := s.(
      policies := s.policies[n.policy := r.(candidates := Inserted(r.candidates, Candidate(n.binding, 0)))]);
    ReindexedKeeps(inserted, n.policy, limits);
  }

  lemma InvalidatedMovesCandidates(s: State, path: Id, p: Id)
    ensures OnlyCandidatesMove(s, Invalidated(s, path), p)
  {
  }

  lemma NoteMovesCandidates(s: State, n: Notification, ctx: Context, limits: Limits, p: Id)
    ensures OnlyCandidatesMove(s, NoteStep(s, n, ctx, limits).state, p)
  {
    hide EventRefusal, Bound, Invalidated, OnlyCandidatesMove;
    NoteNeedsPolicy(s, n, ctx);
    MovesNothing(s, p);
    if NoteRefusal(s, n, ctx).None? && EventRefusal(s.policies[n.policy].candidates, n, limits).None? {
      var bound := Bound(s, n, limits);
      BoundMovesCandidates(s, n, limits, p);
      InvalidatedMovesCandidates(bound, n.binding.path, p);
      MovesCompose(s, bound, Invalidated(bound, n.binding.path), p);
    }
  }

  lemma NoteNeedsPolicy(s: State, n: Notification, ctx: Context)
    ensures NoteRefusal(s, n, ctx).None? ==>
      n.policy in s.policies && !s.policies[n.policy].policy.lifecycle.Terminal()
  {
    hide TargetRefusal;
  }

  lemma MovesNothing(s: State, p: Id)
    ensures OnlyCandidatesMove(s, s, p)
  {
  }

  lemma MovesCompose(s: State, t: State, u: State, p: Id)
    requires OnlyCandidatesMove(s, t, p) && OnlyCandidatesMove(t, u, p)
    ensures OnlyCandidatesMove(s, u, p)
  {
  }

  lemma {:induction false} NotesMoveCandidates(s: State, ns: seq<Notification>, ctx: Context, limits: Limits, p: Id)
    ensures OnlyCandidatesMove(s, NotesStep(s, ns, ctx, limits).state, p)
    decreases |ns|
  {
    hide NoteStep, OnlyCandidatesMove;
    MovesNothing(s, p);
    if ns != [] {
      NoteMovesCandidates(s, ns[0], ctx, limits, p);
      var first := NoteStep(s, ns[0], ctx, limits);
      if first.outcome == POLICY_UPDATED {
        NotesMoveCandidates(first.state, ns[1..], ctx, limits, p);
        MovesCompose(s, first.state, NotesStep(first.state, ns[1..], ctx, limits).state, p);
      }
    }
  }

  lemma UpstreamMovesCandidates(s: State, ns: seq<Notification>, ctx: Context, fingerprint: Id, limits: Limits, p: Id)
    ensures OnlyCandidatesMove(s, UpstreamStep(s, ns, ctx, fingerprint, limits).state, p)
  {
    hide NotesStep, Recorded, UpstreamRefusal;
    NotesMoveCandidates(s, ns, ctx, limits, p);
    RecordedKeepsPolicies(NotesStep(s, ns, ctx, limits).state, ctx.attempt, fingerprint, POLICY_UPDATED, limits);
  }

  lemma PublishKeeps(s: State, batch: seq<Timed>, ctx: Context, fingerprint: Id, limits: Limits)
    ensures var t := PublishStep(s, batch, ctx, fingerprint, limits).state;
            t == s.(evidence := t.evidence, evidenceGeneration := t.evidenceGeneration, attempts := t.attempts,
                    index := s.index.(bySource := t.index.bySource))
  {
    hide Recorded, ApplyAll, IndexSources, Replay, Validate;
    if PublishRefusal(s, batch, ctx, fingerprint, limits).None? && Next(s.evidenceGeneration).Some? {
      var admission := AdmissionOf(s, ctx.publisher, limits);
      ValidatedIsWellFormed(s.evidence, map[], Samples(batch), admission);
      var published := s.(
        evidence := ApplyAll(s.evidence, Samples(batch), Readings(batch), admission),
        evidenceGeneration := Next(s.evidenceGeneration).value,
        index := s.index.(bySource := IndexSources(s.index.bySource, s.index.byPath, Samples(batch))));
      RecordedKeepsPolicies(published, ctx.attempt, fingerprint, POLICY_UPDATED, limits);
    }
  }

  lemma CommitChange(s: State, e: Event, limits: Limits, p: Id)
    requires e.op.Commit? && p in s.policies
    ensures Becomes(
      s, e, p, CommitStep(s, e.op.ticket, e.op.context, e.op.fingerprint, e.op.minted, e.now, limits).state, limits)
  {
    hide CommitRefusal, VerifyRefusal, Recorded, Committed, SuppressionNoted, UpdateRefusal, RollbackRefusal,
         RestoreRefusal, RestartedRecord, Updated, RolledBack, Quiesced;
    var t, id := e.op.ticket, e.op.ticket.dependencies.policy;
    CommitNeedsPolicy(s, t, e.op.context, e.op.fingerprint);
    RelabelledIsQuiet(s, s.policies[p], Active, s.epoch, None);
    if CommitRefusal(s, t, e.op.context, e.op.fingerprint).None? {
      var r := s.policies[id];
      NotedIsQuiet(s, r, t, e.op.minted, e.now, limits);
      RecordedKeepsPolicies(s.(policies := s.policies[id := SuppressionNoted(s, r, t, e.op.minted, e.now, limits)]),
                            e.op.context.attempt, e.op.fingerprint, t.verdict.outcome, limits);
      RecordedKeepsPolicies(s, e.op.context.attempt, e.op.fingerprint, NO_CHANGE, limits);
      if Commits(s, e, id, limits) {
        VerifiedHasTarget(s, r, t.verdict, e.now, limits);
        RecordedKeepsPolicies(s.(policies := s.policies[id := CommittedBy(s, e, id, limits)]),
                              e.op.context.attempt, e.op.fingerprint, DECISION_COMMITTED, limits);
      }
    }
  }

  lemma CommitNeedsPolicy(s: State, t: Ticket, ctx: Context, fingerprint: Id)
    ensures CommitRefusal(s, t, ctx, fingerprint).None? ==>
      var d := t.dependencies;
      && d.policy in s.policies && s.epoch == d.epoch && s.authorityGeneration == d.authorityGeneration
      && s.policies[d.policy].policy.lifecycle.Active?
      && s.policies[d.policy].policy.generation == d.policyGeneration
      && CallerRefusal(s, ctx, None, None).None?
      && (t.verdict.lifecycle == ELIGIBLE ==> DependencyRefusal(s, s.policies[d.policy], d).None?)
  {
    hide CallerRefusal, DependencyRefusal, Replay;
  }

  lemma VerifiedHasTarget(s: State, r: PolicyRecord, v: Verdict, now: Ticks, limits: Limits)
    ensures VerifyRefusal(s, r, v, now, limits).None? ==>
      && SuppressedNow(r, v, now).None?
      && Find(r.candidates, v.target).Some?
      && Find(r.candidates, v.target).value.binding.authority.legal
      && (v.targetAuthority != 0 ==>
            Find(r.candidates, v.target).value.binding.authority.generation == v.targetAuthority)
      && Next(r.preference.adaptation).Some? && Next(r.preference.transition).Some?
  {
    hide SuppressedNow, Pending;
  }

  lemma NotedIsQuiet(s: State, r: PolicyRecord, t: Ticket, minted: Minted, now: Ticks, limits: Limits)
    ensures Quiet(r, SuppressionNoted(s, r, t, minted, now, limits), s.epoch) && Quiet(r, r, s.epoch)
    ensures SuppressionNoted(s, r, t, minted, now, limits).policy == r.policy
  {
  }

  lemma RollbackChange(s: State, e: Event, limits: Limits, p: Id)
    requires e.op.Rollback? && p in s.policies
    ensures Becomes(
      s, e, p, RollbackStep(s, e.op.policy, e.op.context, e.op.fingerprint, e.op.minted, e.now, limits).state, limits)
  {
    hide RollbackRefusal, RestoreRefusal, Recorded, RolledBack, CommitsTicket, UpdateRefusal, RestartedRecord, Updated,
         Quiesced;
    var id := e.op.policy;
    RollbackNeedsPolicy(s, id, e.op.context, e.op.fingerprint);
    RelabelledIsQuiet(s, s.policies[p], Active, s.epoch, None);
    if RollbackRefusal(s, id, e.op.context, e.op.fingerprint).None? {
      var refused := RestoreRefusal(s.policies[id]);
      if refused.Some? {
        RecordedKeepsPolicies(s, e.op.context.attempt, e.op.fingerprint, refused.value.0, limits);
      } else {
        RestoreHasTarget(s.policies[id]);
        RecordedKeepsPolicies(s.(policies := s.policies[id := RolledBackBy(s, e, id, limits)]),
                              e.op.context.attempt, e.op.fingerprint, DECISION_COMMITTED, limits);
      }
    }
  }

  lemma RollbackNeedsPolicy(s: State, policy: Id, ctx: Context, fingerprint: Id)
    ensures RollbackRefusal(s, policy, ctx, fingerprint).None? ==>
      policy in s.policies && s.policies[policy].policy.lifecycle.Active? && ctx.boot !in s.fenced
  {
  }

  lemma RestoreHasTarget(r: PolicyRecord)
    ensures RestoreRefusal(r).None? ==>
      && r.stable.established && Find(r.candidates, r.stable.path).Some?
      && !(r.preference.established && r.preference.preferred == r.stable.path)
      && Next(r.preference.adaptation).Some? && Next(r.preference.transition).Some?
  {
  }

  lemma RestartChange(s: State, e: Event, limits: Limits, p: Id)
    requires Keyed(s) && p in s.policies && e.op.Restart?
    ensures Becomes(s, e, p, RestartStep(s, e.op.saved, e.now, limits).state, limits)
  {
    hide CommitsTicket, UpdateRefusal, RestoreRefusal, RollbackRefusal, BuildDurable, RestoredRecords, RestartedRecord,
         Quiesced, Updated, Recovered, RecoveryRefusal;
    RelabelledIsQuiet(s, s.policies[p], Active, s.epoch, None);
    if Restarts(s, e, limits) {
      RestartAt(s, e.op.saved, e.now, limits, p);
      RecoveredFacts(Stripped(BuildDurable(s, e.op.saved)), e.now, limits);
    }
  }

  // Recovery opens a new epoch with the saved records and nothing else.
  lemma RecoveredFacts(d: DurableState, now: Ticks, limits: Limits)
    requires RecoveryRefusal(d, limits).None?
    ensures Recovered(d, now, limits).policies == RestoredRecords(d, now, limits)
    ensures Blank(Recovered(d, now, limits), d)
  {
    hide RestoredRecords, RestoreNames, RestoreRevocations, Reindexed;
    ReindexKeeps(Bare(d, now, limits), InOrderOf(RestoredRecords(d, now, limits).Keys), limits);
  }

  ghost predicate Blank(t: State, d: DurableState)
  {
    && t.epoch == d.epoch + 1 && t.authorityGeneration == d.authorityGeneration + 1
    && t.evidenceGeneration == d.evidenceGeneration && t.evidence == Store(map[], d.evidenceWatermark)
    && t.upstreamWatermark == d.upstreamWatermark
    && t.registrations == map[] && t.fenced == {} && t.attempts == AttemptLog(map[], [])
  }

  // One step changes one policy in one of these ways and in no other.
  lemma Evolution(s: State, e: Event, p: Id, limits: Limits)
    requires Keyed(s) && p in s.policies
    ensures Becomes(s, e, p, After(s, e, limits), limits)
  {
    hide RegisterStep, FenceStep, AdvanceEpochStep, CreateStep, UpdateStep, TransitionStep, RevokeStep, UpstreamStep,
         PublishStep, CommitStep, RollbackStep, RestartStep, CommitsTicket, UpdateRefusal, RestoreRefusal,
         RollbackRefusal, BuildDurable, RestartedRecord, RecoveryRefusal, Committed, RolledBack, Updated, Quiesced,
         Quiet;
    RelabelledIsQuiet(s, s.policies[p], Active, s.epoch, None);
    match e.op
    case Register(publisher, boot, scope, session) => RegisterKeeps(s, publisher, boot, scope, session, limits);
    case FencePublisher(publisher, boot) => FenceKeeps(s, publisher, boot);
    case AdvanceEpoch => AdvanceEpochChange(s, p);
    case Create(q, id) => CreateKeeps(s, q, id, e.now, limits, p);
    case Update(q) => UpdatePolicies(s, q, e.now, limits);
    case Transition(policy, event, ctx) => TransitionIsQuiet(s, policy, event, ctx, p);
    case RevokePolicy(policy, reason, detail, ctx) => RevokeIsQuiet(s, policy, reason, detail, ctx, limits, p);
    case Upstream(notes, ctx, fingerprint) =>
      UpstreamMovesCandidates(s, notes, ctx, fingerprint, limits, p);
      SameIsQuiet(s, s.policies[p], UpstreamStep(s, notes, ctx, fingerprint, limits).state.policies[p]);
    case Publish(batch, ctx, fingerprint) => PublishKeeps(s, batch, ctx, fingerprint, limits);
    case Commit(_, _, _, _) => CommitChange(s, e, limits, p);
    case Rollback(_, _, _, _) => RollbackChange(s, e, limits, p);
    case Restart(_) => RestartChange(s, e, limits, p);
  }

  lemma SameIsQuiet(s: State, r: PolicyRecord, r': PolicyRecord)
    ensures SameButCandidates(r, r') ==> Quiet(r, r', s.epoch)
  {
  }

  lemma RegisterKeeps(s: State, publisher: Id, boot: Id, scope: AuthorityScope, session: Id, limits: Limits)
    ensures var t := RegisterStep(s, publisher, boot, scope, session, limits).state;
            t == s.(registrations := t.registrations, fenced := t.fenced) && s.fenced <= t.fenced
  {
  }

  lemma FenceKeeps(s: State, publisher: Id, boot: Id)
    ensures var t := FenceStep(s, publisher, boot).state;
            t == s.(registrations := t.registrations, fenced := t.fenced) && s.fenced <= t.fenced
  {
  }

  lemma AdvanceEpochChange(s: State, p: Id)
    requires p in s.policies
    ensures var t := AdvanceEpochStep(s).state;
            && p in t.policies
            && t.policies[p] == (if Next(s.epoch).Some? && Next(s.authorityGeneration).Some?
                                 then Quiesced(s.policies[p]) else s.policies[p])
  {
    hide Quiesced;
  }

  // ------------------------------------------------------------------------
  // Records stay under their identities
  // ------------------------------------------------------------------------

  // Only creation adds a policy, under its new identity.
  ghost predicate KeysKept(s: State, t: State, created: Option<Id>)
  {
    forall q :: q in t.policies ==>
      q in s.policies || (created == Some(q) && t.policies[q].policy.id == q)
  }

  lemma CreateKeys(s: State, q: CreateRequest, id: Id, now: Ticks, limits: Limits)
    ensures KeysKept(s, CreateStep(s, q, id, now, limits).state, Some(id))
  {
    hide CreateRefusal, IndexedWith, Logged;
  }

  lemma LabelKeys(s: State, e: Event, limits: Limits)
    ensures e.op.Transition? ==> KeysKept(s, TransitionStep(s, e.op.policy, e.op.event, e.op.context).state, None)
    ensures e.op.RevokePolicy? ==>
      KeysKept(s, RevokeStep(s, e.op.policy, e.op.reason, e.op.detail, e.op.context, limits).state, None)
  {
    hide TargetRefusal, Relabelled, NextLifecycle;
  }

  lemma CommitKeys(s: State, t: Ticket, ctx: Context, fingerprint: Id, minted: Minted, now: Ticks, limits: Limits)
    ensures KeysKept(s, CommitStep(s, t, ctx, fingerprint, minted, now, limits).state, None)
  {
    hide CommitRefusal, VerifyRefusal, Committed, SuppressionNoted, Logged, AsksForMove;
    CommitNeedsPolicy(s, t, ctx, fingerprint);
  }

  lemma RollbackKeys(s: State, p: Id, ctx: Context, fingerprint: Id, minted: Minted, now: Ticks, limits: Limits)
    ensures KeysKept(s, RollbackStep(s, p, ctx, fingerprint, minted, now, limits).state, None)
  {
    hide RolledBack, RollbackRefusal, RestoreRefusal, Logged;
    RollbackNeedsPolicy(s, p, ctx, fingerprint);
  }

  lemma UpstreamKeys(s: State, ns: seq<Notification>, ctx: Context, fingerprint: Id, limits: Limits)
    ensures KeysKept(s, UpstreamStep(s, ns, ctx, fingerprint, limits).state, None)
  {
    hide UpstreamStep;
    UpstreamMovesCandidates(s, ns, ctx, fingerprint, limits, NO_ID);
  }

  lemma RestartKeysKept(s: State, saved: SaveTimes, now: Ticks, limits: Limits)
    requires Keyed(s)
    ensures KeysKept(s, RestartStep(s, saved, now, limits).state, None)
  {
    hide Recovered, BuildDurable, RecoveryRefusal, RestoredRecords;
    var d := Stripped(BuildDurable(s, saved));
    if RecoveryRefusal(d, limits).None? {
      RestartKeys(s, saved, now, limits);
      RecoveredFacts(d, now, limits);
    }
  }

  lemma StepKeys(s: State, e: Event, limits: Limits)
    requires Keyed(s)
    ensures KeysKept(s, After(s, e, limits), if e.op.Create? then Some(e.op.newId) else None)
  {
    hide RegisterStep, FenceStep, CreateStep, UpdateStep, TransitionStep, RevokeStep, UpstreamStep, PublishStep,
         CommitStep, RollbackStep, RestartStep, Quiesced;
    match e.op
    case Register(publisher, boot, scope, session) => RegisterKeeps(s, publisher, boot, scope, session, limits);
    case FencePublisher(publisher, boot) => FenceKeeps(s, publisher, boot);
    case AdvanceEpoch =>
    case Create(q, id) => CreateKeys(s, q, id, e.now, limits);
    case Update(q) => UpdatePolicies(s, q, e.now, limits);
    case Transition(_, _, _) => LabelKeys(s, e, limits);
    case RevokePolicy(_, _, _, _) => LabelKeys(s, e, limits);
    case Upstream(notes, ctx, fingerprint) => UpstreamKeys(s, notes, ctx, fingerprint, limits);
    case Publish(batch, ctx, fingerprint) => PublishKeeps(s, batch, ctx, fingerprint, limits);
    case Commit(t, ctx, fingerprint, minted) => CommitKeys(s, t, ctx, fingerprint, minted, e.now, limits);
    case Rollback(p, ctx, fingerprint, minted) => RollbackKeys(s, p, ctx, fingerprint, minted, e.now, limits);
    case Restart(saved) => RestartKeysKept(s, saved, e.now, limits);
  }

  lemma ChangeKeepsId(s: State, e: Event, p: Id, t: State, limits: Limits)
    requires Becomes(s, e, p, t, limits)
    ensures t.policies[p].policy.id == s.policies[p].policy.id
  {
    hide CommitsTicket, RollbackRefusal, RestoreRefusal, UpdateRefusal, RecoveryRefusal, BuildDurable, RestoredTiming,
         SavedTiming, CommittedPreference, RestoredPreference, Armed, Anchored;
    if UpdatesPolicy(s, e, p, limits) {
      UpdateNeedsPolicy(s, e.op.update, limits);
    }
  }

  lemma KeyedStep(s: State, e: Event, limits: Limits)
    requires Keyed(s)
    ensures Keyed(After(s, e, limits))
  {
    hide After, Becomes;
    StepKeys(s, e, limits);
    var t := After(s, e, limits);
    forall p | p in s.policies
      ensures p in t.policies && t.policies[p].policy.id == p
    {
      Evolution(s, e, p, limits);
      ChangeKeepsId(s, e, p, t, limits);
      BecomesKeeps(s, e, p, t, limits);
    }
  }

  lemma BecomesKeeps(s: State, e: Event, p: Id, t: State, limits: Limits)
    ensures Becomes(s, e, p, t, limits) ==> p in s.policies && p in t.policies
  {
    hide Change;
  }
}
