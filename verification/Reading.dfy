// What a coordinator accepts and cannot read back after saving it: the guard of
// every step, and the families of requests that break it (src/persistence.cpp,
// src/fabric_policy.cpp).

module Reading {
  import opened Base
  import opened Outcomes
  import opened Policy
  import opened Records
  import opened Evaluation
  import opened Indexing
  import opened Durable
  import opened Fabric
  import opened Runs
  import opened Moves
  import opened Invariants
  import opened Saving
  import Codec
  import Fencing
  import IndexAgreement
  import Revalidation
  import Shapes
  import Store
  import StoreFields
  import StoreRecords

  // ------------------------------------------------------------------------
  // The guard of one step
  // ------------------------------------------------------------------------

  predicate RequestFits(scope: PolicyScope, sem: Semantics) { ScopeFits(scope) && SemanticsFit(sem) }

  // The request declares a policy that is not there yet.
  predicate Creates(s: State, q: CreateRequest, id: Id, limits: Limits)
  {
    CreateRefusal(s, q, limits).None? && q.name !in s.names && |s.policies| < limits.maxPolicies && id !in s.policies
  }

  // The revocation is accepted, whatever its detail.
  predicate Revokes(s: State, policy: Id, ctx: Context, limits: Limits)
  {
    && ValidId(policy) && policy in s.policies && policy !in s.revocations
    && TargetRefusal(s, ctx, s.policies[policy].policy.semantics.target).None?
    && !s.policies[policy].policy.lifecycle.Terminal() && |s.revocations| < limits.maxRevocations
  }

  // A caller can tell before the step whether what it hands over fits the reader.
  ghost predicate StepFits(s: State, e: Event, limits: Limits)
  {
    match e.op
    case Create(q, id) => Creates(s, q, id, limits) ==> RequestFits(q.scope, q.semantics)
    case Update(q) => UpdateRefusal(s, q, limits).None? ==> RequestFits(q.scope, q.semantics)
    case RevokePolicy(policy, _, detail, ctx) => Revokes(s, policy, ctx, limits) ==> |detail| <= StoreRecords.MAX_DETAIL
    case Commit(t, ctx, fingerprint, _) =>
      CommitsTicket(s, t, ctx, fingerprint, e.now, limits) ==> ProposalFits(t.verdict.proposal)
    case _ => true
  }

  // ------------------------------------------------------------------------
  // Records
  // ------------------------------------------------------------------------

  lemma CommittedFits(
    r: PolicyRecord, c: Candidate, t: Ticket, ctx: Context, epoch: u64, minted: Minted, now: Ticks, limits: Limits)
    requires RecordFits(r) && Next(r.preference.adaptation).Some? && Next(r.preference.transition).Some?
    ensures RecordFits(Committed(r, c, t, ctx, epoch, minted, now, limits)) <==> ProposalFits(t.verdict.proposal)
  {
    hide ScopeFits, ProposalFits, ArmedHoldDown, RaisedPenalty;
  }

  lemma RolledBackFits(
    r: PolicyRecord, c: Candidate, ctx: Context, s: State, minted: Minted, now: Ticks, limits: Limits)
    requires RecordFits(r) && Next(r.preference.adaptation).Some? && Next(r.preference.transition).Some?
    ensures RecordFits(RolledBack(r, c, ctx, s, minted, now, limits))
  {
    hide ScopeFits, SemanticsFit, ProposalFits;
  }

  lemma UpdatedFits(r: PolicyRecord, q: UpdateRequest, epoch: u64, now: Ticks)
    requires Next(r.policy.generation).Some?
    ensures RecordFits(Updated(r, q, epoch, now)) ==> RequestFits(q.scope, q.semantics)
    ensures RecordFits(r) && RequestFits(q.scope, q.semantics) ==> RecordFits(Updated(r, q, epoch, now))
  {
    hide ScopeFits;
  }

  lemma KeptFits(id: Id, r: PolicyRecord, r': PolicyRecord, s: State, saved: Ticks, now: Ticks, limits: Limits)
    requires RecordFits(r)
    ensures RecordFits(Quiesced(r))
    ensures RestartedRecord(id, r, r', saved, now, limits) ==> RecordFits(r')
    ensures Quiet(r, r', s.epoch) ==> RecordFits(r')
  {
    hide ScopeFits, SemanticsFit, ProposalFits;
  }

  lemma CreatedFits(s: State, q: CreateRequest, id: Id, now: Ticks)
    ensures RecordFits(NewRecord(NewPolicy(s, q, id, now))) <==> RequestFits(q.scope, q.semantics)
  {
    hide ScopeFits;
  }

  ghost predicate ChangeFits(s: State, e: Event, p: Id, limits: Limits)
  {
    && (Commits(s, e, p, limits) ==> ProposalFits(e.op.ticket.verdict.proposal))
    && (UpdatesPolicy(s, e, p, limits) ==> RequestFits(e.op.update.scope, e.op.update.semantics))
  }

  lemma ChangedRecordFits(s: State, e: Event, p: Id, t: State, limits: Limits)
    requires Becomes(s, e, p, t, limits) && RecordFits(s.policies[p])
    ensures RecordFits(t.policies[p]) <==> ChangeFits(s, e, p, limits)
  {
    hide CommitsTicket, RollbackRefusal, RestoreRefusal, UpdateRefusal, RecoveryRefusal, BuildDurable, RestartedRecord,
         Quiet, Quiesced, Updated, Committed, RolledBack, RecordFits, ProposalFits, RequestFits;
    var r := s.policies[p];
    if Commits(s, e, p, limits) {
      Shapes.CommitNext(s, e, p, limits);
      CommitHasTarget(s, e, p, limits);
      CommittedFits(r, Find(r.candidates, e.op.ticket.verdict.target).value, e.op.ticket, e.op.context, s.epoch,
                    e.op.minted, e.now, limits);
    } else if RollsBack(s, e, p) {
      RestoreHasTarget(r);
      RolledBackFits(r, Find(r.candidates, r.stable.path).value, e.op.context, s, e.op.minted, e.now, limits);
    } else if UpdatesPolicy(s, e, p, limits) {
      UpdateNeedsPolicy(s, e.op.update, limits);
      UpdatedFits(r, e.op.update, s.epoch, e.now);
    } else {
      KeptFits(p, r, t.policies[p], s, if e.op.Restart? then e.op.saved(p) else 0, e.now, limits);
    }
  }

  lemma CreateCreates(s: State, q: CreateRequest, id: Id, now: Ticks, limits: Limits)
    ensures var t := CreateStep(s, q, id, now, limits).state;
            && (id !in s.policies && id in t.policies <==> Creates(s, q, id, limits))
            && (Creates(s, q, id, limits) ==> t.policies[id] == NewRecord(NewPolicy(s, q, id, now)))
  {
    hide CreateRefusal, Logged, IndexedWith, NewRecord, NewPolicy;
  }

  ghost predicate RecordsFit(s: State) { forall p :: p in s.policies ==> RecordFits(s.policies[p]) }

  ghost predicate DetailsFit(s: State) { forall p :: p in s.revocations ==> DetailFits(s.revocations[p]) }

  // The part of the guard that is about records.
  ghost predicate StepFitsRecords(s: State, e: Event, limits: Limits)
  {
    && (forall p :: p in s.policies ==> ChangeFits(s, e, p, limits))
    && (e.op.Create? && Creates(s, e.op.creation, e.op.newId, limits) ==>
          RequestFits(e.op.creation.scope, e.op.creation.semantics))
  }

  lemma StepRecordsFit(s: State, e: Event, limits: Limits)
    requires Keyed(s) && RecordsFit(s)
    ensures RecordsFit(After(s, e, limits)) <==> StepFitsRecords(s, e, limits)
  {
    hide RegisterStep, FenceStep, AdvanceEpochStep, CreateStep, UpdateStep, TransitionStep, RevokeStep, UpstreamStep,
         PublishStep, CommitStep, RollbackStep, RestartStep, Change, RecordFits, ChangeFits, RequestFits, Creates,
         NewRecord, NewPolicy;
    var t := After(s, e, limits);
    StepKeys(s, e, limits);
    if e.op.Create? {
      CreateCreates(s, e.op.creation, e.op.newId, e.now, limits);
      CreatedFits(s, e.op.creation, e.op.newId, e.now);
    }
    forall p | p in s.policies
      ensures p in t.policies && (RecordFits(t.policies[p]) <==> ChangeFits(s, e, p, limits))
    {
      Evolution(s, e, p, limits);
      ChangedRecordFits(s, e, p, t, limits);
    }
  }

  // ------------------------------------------------------------------------
  // Revocations
  // ------------------------------------------------------------------------

  lemma RevokingStep(
    s: State, policy: Id, reason: RevocationReason, detail: seq<byte>, ctx: Context, limits: Limits)
    ensures var t := RevokeStep(s, policy, reason, detail, ctx, limits);
            && (t.outcome == POLICY_UPDATED <==> Revokes(s, policy, ctx, limits))
            && (if Revokes(s, policy, ctx, limits)
                then policy in t.state.revocations && t.state.revocations[policy].detail == detail
                     && t.state.revocations == s.revocations[policy := t.state.revocations[policy]]
                else t.state == s)
  {
    hide TargetRefusal, Relabelled;
    if policy in s.policies {
      Revalidation.RefusalIsNoUpdate(s, ctx, s.policies[policy].policy.semantics.target);
    }
  }

  lemma RestartDetailsFit(s: State, saved: SaveTimes, now: Ticks, limits: Limits)
    requires DetailsFit(s)
    ensures DetailsFit(RestartStep(s, saved, now, limits).state)
  {
    hide RestoredRecords, RestoreNames, Reindexed, RecoveryRefusal, AllHistory, SavedTiming, DetailFits;
    var d := Stripped(BuildDurable(s, saved));
    if RecoveryRefusal(d, limits).None? {
      var records := RestoredRecords(d, now, limits);
      ReindexKeeps(Bare(d, now, limits), InOrderOf(records.Keys), limits);
      RestoredRevocations(d.revocations, records.Keys);
    }
  }

  lemma StepDetailsFit(s: State, e: Event, limits: Limits)
    requires DetailsFit(s)
    ensures DetailsFit(After(s, e, limits)) <==>
              (e.op.RevokePolicy? && Revokes(s, e.op.policy, e.op.context, limits) ==>
                 |e.op.detail| <= StoreRecords.MAX_DETAIL)
  {
    hide RegisterStep, FenceStep, CreateStep, UpdateStep, TransitionStep, RevokeStep, UpstreamStep, PublishStep,
         CommitStep, RollbackStep, RestartStep, Revokes;
    match e.op
    case Register(publisher, boot, scope, session) => RegisterKeeps(s, publisher, boot, scope, session, limits);
    case FencePublisher(publisher, boot) => FenceKeeps(s, publisher, boot);
    case AdvanceEpoch =>
    case Create(q, id) => Fencing.CreateCounters(s, q, id, e.now, limits);
    case Update(q) => Fencing.UpdateCounters(s, q, e.now, limits);
    case Transition(_, _, _) => Fencing.LabelCounters(s, e, limits);
    case RevokePolicy(policy, reason, detail, ctx) => RevokingStep(s, policy, reason, detail, ctx, limits);
    case Upstream(notes, ctx, fingerprint) => Fencing.UpstreamCounters(s, notes, ctx, fingerprint, limits);
    case Publish(batch, ctx, fingerprint) => PublishKeeps(s, batch, ctx, fingerprint, limits);
    case Commit(t, ctx, fingerprint, minted) => Fencing.CommitCounters(s, t, ctx, fingerprint, minted, e.now, limits);
    case Rollback(p, ctx, fingerprint, minted) =>
      Fencing.RollbackCounters(s, p, ctx, fingerprint, minted, e.now, limits);
    case Restart(saved) => RestartDetailsFit(s, saved, e.now, limits);
  }

  // ------------------------------------------------------------------------
  // Steps and runs
  // ------------------------------------------------------------------------

  lemma GuardOfRecords(s: State, e: Event, limits: Limits)
    ensures StepFits(s, e, limits) <==>
              && StepFitsRecords(s, e, limits)
              && (e.op.RevokePolicy? && Revokes(s, e.op.policy, e.op.context, limits) ==>
                    |e.op.detail| <= StoreRecords.MAX_DETAIL)
  {
    hide CommitRefusal, VerifyRefusal, AsksForMove, UpdateRefusal, Creates, Revokes, RequestFits, ProposalFits;
    if e.op.Update? {
      UpdateNeedsPolicy(s, e.op.update, limits);
    }
  }

  // From a state whose lists fit the reader, a step leads to one exactly when
  // what it hands over fits.
  lemma StepKeepsLists(s: State, e: Event, limits: Limits)
    requires Keyed(s) && ListsFit(s)
    ensures ListsFit(After(s, e, limits)) <==> StepFits(s, e, limits)
  {
    hide After, StepFits, StepFitsRecords, RecordFits, DetailFits, Revokes;
    StepRecordsFit(s, e, limits);
    StepDetailsFit(s, e, limits);
    GuardOfRecords(s, e, limits);
  }

  ghost predicate RunFits(s: State, es: seq<Event>, limits: Limits)
    decreases |es|
  {
    es != [] ==> StepFits(s, es[0], limits) && RunFits(After(s, es[0], limits), es[1..], limits)
  }

  ghost predicate AlwaysFits(s: State, es: seq<Event>, limits: Limits)
    decreases |es|
  {
    ListsFit(s) && (es != [] ==> AlwaysFits(After(s, es[0], limits), es[1..], limits))
  }

  // Along a run the lists of every state fit exactly when every step does.
  lemma {:induction false} RunKeepsLists(s: State, es: seq<Event>, limits: Limits)
    requires Keyed(s) && ListsFit(s)
    ensures AlwaysFits(s, es, limits) <==> RunFits(s, es, limits)
    ensures RunFits(s, es, limits) ==> ListsFit(Exec(s, es, limits))
    decreases |es|
  {
    hide After, ListsFit, StepFits, Keyed;
    if es != [] {
      var t := After(s, es[0], limits);
      StepKeepsLists(s, es[0], limits);
      KeyedStep(s, es[0], limits);
      if ListsFit(t) {
        RunKeepsLists(t, es[1..], limits);
      } else {
        UnfitIsNotAlways(t, es[1..], limits);
      }
    }
  }

  lemma UnfitIsNotAlways(s: State, es: seq<Event>, limits: Limits)
    ensures !ListsFit(s) ==> !AlwaysFits(s, es, limits)
  {
    hide After, ListsFit;
  }

  // ------------------------------------------------------------------------
  // Requests that are accepted and cannot be read back
  // ------------------------------------------------------------------------

  ghost predicate ReadsBack(s: State, now: SaveTimes, hash: seq<byte> -> u64)
  {
    var d := BuildDurable(s, now);
    Store.Decode(Store.Encode(d, hash), hash) == Codec.Got(Stripped(d), [])
  }

  lemma UnfitIsUnreadable(s: State, now: SaveTimes, hash: seq<byte> -> u64)
    requires Keyed(s) && !ListsFit(s)
    ensures !ReadsBack(s, now, hash)
  {
    hide BuildDurable, Store.Encode, Store.Decode, Store.Storable, ListsFit, SectionsFit;
    StorableFits(s, now);
    Store.RoundTrip(BuildDurable(s, now), hash);
  }

  // No length is asked of the detail of a revocation. An accepted one that is
  // longer than the reader admits leaves a store that cannot be read, whatever
  // the state was before and with the same timers.
  lemma LongDetailIsUnreadable(
    s: State, policy: Id, reason: RevocationReason, detail: seq<byte>, ctx: Context, limits: Limits, now: SaveTimes,
    hash: seq<byte> -> u64)
    requires Keyed(s) && Revokes(s, policy, ctx, limits) && |detail| > StoreRecords.MAX_DETAIL
    ensures var t := RevokeStep(s, policy, reason, detail, ctx, limits);
            t.outcome == POLICY_UPDATED && (TimersFit(t.state) <==> TimersFit(s)) && !ReadsBack(t.state, now, hash)
  {
    hide ReadsBack, RevokeStep, Revokes, TimersFit, Keyed, RecordFits;
    var t := RevokeStep(s, policy, reason, detail, ctx, limits);
    RevokingStep(s, policy, reason, detail, ctx, limits);
    RevokingKeeps(s, policy, reason, detail, ctx, limits);
    assert !DetailFits(t.state.revocations[policy]);
    UnfitIsUnreadable(t.state, now, hash);
  }

  lemma RevokingKeeps(s: State, policy: Id, reason: RevocationReason, detail: seq<byte>, ctx: Context, limits: Limits)
    ensures var t := RevokeStep(s, policy, reason, detail, ctx, limits).state;
            (TimersFit(t) <==> TimersFit(s)) && (Keyed(s) ==> Keyed(t))
  {
    hide RevokeStep, TimersFit, Keyed;
    var t := RevokeStep(s, policy, reason, detail, ctx, limits).state;
    RevokingRecords(s, policy, reason, detail, ctx, limits);
    SameTimers(s, t);
  }

  ghost predicate SameTimings(s: State, t: State)
  {
    && t.policies.Keys == s.policies.Keys
    && forall p :: p in s.policies ==>
         t.policies[p].timing == s.policies[p].timing && t.policies[p].policy.id == s.policies[p].policy.id
  }

  lemma SameTimers(s: State, t: State)
    requires SameTimings(s, t)
    ensures (TimersFit(t) <==> TimersFit(s)) && (Keyed(s) ==> Keyed(t))
  {
  }

  lemma RevokingRecords(
    s: State, policy: Id, reason: RevocationReason, detail: seq<byte>, ctx: Context, limits: Limits)
    ensures SameTimings(s, RevokeStep(s, policy, reason, detail, ctx, limits).state)
  {
    hide RevokeStep;
    IndexAgreement.RevokeKeepsKeys(s, policy, reason, detail, ctx, limits);
    forall p | p in s.policies
      ensures Quiet(s.policies[p], RevokeStep(s, policy, reason, detail, ctx, limits).state.policies[p], s.epoch)
    {
      RevokeIsQuiet(s, policy, reason, detail, ctx, limits, p);
    }
  }

  // An accepted update with a list the reader does not admit, or with an absent
  // identity in a list or an option, leaves such a store too.
  lemma UnfitUpdateIsUnreadable(
    s: State, q: UpdateRequest, at: Ticks, limits: Limits, now: SaveTimes, hash: seq<byte> -> u64)
    requires Keyed(s) && UpdateRefusal(s, q, limits).None? && !RequestFits(q.scope, q.semantics)
    ensures var t := UpdateStep(s, q, at, limits).state;
            (TimersFit(s) ==> TimersFit(t)) && !ReadsBack(t, now, hash)
  {
    hide ReadsBack, UpdateRefusal, UpdateStep, Updated, RequestFits, RecordFits;
    var t := UpdateStep(s, q, at, limits).state;
    UpdateNeedsPolicy(s, q, limits);
    UpdatePolicies(s, q, at, limits);
    UpdatedFits(s.policies[q.policy], q, s.epoch, at);
    UpdatedIsKeyed(s, q, at);
    assert q.policy in t.policies && !RecordFits(t.policies[q.policy]);
    UnfitIsUnreadable(t, now, hash);
  }

  lemma UpdatedIsKeyed(s: State, q: UpdateRequest, at: Ticks)
    requires q.policy in s.policies && Next(s.policies[q.policy].policy.generation).Some?
    ensures var r, r' := s.policies[q.policy], Updated(s.policies[q.policy], q, s.epoch, at);
            r'.policy.id == r.policy.id && (r'.timing == r.timing || r'.timing == NO_TIMING)
  {
  }

  // Updates are accepted with any number of priorities, which only creation
  // counts.
  lemma UpdateAdmitsAnyPriorities(s: State, q: UpdateRequest, priorities: seq<Priority>, limits: Limits)
    requires UpdateRefusal(s, q, limits).None? && q.semantics.(priorities := priorities).Valid()
    ensures UpdateRefusal(s, q.(semantics := q.semantics.(priorities := priorities)), limits).None?
    ensures |priorities| > StoreFields.MAX_CANDIDATES ==>
              !RequestFits(q.scope, q.semantics.(priorities := priorities))
  {
    hide ScopeRefusal, Replay, Semantics.FirstDefect;
  }

  // And with an absent identity among the routes of the scope.
  lemma UpdateAdmitsAbsentRoute(s: State, q: UpdateRequest, limits: Limits)
    requires UpdateRefusal(s, q, limits).None? && NO_ID !in q.scope.routes && |q.scope.routes| < limits.maxScopeRoutes
    ensures var scope := q.scope.(routes := q.scope.routes + [NO_ID]);
            UpdateRefusal(s, q.(scope := scope), limits).None? && !RequestFits(scope, q.semantics)
  {
    hide Replay, Semantics.FirstDefect, TargetRefusal;
  }

  // So is a commit of a ticket whose proposal the reader does not admit.
  lemma UnfitProposalIsUnreadable(
    s: State, t: Ticket, ctx: Context, fingerprint: Id, minted: Minted, at: Ticks, limits: Limits, now: SaveTimes,
    hash: seq<byte> -> u64)
    requires Keyed(s) && CommitsTicket(s, t, ctx, fingerprint, at, limits) && !ProposalFits(t.verdict.proposal)
    ensures !ReadsBack(CommitStep(s, t, ctx, fingerprint, minted, at, limits).state, now, hash)
  {
    hide ReadsBack, CommitRefusal, VerifyRefusal, Logged, ProposalFits, Armed, Anchored;
    VerifiedHasTarget(s, s.policies[t.dependencies.policy], t.verdict, at, limits);
    var u := CommitStep(s, t, ctx, fingerprint, minted, at, limits).state;
    assert u.policies[t.dependencies.policy].preference.proposal == t.verdict.proposal;
    UnfitIsUnreadable(u, now, hash);
  }
}
