// The identities and texts a run hands to the coordinator are all it ever stores:
// which runs lead to states that can be saved and read back
// (src/persistence.cpp, src/fabric_api.cpp).

module Shapes {
  import opened Base
  import opened Outcomes
  import opened Policy
  import opened Records
  import opened Evaluation
  import opened Indexing
  import opened Durable
  import opened Fabric
  import opened Runs
  import opened Moves
  import opened Invariants
  import opened Saving
  import Codec
  import Fencing
  import IndexAgreement
  import Loading
  import Store
  import StoreFields
  import StoreRecords

  // ------------------------------------------------------------------------
  // What a step is given
  // ------------------------------------------------------------------------

  predicate PathOk(path: Id) { Codec.MaybeIdOk(path, StoreFields.PATH_ID) }

  predicate ContextShaped(ctx: Context)
  {
    && Codec.MaybeIdOk(ctx.publisher, StoreFields.PUBLISHER_ID) && Codec.MaybeIdOk(ctx.boot, StoreFields.BOOT_ID)
    && Codec.MaybeIdOk(ctx.attempt, StoreFields.ATTEMPT_ID)
  }

  predicate MintedShaped(m: Minted)
  {
    && Codec.IdOk(m.decision, StoreFields.DECISION_ID) && Codec.MaybeIdOk(m.transition, StoreFields.TRANSITION_ID)
    && |m.digest| <= StoreRecords.MAX_DETAIL
  }

  predicate TicketShaped(t: Ticket)
  {
    && Codec.MaybeIdOk(t.decision, StoreFields.DECISION_ID) && PathOk(t.verdict.target)
    && (t.verdict.proposal.Some? ==> ShapedProposal(t.verdict.proposal.value))
  }

  predicate NotesShaped(ns: seq<Notification>) { forall i :: 0 <= i < |ns| ==> PathOk(ns[i].binding.path) }

  // Identities have the form and length their types enforce, and may be absent;
  // minted ones are not. Nothing is asked of lists and texts.
  ghost predicate EventShaped(e: Event)
  {
    match e.op
    case Create(q, id) =>
      && Codec.IdOk(id, StoreFields.POLICY_ID) && Codec.MaybeIdOk(q.name, StoreFields.NAME_ID)
      && ContextShaped(q.context) && ShapedScope(q.scope) && ShapedSemantics(q.semantics)
    case Update(q) => ShapedScope(q.scope) && ShapedSemantics(q.semantics)
    case RevokePolicy(_, _, _, ctx) => ContextShaped(ctx)
    case Upstream(notes, _, _) => NotesShaped(notes)
    case Commit(t, ctx, _, minted) => TicketShaped(t) && ContextShaped(ctx) && MintedShaped(minted)
    case Rollback(_, ctx, _, minted) => ContextShaped(ctx) && MintedShaped(minted)
    case _ => true
  }

  // ------------------------------------------------------------------------
  // What a record holds
  // ------------------------------------------------------------------------

  ghost predicate PathsShaped(cs: seq<Candidate>) { forall path :: path in Paths(cs) ==> PathOk(path) }

  ghost predicate HistoryShaped(h: seq<HistoryEntry>) { forall i :: 0 <= i < |h| ==> StoreRecords.HistoryOk(h[i]) }

  // Everything but history and candidates.
  ghost predicate BodyShaped(r: PolicyRecord)
  {
    ShapedPolicy(r.policy) && ShapedPreference(r.preference) && PathOk(r.stable.path) && PathOk(r.timing.lockedPath)
  }

  ghost predicate RecordShaped(r: PolicyRecord)
  {
    BodyShaped(r) && HistoryShaped(r.history) && PathsShaped(r.candidates)
  }

  ghost predicate StateShaped(s: State)
  {
    && (forall p :: p in s.policies ==> Codec.IdOk(p, StoreFields.POLICY_ID) && RecordShaped(s.policies[p]))
    && (forall p :: p in s.revocations ==> ShapedRevocation(s.revocations[p]))
  }

  lemma ShapedIsShaped(s: State)
    requires StateShaped(s)
    ensures Shaped(s)
  {
    hide ShapedPolicy, ShapedPreference, ShapedRevocation, Codec.IdOk, StoreRecords.HistoryOk;
  }

  lemma NothingIsShaped()
    ensures PathOk(NO_ID) && PathsShaped([]) && HistoryShaped([])
  {
  }

  lemma FoundPath(cs: seq<Candidate>, path: Id)
    requires PathsShaped(cs)
    ensures Find(cs, path).Some? ==> PathOk(Find(cs, path).value.binding.path)
  {
    hide PathOk;
  }

  // ------------------------------------------------------------------------
  // Policy, preference, anchor and timers
  // ------------------------------------------------------------------------

  lemma TargetShaped(sem: Semantics)
    requires ShapedSemantics(sem)
    ensures ShapedPreference(NoPreference(sem.target)) && MaybeShaped(sem.target.multipath, StoreFields.SET_ID)
  {
  }

  lemma CommittedShaped(
    r: PolicyRecord, c: Candidate, t: Ticket, ctx: Context, epoch: u64, minted: Minted, now: Ticks, limits: Limits)
    requires BodyShaped(r) && PathOk(c.binding.path) && TicketShaped(t) && ContextShaped(ctx) && MintedShaped(minted)
    requires Next(r.preference.adaptation).Some? && Next(r.preference.transition).Some?
    ensures BodyShaped(Committed(r, c, t, ctx, epoch, minted, now, limits))
  {
    hide ShapedScope, ShapedSemantics, ShapedProposal, Codec.IdOk, ArmedHoldDown, RaisedPenalty;
    TargetShaped(r.policy.semantics);
  }

  lemma RolledBackShaped(
    r: PolicyRecord, c: Candidate, ctx: Context, s: State, minted: Minted, now: Ticks, limits: Limits)
    requires BodyShaped(r) && ContextShaped(ctx) && MintedShaped(minted)
    requires Next(r.preference.adaptation).Some? && Next(r.preference.transition).Some?
    ensures BodyShaped(RolledBack(r, c, ctx, s, minted, now, limits))
  {
    hide ShapedPolicy, Codec.IdOk, ShapedProposal;
  }

  lemma UpdatedShaped(r: PolicyRecord, q: UpdateRequest, epoch: u64, now: Ticks)
    requires BodyShaped(r) && ShapedScope(q.scope) && q.scope.WellFormed() && ShapedSemantics(q.semantics)
    requires Next(r.policy.generation).Some?
    ensures BodyShaped(Updated(r, q, epoch, now))
  {
    hide ShapedScope, ShapedSemantics, PolicyScope.WellFormed, ShapedPreference, NoPreference;
    TargetShaped(q.semantics);
  }

  lemma KeptShaped(id: Id, r: PolicyRecord, r': PolicyRecord, s: State, saved: Ticks, now: Ticks, limits: Limits)
    requires BodyShaped(r)
    ensures BodyShaped(Quiesced(r))
    ensures RestartedRecord(id, r, r', saved, now, limits) ==> BodyShaped(r')
    ensures Quiet(r, r', s.epoch) ==> BodyShaped(r')
  {
    hide ShapedScope, ShapedSemantics, Codec.IdOk, ShapedProposal;
  }

  lemma ChangeShaped(s: State, e: Event, p: Id, t: State, limits: Limits)
    requires Becomes(s, e, p, t, limits) && RecordShaped(s.policies[p]) && EventShaped(e)
    ensures BodyShaped(t.policies[p])
  {
    hide CommitsTicket, RollbackRefusal, RestoreRefusal, UpdateRefusal, RecoveryRefusal, BuildDurable, RestartedRecord,
         Quiet, Quiesced, Updated, Committed, RolledBack, BodyShaped, HistoryShaped, PathsShaped, ShapedScope,
         ShapedSemantics, TicketShaped, ContextShaped, MintedShaped;
    var r := s.policies[p];
    if Commits(s, e, p, limits) {
      CommitHasTarget(s, e, p, limits);
      CommitNext(s, e, p, limits);
      FoundPath(r.candidates, e.op.ticket.verdict.target);
      CommittedShaped(r, Find(r.candidates, e.op.ticket.verdict.target).value, e.op.ticket, e.op.context, s.epoch,
                      e.op.minted, e.now, limits);
    } else if RollsBack(s, e, p) {
      RestoreHasTarget(r);
      RolledBackShaped(r, Find(r.candidates, r.stable.path).value, e.op.context, s, e.op.minted, e.now, limits);
    } else if UpdatesPolicy(s, e, p, limits) {
      UpdateNeedsPolicy(s, e.op.update, limits);
      UpdateChecksScope(s, e.op.update, limits);
      UpdatedShaped(r, e.op.update, s.epoch, e.now);
    } else {
      KeptShaped(p, r, t.policies[p], s, if e.op.Restart? then e.op.saved(p) else 0, e.now, limits);
    }
  }

  lemma UpdateChecksScope(s: State, q: UpdateRequest, limits: Limits)
    ensures UpdateRefusal(s, q, limits).None? ==> q.scope.WellFormed()
  {
    hide ScopeRefusal, Replay, Semantics.FirstDefect;
  }

  lemma CommitNext(s: State, e: Event, p: Id, limits: Limits)
    requires Commits(s, e, p, limits)
    ensures Next(s.policies[p].preference.adaptation).Some? && Next(s.policies[p].preference.transition).Some?
  {
    hide CommitRefusal;
    VerifiedHasTarget(s, s.policies[p], e.op.ticket.verdict, e.now, limits);
  }

  // ------------------------------------------------------------------------
  // History and candidates
  // ------------------------------------------------------------------------

  ghost predicate TailShaped(r: PolicyRecord) { HistoryShaped(r.history) && PathsShaped(r.candidates) }

  ghost predicate TailShapedIn(t: State, p: Id) { p in t.policies ==> TailShaped(t.policies[p]) }

  lemma NotedShaped(r: PolicyRecord, entry: HistoryEntry, limits: Limits)
    requires HistoryShaped(r.history) && StoreRecords.HistoryOk(entry)
    ensures HistoryShaped(Noted(r, entry, limits).history)
  {
    hide StoreRecords.HistoryOk;
  }

  lemma SuppressionShaped(s: State, r: PolicyRecord, t: Ticket, minted: Minted, now: Ticks, limits: Limits)
    requires RecordShaped(r) && TicketShaped(t) && MintedShaped(minted)
    ensures TailShaped(SuppressionNoted(s, r, t, minted, now, limits))
  {
    hide HistoryShaped, PathsShaped, Codec.IdOk, Noted;
    var decision := if ValidId(t.decision) then t.decision else minted.decision;
    NotedShaped(r, HistoryEntry(decision, SUPPRESSED_DECISION, t.verdict.outcome, t.verdict.suppression,
                                TRIGGER_SATISFIED, r.preference.preferred, t.verdict.target, r.preference.adaptation,
                                s.evidenceGeneration, s.epoch, now, minted.digest), limits);
    NotedKeeps(r, limits);
  }

  lemma NotedKeeps(r: PolicyRecord, limits: Limits)
    ensures forall entry :: Noted(r, entry, limits).candidates == r.candidates
  {
  }

  lemma CommittedTail(
    r: PolicyRecord, c: Candidate, t: Ticket, ctx: Context, epoch: u64, minted: Minted, now: Ticks, limits: Limits)
    requires RecordShaped(r) && PathOk(c.binding.path) && TicketShaped(t) && MintedShaped(minted)
    requires Next(r.preference.adaptation).Some? && Next(r.preference.transition).Some?
    ensures TailShaped(Committed(r, c, t, ctx, epoch, minted, now, limits))
  {
    hide ShapedPolicy, PathsShaped, Codec.IdOk, Armed, ShapedProposal;
  }

  lemma RolledBackTail(
    r: PolicyRecord, c: Candidate, ctx: Context, s: State, minted: Minted, now: Ticks, limits: Limits)
    requires RecordShaped(r) && MintedShaped(minted)
    requires Next(r.preference.adaptation).Some? && Next(r.preference.transition).Some?
    ensures TailShaped(RolledBack(r, c, ctx, s, minted, now, limits))
  {
    hide ShapedPolicy, PathsShaped, Codec.IdOk, ShapedProposal;
  }

  lemma CommitTail(s: State, t: Ticket, ctx: Context, fingerprint: Id, minted: Minted, now: Ticks, limits: Limits,
                   p: Id)
    requires p in s.policies && RecordShaped(s.policies[p]) && TicketShaped(t) && MintedShaped(minted)
    ensures TailShapedIn(CommitStep(s, t, ctx, fingerprint, minted, now, limits).state, p)
  {
    hide CommitRefusal, VerifyRefusal, Logged, AsksForMove, Committed, SuppressionNoted, TicketShaped, MintedShaped,
         BodyShaped, HistoryShaped, PathsShaped, PathOk;
    CommitNeedsPolicy(s, t, ctx, fingerprint);
    if CommitRefusal(s, t, ctx, fingerprint).None? && t.dependencies.policy == p {
      var r := s.policies[p];
      SuppressionShaped(s, r, t, minted, now, limits);
      VerifiedHasTarget(s, r, t.verdict, now, limits);
      if VerifyRefusal(s, r, t.verdict, now, limits).None? {
        FoundPath(r.candidates, t.verdict.target);
        CommittedTail(r, Find(r.candidates, t.verdict.target).value, t, ctx, s.epoch, minted, now, limits);
      }
    }
  }

  lemma RollbackTail(s: State, q: Id, ctx: Context, fingerprint: Id, minted: Minted, now: Ticks, limits: Limits, p: Id)
    requires p in s.policies && RecordShaped(s.policies[p]) && MintedShaped(minted)
    ensures TailShapedIn(RollbackStep(s, q, ctx, fingerprint, minted, now, limits).state, p)
  {
    hide RollbackRefusal, RestoreRefusal, Logged, RolledBack, MintedShaped, BodyShaped, HistoryShaped, PathsShaped;
    RollbackNeedsPolicy(s, q, ctx, fingerprint);
    if RollbackRefusal(s, q, ctx, fingerprint).None? && q == p {
      var r := s.policies[p];
      RestoreHasTarget(r);
      if RestoreRefusal(r).None? {
        RolledBackTail(r, Find(r.candidates, r.stable.path).value, ctx, s, minted, now, limits);
      }
    }
  }

  // --- notifications ------------------------------------------------------

  lemma BoundPaths(s: State, n: Notification, limits: Limits, p: Id)
    requires n.policy in s.policies && p in s.policies
    ensures p in Bound(s, n, limits).policies
    ensures Paths(Bound(s, n, limits).policies[p].candidates) <= Paths(s.policies[p].candidates) + {n.binding.path}
  {
    hide Rebound, Inserted, IndexedWith, Paths;
    var cs := s.policies[n.policy].candidates;
    var found := Find(cs, n.binding.path);
    IndexAgreement.FoundPosition(cs, n.binding.path);
    InsertedPaths(cs, Candidate(n.binding, 0));
    if found.Some? {
      Fencing.ReboundKeepsPath(found.value.binding, n);
      IndexAgreement.ReplacedPaths(cs, found.value.(binding := Rebound(found.value.binding, n)));
    }
  }

  lemma InvalidatedPaths(s: State, path: Id, p: Id)
    requires p in s.policies
    ensures p in Invalidated(s, path).policies
    ensures Paths(Invalidated(s, path).policies[p].candidates) == Paths(s.policies[p].candidates)
  {
    hide Paths;
    IndexAgreement.InvalidatedUnindexing(s, path);
  }

  lemma NotePaths(s: State, n: Notification, ctx: Context, limits: Limits, p: Id)
    requires p in s.policies && PathsShaped(s.policies[p].candidates) && PathOk(n.binding.path)
    ensures var t := NoteStep(s, n, ctx, limits).state; p in t.policies && PathsShaped(t.policies[p].candidates)
  {
    hide NoteRefusal, EventRefusal, Bound, Invalidated, Paths, PathOk;
    NoteNeedsPolicy(s, n, ctx);
    if NoteRefusal(s, n, ctx).None? {
      BoundPaths(s, n, limits, p);
      InvalidatedPaths(Bound(s, n, limits), n.binding.path, p);
    }
  }

  lemma {:induction false} NotesPaths(s: State, ns: seq<Notification>, ctx: Context, limits: Limits, p: Id)
    requires p in s.policies && PathsShaped(s.policies[p].candidates) && NotesShaped(ns)
    ensures var t := NotesStep(s, ns, ctx, limits).state; p in t.policies && PathsShaped(t.policies[p].candidates)
    decreases |ns|
  {
    hide NoteStep, PathsShaped, PathOk;
    if ns != [] {
      NotePaths(s, ns[0], ctx, limits, p);
      if NoteStep(s, ns[0], ctx, limits).outcome == POLICY_UPDATED {
        NotesPaths(NoteStep(s, ns[0], ctx, limits).state, ns[1..], ctx, limits, p);
      }
    }
  }

  lemma UpstreamTail(s: State, ns: seq<Notification>, ctx: Context, fingerprint: Id, limits: Limits, p: Id)
    requires p in s.policies && TailShaped(s.policies[p]) && NotesShaped(ns)
    ensures TailShapedIn(UpstreamStep(s, ns, ctx, fingerprint, limits).state, p)
  {
    hide NotesStep, Recorded, UpstreamRefusal, PathsShaped, HistoryShaped, NotesShaped;
    NotesPaths(s, ns, ctx, limits, p);
    NotesMoveCandidates(s, ns, ctx, limits, p);
    RecordedKeepsPolicies(NotesStep(s, ns, ctx, limits).state, ctx.attempt, fingerprint, POLICY_UPDATED, limits);
  }

  // --- recovery -----------------------------------------------------------

  lemma {:induction false} RestoredHistory(r: PolicyRecord, items: seq<DurableHistory>, id: Id, bound: nat)
    requires HistoryShaped(r.history) && forall i :: 0 <= i < |items| ==> StoreRecords.HistoryOk(items[i].entry)
    ensures HistoryShaped(FoldFor(r, items, id, HistoryKey, PutHistory(bound)).history)
    decreases |items|
  {
    hide StoreRecords.HistoryOk;
    if items != [] {
      RestoredHistory(r, items[..|items| - 1], id, bound);
    }
  }

  lemma SavedHistoryShaped(s: State, now: SaveTimes)
    requires Keyed(s) && forall p :: p in s.policies ==> HistoryShaped(s.policies[p].history)
    ensures var h := Stripped(BuildDurable(s, now)).history;
            forall i :: 0 <= i < |h| ==> StoreRecords.HistoryOk(h[i].entry)
  {
    hide SavedTiming, AllHistory, InOrderOf;
    var ids := InOrderOf(s.policies.Keys);
    var all := AllHistory(s.policies, ids);
    SavedParts(s, now);
    HistoryMembers(s.policies, ids);
    forall i | 0 <= i < |all|
      ensures StoreRecords.HistoryOk(all[i].entry)
    {
      assert all[i] in all;
      var j :| 0 <= j < |s.policies[all[i].policy].history| && s.policies[all[i].policy].history[j] == all[i].entry;
    }
  }

  lemma RecoveredTail(d: DurableState, now: Ticks, limits: Limits, p: Id)
    requires p in RestorePolicies(d.policies, limits.conservativeRecovery)
    requires forall i :: 0 <= i < |d.history| ==> StoreRecords.HistoryOk(d.history[i].entry)
    ensures p in RestoredRecords(d, now, limits) && HistoryShaped(RestoredRecords(d, now, limits)[p].history)
  {
    hide RestoredRecords, StoreRecords.HistoryOk, RestorePolicies;
    var base := RestorePolicies(d.policies, limits.conservativeRecovery)[p];
    RestoredBare(d.policies, limits.conservativeRecovery, p);
    SectionsAt(d, now, limits, p);
    Loading.PreferencesKept(base, d.preferences, p);
    var preferred := FoldFor(base, d.preferences, p, PreferenceKey, PutPreference);
    Loading.StablesKept(preferred, d.stables, p);
    var stable := FoldFor(preferred, d.stables, p, StableKey, PutStable);
    Loading.TimingsKept(stable, d.timings, p, now);
    var timed := FoldFor(stable, d.timings, p, TimingKey, PutTiming(now));
    FoldKeepsAllBut(timed, d.history, d.revocations, p, limits.maxHistory);
    RestoredHistory(FoldFor(timed, d.revocations, p, RevocationKey, PutRevocation), d.history, p, limits.maxHistory);
  }

  lemma {:induction false} RestoredBare(ps: seq<AdaptivePolicy>, conservative: bool, p: Id)
    requires p in RestorePolicies(ps, conservative)
    ensures var r := RestorePolicies(ps, conservative)[p]; r.history == [] && r.stable == NO_STABLE
    decreases |ps|
  {
    if p in RestorePolicies(ps[..|ps| - 1], conservative) {
      RestoredBare(ps[..|ps| - 1], conservative, p);
    }
  }

  lemma RestartTail(s: State, saved: SaveTimes, now: Ticks, limits: Limits, p: Id)
    requires Keyed(s) && p in s.policies && forall q :: q in s.policies ==> TailShaped(s.policies[q])
    ensures TailShapedIn(RestartStep(s, saved, now, limits).state, p)
  {
    hide BuildDurable, RestoredRecords, Recovered, RecoveryRefusal, HistoryShaped, StoreRecords.HistoryOk,
         RestorePolicies;
    var d := Stripped(BuildDurable(s, saved));
    if RecoveryRefusal(d, limits).None? {
      RecoveredFacts(d, now, limits);
      RestartAt(s, saved, now, limits, p);
      NothingIsShaped();
      SavedHistoryShaped(s, saved);
      Loading.RestoredNames(d, now, limits);
      RecoveredTail(d, now, limits, p);
    }
  }

  // --- labels and epochs --------------------------------------------------

  ghost predicate SameTail(r: PolicyRecord, r': PolicyRecord)
  {
    r'.history == r.history && r'.candidates == r.candidates
  }

  lemma TransitionTail(s: State, policy: Id, event: LifecycleEvent, ctx: Context, p: Id)
    requires p in s.policies
    ensures var t := TransitionStep(s, policy, event, ctx).state;
            p in t.policies && SameTail(s.policies[p], t.policies[p])
  {
    hide TargetRefusal, NextLifecycle, LegallyUsable;
  }

  lemma RevokeTail(s: State, policy: Id, reason: RevocationReason, detail: seq<byte>, ctx: Context, limits: Limits,
                   p: Id)
    requires p in s.policies
    ensures var t := RevokeStep(s, policy, reason, detail, ctx, limits).state;
            p in t.policies && SameTail(s.policies[p], t.policies[p])
  {
    hide TargetRefusal;
  }

  lemma AdvanceTail(s: State, p: Id)
    requires p in s.policies
    ensures var t := AdvanceEpochStep(s).state; p in t.policies && SameTail(s.policies[p], t.policies[p])
  {
  }

  lemma UpdateTail(s: State, q: UpdateRequest, now: Ticks, limits: Limits, p: Id)
    requires p in s.policies && TailShaped(s.policies[p])
    ensures TailShapedIn(UpdateStep(s, q, now, limits).state, p)
  {
    hide UpdateStep, UpdateRefusal, HistoryShaped;
    UpdatePolicies(s, q, now, limits);
    NothingIsShaped();
  }

  lemma StepTail(s: State, e: Event, p: Id, limits: Limits)
    requires Keyed(s) && StateShaped(s) && p in s.policies && EventShaped(e)
    ensures TailShapedIn(After(s, e, limits), p)
  {
    hide RegisterStep, FenceStep, AdvanceEpochStep, CreateStep, UpdateStep, TransitionStep, RevokeStep, UpstreamStep,
         PublishStep, CommitStep, RollbackStep, RestartStep, BodyShaped, HistoryShaped, PathsShaped, ShapedRevocation,
         TicketShaped, MintedShaped, NotesShaped, Codec.IdOk;
    match e.op
    case Register(publisher, boot, scope, session) => RegisterKeeps(s, publisher, boot, scope, session, limits);
    case FencePublisher(publisher, boot) => FenceKeeps(s, publisher, boot);
    case AdvanceEpoch => AdvanceTail(s, p);
    case Create(q, id) => CreateKeeps(s, q, id, e.now, limits, p);
    case Update(q) => UpdateTail(s, q, e.now, limits, p);
    case Transition(policy, event, ctx) => TransitionTail(s, policy, event, ctx, p);
    case RevokePolicy(policy, reason, detail, ctx) => RevokeTail(s, policy, reason, detail, ctx, limits, p);
    case Upstream(notes, ctx, fingerprint) => UpstreamTail(s, notes, ctx, fingerprint, limits, p);
    case Publish(batch, ctx, fingerprint) => PublishKeeps(s, batch, ctx, fingerprint, limits);
    case Commit(t, ctx, fingerprint, minted) => CommitTail(s, t, ctx, fingerprint, minted, e.now, limits, p);
    case Rollback(q, ctx, fingerprint, minted) => RollbackTail(s, q, ctx, fingerprint, minted, e.now, limits, p);
    case Restart(saved) => RestartTail(s, saved, e.now, limits, p);
  }

  // ------------------------------------------------------------------------
  // Whole states
  // ------------------------------------------------------------------------

  ghost predicate ShapedAt(t: State, p: Id)
  {
    p in t.policies ==> Codec.IdOk(p, StoreFields.POLICY_ID) && RecordShaped(t.policies[p])
  }

  // What creation and revocation check of identities.
  lemma CallerIsNamed(s: State, ctx: Context, target: Target)
    ensures TargetRefusal(s, ctx, target).None? ==> ValidId(ctx.publisher)
  {
  }

  lemma CreateChecks(s: State, q: CreateRequest, limits: Limits)
    ensures CreateRefusal(s, q, limits).None? ==>
              ValidId(q.name) && q.scope.WellFormed() && ValidId(q.context.publisher)
  {
    hide TargetRefusal, Replay, Semantics.FirstDefect;
    CallerIsNamed(s, q.context, q.semantics.target);
  }

  lemma CreatedIsChecked(s: State, q: CreateRequest, id: Id, now: Ticks, limits: Limits)
    ensures id !in s.policies && id in CreateStep(s, q, id, now, limits).state.policies ==>
              CreateRefusal(s, q, limits).None?
  {
    hide CreateRefusal, Logged, IndexedWith;
  }

  lemma NewShaped(s: State, q: CreateRequest, id: Id, now: Ticks, limits: Limits)
    requires Codec.MaybeIdOk(q.name, StoreFields.NAME_ID) && ContextShaped(q.context) && ShapedScope(q.scope)
    requires ShapedSemantics(q.semantics) && CreateRefusal(s, q, limits).None?
    ensures RecordShaped(NewRecord(NewPolicy(s, q, id, now)))
  {
    hide ShapedScope, ShapedSemantics, PolicyScope.WellFormed, CreateRefusal, Codec.IdOk;
    CreateChecks(s, q, limits);
    NothingIsShaped();
    TargetShaped(q.semantics);
  }

  lemma StepRecordShaped(s: State, e: Event, p: Id, limits: Limits)
    requires Keyed(s) && StateShaped(s) && EventShaped(e)
    ensures ShapedAt(After(s, e, limits), p)
  {
    hide RegisterStep, FenceStep, AdvanceEpochStep, CreateStep, UpdateStep, TransitionStep, RevokeStep, UpstreamStep,
         PublishStep, CommitStep, RollbackStep, RestartStep, Change, BodyShaped, HistoryShaped, PathsShaped,
         ShapedRevocation, TicketShaped, MintedShaped, NotesShaped, Codec.IdOk, ShapedScope,
         ShapedSemantics;
    if p in s.policies {
      Evolution(s, e, p, limits);
      ChangeShaped(s, e, p, After(s, e, limits), limits);
      StepTail(s, e, p, limits);
    } else {
      StepKeys(s, e, limits);
      if e.op.Create? && p in After(s, e, limits).policies {
        CreatedRecord(s, e.op.creation, p, e.now, limits);
        CreatedIsChecked(s, e.op.creation, p, e.now, limits);
        NewShaped(s, e.op.creation, p, e.now, limits);
      }
    }
  }

  ghost predicate RevocationsShaped(m: map<Id, Revocation>) { forall p :: p in m ==> ShapedRevocation(m[p]) }

  lemma RevokeShaped(s: State, policy: Id, reason: RevocationReason, detail: seq<byte>, ctx: Context, limits: Limits)
    requires StateShaped(s) && ContextShaped(ctx)
    ensures RevocationsShaped(RevokeStep(s, policy, reason, detail, ctx, limits).state.revocations)
  {
    hide TargetRefusal, Relabelled, RecordShaped, Codec.IdOk;
    if policy in s.policies {
      CallerIsNamed(s, ctx, s.policies[policy].policy.semantics.target);
    }
  }

  lemma RestartRevocationsShaped(s: State, saved: SaveTimes, now: Ticks, limits: Limits)
    requires RevocationsShaped(s.revocations)
    ensures RevocationsShaped(RestartStep(s, saved, now, limits).state.revocations)
  {
    hide RestoredRecords, RestoreNames, Reindexed, RecoveryRefusal, AllHistory, SavedTiming, ShapedRevocation;
    var d := Stripped(BuildDurable(s, saved));
    if RecoveryRefusal(d, limits).None? {
      var records := RestoredRecords(d, now, limits);
      ReindexKeeps(Bare(d, now, limits), InOrderOf(records.Keys), limits);
      RestoredRevocations(d.revocations, records.Keys);
    }
  }

  lemma StepRevocationsShaped(s: State, e: Event, limits: Limits)
    requires StateShaped(s) && EventShaped(e)
    ensures RevocationsShaped(After(s, e, limits).revocations)
  {
    hide RegisterStep, FenceStep, CreateStep, UpdateStep, TransitionStep, RevokeStep, UpstreamStep, PublishStep,
         CommitStep, RollbackStep, RestartStep, RecordShaped, ShapedRevocation, TicketShaped, MintedShaped, NotesShaped,
         Codec.IdOk, ShapedScope, ShapedSemantics;
    match e.op
    case Register(publisher, boot, scope, session) => RegisterKeeps(s, publisher, boot, scope, session, limits);
    case FencePublisher(publisher, boot) => FenceKeeps(s, publisher, boot);
    case AdvanceEpoch =>
    case Create(q, id) => Fencing.CreateCounters(s, q, id, e.now, limits);
    case Update(q) => Fencing.UpdateCounters(s, q, e.now, limits);
    case Transition(_, _, _) => Fencing.LabelCounters(s, e, limits);
    case RevokePolicy(policy, reason, detail, ctx) => RevokeShaped(s, policy, reason, detail, ctx, limits);
    case Upstream(notes, ctx, fingerprint) => Fencing.UpstreamCounters(s, notes, ctx, fingerprint, limits);
    case Publish(batch, ctx, fingerprint) => PublishKeeps(s, batch, ctx, fingerprint, limits);
    case Commit(t, ctx, fingerprint, minted) => Fencing.CommitCounters(s, t, ctx, fingerprint, minted, e.now, limits);
    case Rollback(p, ctx, fingerprint, minted) =>
      Fencing.RollbackCounters(s, p, ctx, fingerprint, minted, e.now, limits);
    case Restart(saved) => RestartRevocationsShaped(s, saved, e.now, limits);
  }

  lemma StepShaped(s: State, e: Event, limits: Limits)
    requires Keyed(s) && StateShaped(s) && EventShaped(e)
    ensures StateShaped(After(s, e, limits))
  {
    hide After, RecordShaped, ShapedRevocation, EventShaped, Keyed, Codec.IdOk;
    StepRevocationsShaped(s, e, limits);
    var t := After(s, e, limits);
    forall p | p in t.policies
      ensures Codec.IdOk(p, StoreFields.POLICY_ID) && RecordShaped(t.policies[p])
    {
      StepRecordShaped(s, e, p, limits);
    }
  }

  ghost predicate EventsShaped(es: seq<Event>) { forall i :: 0 <= i < |es| ==> EventShaped(es[i]) }

  // Along every run, the coordinator holds nothing but what it was given in
  // proper form.
  lemma {:induction false} ExecShaped(s: State, es: seq<Event>, limits: Limits)
    requires Keyed(s) && StateShaped(s) && EventsShaped(es)
    ensures StateShaped(Exec(s, es, limits))
    decreases |es|
  {
    hide After, StateShaped, EventShaped, Keyed;
    if es != [] {
      StepShaped(s, es[0], limits);
      KeyedStep(s, es[0], limits);
      ExecShaped(After(s, es[0], limits), es[1..], limits);
    }
  }

  // Any state a run from the beginning reaches can be saved and read back exactly
  // when no policy carries more churn stamps or a higher penalty than the reader
  // admits, no section has more records than it admits, lists, proposals and
  // texts fit it, and the store is not too large.
  lemma ReachableStateReadsBack(es: seq<Event>, now: SaveTimes, limits: Limits, hash: seq<byte> -> u64)
    requires EventsShaped(es)
    ensures var s := Exec(INITIAL_STATE, es, limits);
            var d := BuildDurable(s, now);
            Store.Decode(Store.Encode(d, hash), hash) == Codec.Got(Stripped(d), [])
            <==> TimersFit(s) && SectionsFit(s) && ListsFit(s) && |Store.Encode(d, hash)| <= Store.MAX_STORE
  {
    hide After, Exec, TimersFit, SectionsFit, ListsFit, BuildDurable, Store.Encode, Store.Decode, EventsShaped, StateOk,
         Savable, StateShaped, Shaped;
    InitialIsSavable();
    InitialIsShaped();
    ExecSavable(INITIAL_STATE, es, limits);
    ExecShaped(INITIAL_STATE, es, limits);
    ShapedIsShaped(Exec(INITIAL_STATE, es, limits));
    ShapedStateReadsBack(Exec(INITIAL_STATE, es, limits), now, hash);
  }

  lemma InitialIsShaped()
    ensures StateShaped(INITIAL_STATE) && Keyed(INITIAL_STATE)
  {
  }
}
