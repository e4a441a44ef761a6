// What a reachable state can be saved as, and when the store can be read again.

module Saving {
  import opened Base
  import opened Outcomes
  import opened Policy
  import opened Records
  import opened Evaluation
  import opened Indexing
  import opened Durable
  import opened Fabric
  import opened Runs
  import opened Moves
  import opened Invariants
  import Fencing
  import Codec
  import StoreFields
  import StoreRecords
  import Store

  // ------------------------------------------------------------------------
  // What every run keeps for the store
  // ------------------------------------------------------------------------

  // Every generation is set, and the preference is for the policy's target.
  ghost predicate Accountable(r: PolicyRecord)
  {
    && r.policy.generation != 0 && r.policy.epoch != 0 && r.policy.authorityGeneration != 0
    && r.preference.route == r.policy.semantics.target.route
    && (r.preference.established ==> r.preference.authorityGeneration != 0)
    && (r.stable.established ==> r.stable.authorityGeneration != 0)
  }

  ghost predicate CountersSet(s: State) { s.epoch != 0 && s.authorityGeneration != 0 && s.evidenceGeneration != 0 }

  ghost predicate RevocationsSet(m: map<Id, Revocation>)
  {
    forall id :: id in m ==> m[id].generation != 0 && m[id].authorityGeneration != 0 && m[id].epoch != 0
  }

  ghost predicate Savable(s: State)
  {
    CountersSet(s) && RevocationsSet(s.revocations) && forall p :: p in s.policies ==> Accountable(s.policies[p])
  }

  lemma TargetHasAuthority(r: PolicyRecord, path: Id)
    requires BindingsOk(r.candidates, r.policy.semantics.target)
    ensures Find(r.candidates, path).Some? ==> Find(r.candidates, path).value.binding.authority.generation != 0
  {
  }

  lemma ChangeAccounts(s: State, e: Event, p: Id, t: State, limits: Limits)
    requires Becomes(s, e, p, t, limits) && PolicyOk(s.policies[p]) && Accountable(s.policies[p]) && s.epoch != 0
    ensures Accountable(t.policies[p])
  {
    hide CommitsTicket, RollbackRefusal, RestoreRefusal, UpdateRefusal, RecoveryRefusal, BuildDurable, RestoredTiming,
         SavedTiming, Armed;
    if Commits(s, e, p, limits) {
      CommitHasTarget(s, e, p, limits);
      TargetHasAuthority(s.policies[p], e.op.ticket.verdict.target);
    } else if RollsBack(s, e, p) {
      RestoreHasTarget(s.policies[p]);
      TargetHasAuthority(s.policies[p], s.policies[p].stable.path);
    } else if UpdatesPolicy(s, e, p, limits) {
      UpdateNeedsPolicy(s, e.op.update, limits);
    }
  }

  lemma CommitHasTarget(s: State, e: Event, p: Id, limits: Limits)
    requires Commits(s, e, p, limits)
    ensures Find(s.policies[p].candidates, e.op.ticket.verdict.target).Some?
  {
    hide CommitRefusal;
    VerifiedHasTarget(s, s.policies[p], e.op.ticket.verdict, e.now, limits);
  }

  lemma CreatedAccounts(s: State, q: CreateRequest, id: Id, now: Ticks, limits: Limits)
    requires CountersSet(s)
    ensures Accountable(NewRecord(NewPolicy(s, q, id, now)))
  {
  }

  ghost predicate AccountableIn(t: State, p: Id) { p in t.policies ==> Accountable(t.policies[p]) }

  lemma StepAccounts(s: State, e: Event, p: Id, limits: Limits)
    requires StateOk(s) && Savable(s)
    ensures AccountableIn(After(s, e, limits), p)
  {
    hide RegisterStep, FenceStep, AdvanceEpochStep, CreateStep, UpdateStep, TransitionStep, RevokeStep, UpstreamStep,
         PublishStep, CommitStep, RollbackStep, RestartStep, PolicyOk, Change, Accountable;
    if p in s.policies {
      Evolution(s, e, p, limits);
      ChangeAccounts(s, e, p, After(s, e, limits), limits);
    } else {
      StepKeys(s, e, limits);
      if e.op.Create? {
        CreatedRecord(s, e.op.creation, p, e.now, limits);
        CreatedAccounts(s, e.op.creation, p, e.now, limits);
      }
    }
  }

  lemma StepSetsCounters(s: State, e: Event, limits: Limits)
    requires CountersSet(s)
    ensures CountersSet(After(s, e, limits))
  {
    hide RegisterStep, FenceStep, CreateStep, UpdateStep, TransitionStep, RevokeStep, UpstreamStep, PublishStep,
         CommitStep, RollbackStep, Recovered, BuildDurable, RecoveryRefusal;
    Fencing.StepCounters(s, e, limits);
    match e.op
    case Publish(batch, ctx, fingerprint) => PublishKeeps(s, batch, ctx, fingerprint, limits);
    case Restart(saved) =>
      if Restarts(s, e, limits) {
        RecoveredFacts(Stripped(BuildDurable(s, saved)), e.now, limits);
      }
    case _ =>
  }

  lemma {:induction false} RestoredRevocations(rs: seq<Revocation>, policies: set<Id>)
    ensures forall id :: id in RestoreRevocations(rs, policies) ==> RestoreRevocations(rs, policies)[id] in rs
  {
    if rs != [] {
      RestoredRevocations(rs[..|rs| - 1], policies);
    }
  }

  lemma RestartRevocations(s: State, saved: SaveTimes, now: Ticks, limits: Limits)
    requires RevocationsSet(s.revocations)
    ensures RevocationsSet(RestartStep(s, saved, now, limits).state.revocations)
  {
    hide RestoredRecords, RestoreNames, Reindexed, RecoveryRefusal, AllHistory, SavedTiming;
    var d := Stripped(BuildDurable(s, saved));
    if RecoveryRefusal(d, limits).None? {
      var records := RestoredRecords(d, now, limits);
      ReindexKeeps(Bare(d, now, limits), InOrderOf(records.Keys), limits);
      RestoredRevocations(d.revocations, records.Keys);
    }
  }

  lemma RevokeRevocations(
    s: State, policy: Id, reason: RevocationReason, detail: seq<byte>, ctx: Context, limits: Limits)
    requires Savable(s)
    ensures RevocationsSet(RevokeStep(s, policy, reason, detail, ctx, limits).state.revocations)
  {
    hide TargetRefusal, Relabelled;
  }

  lemma StepSetsRevocations(s: State, e: Event, limits: Limits)
    requires Savable(s)
    ensures RevocationsSet(After(s, e, limits).revocations)
  {
    hide RegisterStep, FenceStep, CreateStep, UpdateStep, TransitionStep, RevokeStep, UpstreamStep, PublishStep,
         CommitStep, RollbackStep, RestartStep, Accountable;
    match e.op
    case Register(publisher, boot, scope, session) => RegisterKeeps(s, publisher, boot, scope, session, limits);
    case FencePublisher(publisher, boot) => FenceKeeps(s, publisher, boot);
    case AdvanceEpoch =>
    case Create(q, id) => Fencing.CreateCounters(s, q, id, e.now, limits);
    case Update(q) => Fencing.UpdateCounters(s, q, e.now, limits);
    case Transition(_, _, _) => Fencing.LabelCounters(s, e, limits);
    case RevokePolicy(policy, reason, detail, ctx) => RevokeRevocations(s, policy, reason, detail, ctx, limits);
    case Upstream(notes, ctx, fingerprint) => Fencing.UpstreamCounters(s, notes, ctx, fingerprint, limits);
    case Publish(batch, ctx, fingerprint) => PublishKeeps(s, batch, ctx, fingerprint, limits);
    case Commit(t, ctx, fingerprint, minted) => Fencing.CommitCounters(s, t, ctx, fingerprint, minted, e.now, limits);
    case Rollback(p, ctx, fingerprint, minted) =>
      Fencing.RollbackCounters(s, p, ctx, fingerprint, minted, e.now, limits);
    case Restart(saved) => RestartRevocations(s, saved, e.now, limits);
  }

  lemma StepSavable(s: State, e: Event, limits: Limits)
    requires StateOk(s) && Savable(s)
    ensures Savable(After(s, e, limits))
  {
    hide After, Accountable, CountersSet, RevocationsSet, StateOk;
    StepSetsCounters(s, e, limits);
    StepSetsRevocations(s, e, limits);
    var t := After(s, e, limits);
    forall p | p in t.policies
      ensures Accountable(t.policies[p])
    {
      StepAccounts(s, e, p, limits);
    }
  }

  lemma {:induction false} ExecSavable(s: State, es: seq<Event>, limits: Limits)
    requires StateOk(s) && Savable(s)
    ensures Savable(Exec(s, es, limits)) && StateOk(Exec(s, es, limits))
    decreases |es|
  {
    hide After, StateOk, Savable;
    if es != [] {
      StepOk(s, es[0], limits);
      StepSavable(s, es[0], limits);
      ExecSavable(After(s, es[0], limits), es[1..], limits);
    }
  }

  // ------------------------------------------------------------------------
  // When a saved state can be read
  // ------------------------------------------------------------------------

  // An identity is absent or has the form and length of its type.
  predicate AllShaped(ids: seq<Id>, maxLength: nat)
  {
    forall i :: 0 <= i < |ids| ==> Codec.MaybeIdOk(ids[i], maxLength)
  }

  predicate MaybeShaped(id: Option<Id>, maxLength: nat) { id.Some? ==> Codec.MaybeIdOk(id.value, maxLength) }

  predicate ShapedScope(x: PolicyScope)
  {
    && Codec.MaybeIdOk(x.fabric, StoreFields.FABRIC_ID) && Codec.MaybeIdOk(x.namespace, StoreFields.NAMESPACE_ID)
    && MaybeShaped(x.site, StoreFields.SITE_ID) && Codec.MaybeIdOk(x.pathClass, StoreFields.CLASS_ID)
    && AllShaped(x.routes, StoreFields.ROUTE_ID) && AllShaped(x.sets, StoreFields.SET_ID)
  }

  predicate ShapedSemantics(x: Semantics)
  {
    && Codec.MaybeIdOk(x.target.route, StoreFields.ROUTE_ID) && MaybeShaped(x.target.multipath, StoreFields.SET_ID)
    && forall i :: 0 <= i < |x.priorities| ==> Codec.MaybeIdOk(x.priorities[i].path, StoreFields.PATH_ID)
  }

  predicate ShapedProposal(x: WeightProposal)
  {
    && Codec.MaybeIdOk(x.set_, StoreFields.SET_ID)
    && forall i :: 0 <= i < |x.weights| ==> Codec.MaybeIdOk(x.weights[i].path, StoreFields.PATH_ID)
  }

  ghost predicate ShapedPolicy(p: AdaptivePolicy)
  {
    && Codec.IdOk(p.name, StoreFields.NAME_ID) && Codec.IdOk(p.owner, StoreFields.PUBLISHER_ID)
    && ShapedScope(p.scope) && p.scope.WellFormed() && ShapedSemantics(p.semantics)
  }

  ghost predicate ShapedPreference(p: Preference)
  {
    && MaybeShaped(p.multipath, StoreFields.SET_ID)
    && Codec.MaybeIdOk(p.preferred, StoreFields.PATH_ID) && Codec.MaybeIdOk(p.previous, StoreFields.PATH_ID)
    && Codec.MaybeIdOk(p.transitionId, StoreFields.TRANSITION_ID)
    && Codec.MaybeIdOk(p.decision, StoreFields.DECISION_ID)
    && (p.proposal.Some? ==> ShapedProposal(p.proposal.value)) && StoreRecords.ProvenanceOk(p.provenance)
  }

  ghost predicate ShapedRecord(r: PolicyRecord)
  {
    && ShapedPolicy(r.policy) && ShapedPreference(r.preference)
    && Codec.MaybeIdOk(r.stable.path, StoreFields.PATH_ID) && Codec.MaybeIdOk(r.timing.lockedPath, StoreFields.PATH_ID)
    && forall i :: 0 <= i < |r.history| ==> StoreRecords.HistoryOk(r.history[i])
  }

  ghost predicate ShapedRevocation(r: Revocation)
  {
    Codec.IdOk(r.policy, StoreFields.POLICY_ID) && Codec.IdOk(r.publisher, StoreFields.PUBLISHER_ID)
  }

  // What the coordinator took over from its callers has the form its types
  // enforce. That bounds neither a list nor a text, and lets an identity inside a
  // list or an option be absent.
  ghost predicate Shaped(s: State)
  {
    && (forall p :: p in s.policies ==> Codec.IdOk(p, StoreFields.POLICY_ID) && ShapedRecord(s.policies[p]))
    && (forall p :: p in s.revocations ==> ShapedRevocation(s.revocations[p]))
  }

  // ------------------------------------------------------------------------
  // What the reader admits beyond that
  // ------------------------------------------------------------------------

  predicate ScopeFits(x: PolicyScope)
  {
    && |x.routes| <= StoreFields.MAX_SCOPE_ENTRIES && |x.sets| <= StoreFields.MAX_SCOPE_ENTRIES
    && NO_ID !in x.routes && NO_ID !in x.sets && x.site != Some(NO_ID)
  }

  predicate SemanticsFit(x: Semantics)
  {
    && x.target.multipath != Some(NO_ID)
    && |x.thresholds| <= StoreFields.MAX_THRESHOLDS && |x.improvements| <= StoreFields.MAX_TERMS
    && |x.evidence| <= StoreFields.MAX_REQUIREMENTS && |x.objective.terms| <= StoreFields.MAX_TERMS
    && |x.priorities| <= StoreFields.MAX_CANDIDATES
  }

  predicate ProposalFits(x: Option<WeightProposal>)
  {
    x.Some? ==> x.value.WellFormed() && |x.value.weights| <= StoreFields.MAX_CANDIDATES
  }

  predicate RecordFits(r: PolicyRecord)
  {
    && ScopeFits(r.policy.scope) && SemanticsFit(r.policy.semantics)
    && r.preference.multipath != Some(NO_ID) && ProposalFits(r.preference.proposal)
  }

  predicate DetailFits(r: Revocation) { |r.detail| <= StoreRecords.MAX_DETAIL }

  // Lists and texts are within the bounds of the reader, and no identity is
  // absent inside a list or an option.
  ghost predicate ListsFit(s: State)
  {
    && (forall p :: p in s.policies ==> RecordFits(s.policies[p]))
    && (forall p :: p in s.revocations ==> DetailFits(s.revocations[p]))
  }

  lemma ScopeIsRead(x: PolicyScope)
    ensures StoreFields.ScopeOk(x) ==> ScopeFits(x)
    ensures ShapedScope(x) && x.WellFormed() && ScopeFits(x) ==> StoreFields.ScopeOk(x)
  {
    hide Codec.IdOk;
    EmptyIsNoId();
  }

  lemma EmptyIsNoId()
    ensures forall maxLength: nat :: !Codec.IdOk(NO_ID, maxLength)
  {
  }

  lemma SemanticsAreRead(x: Semantics)
    ensures StoreFields.SemanticsOk(x) ==> SemanticsFit(x)
    ensures ShapedSemantics(x) && x.Valid() && SemanticsFit(x) ==> StoreFields.SemanticsOk(x)
  {
    hide Codec.IdOk;
    EmptyIsNoId();
    if x.Valid() {
      assert x.EvidenceValid() && x.PrioritiesValid();
    }
  }

  lemma ProposalIsRead(x: WeightProposal)
    ensures StoreRecords.ProposalOk(x) ==> ProposalFits(Some(x))
    ensures ShapedProposal(x) && ProposalFits(Some(x)) ==> StoreRecords.ProposalOk(x)
  {
    hide Codec.IdOk;
    EmptyIsNoId();
  }

  lemma PreferenceIsRead(x: Preference)
    ensures StoreRecords.PreferenceOk(x) ==> x.multipath != Some(NO_ID) && ProposalFits(x.proposal)
  {
    hide Codec.IdOk, StoreRecords.ProposalOk, StoreRecords.ProvenanceOk, WeightProposal.WellFormed;
    EmptyIsNoId();
    if x.proposal.Some? {
      ProposalIsRead(x.proposal.value);
    }
  }

  ghost function HistorySize(s: State): nat { |AllHistory(s.policies, InOrderOf(s.policies.Keys))| }

  // The sections of the store are within the bounds of the reader.
  ghost predicate SectionsFit(s: State)
  {
    && |s.policies| <= Store.MAX_POLICIES && |s.revocations| <= Store.MAX_REVOCATIONS
    && HistorySize(s) <= Store.MAX_HISTORY
  }

  // The timers of every policy are within the reader's bounds.
  ghost predicate TimersFit(s: State)
  {
    forall p :: p in s.policies ==>
      |s.policies[p].timing.churn| <= StoreRecords.MAX_STAMPS
      && s.policies[p].timing.penalty <= StoreRecords.MAX_PENALTY
  }

  lemma {:induction false} OrderSize(ids: set<Id>)
    ensures |InOrderOf(ids)| == |ids|
    decreases ids
  {
    if ids != {} {
      OrderSize(ids - {First(ids)});
    }
  }

  lemma {:induction false} HistoryMembers(policies: map<Id, PolicyRecord>, ids: seq<Id>)
    requires forall i :: 0 <= i < |ids| ==> ids[i] in policies
    ensures forall x :: x in AllHistory(policies, ids) ==> x.policy in ids && x.entry in policies[x.policy].history
  {
    if ids != [] {
      HistoryMembers(policies, ids[..|ids| - 1]);
      assert ids == ids[..|ids| - 1] + [ids[|ids| - 1]];
    }
  }

  lemma OwnerAt(ps: seq<AdaptivePolicy>, k: nat)
    requires k < |ps| && Store.DistinctIds(ps)
    ensures StoreRecords.OwnerOf(ps, ps[k].id) == Some(ps[k])
  {
    var owner := StoreRecords.OwnerOf(ps, ps[k].id);
    var j :| 0 <= j < |ps| && ps[j] == owner.value;
  }

  // The parts of one record.
  lemma RecordIsStorable(id: Id, r: PolicyRecord, now: Ticks)
    requires PolicyOk(r) && Accountable(r) && ShapedRecord(r) && r.policy.id == id
    requires Codec.IdOk(id, StoreFields.POLICY_ID) && RecordFits(r)
    ensures StoreRecords.PolicyOk(r.policy) && StoreRecords.PreferenceOk(r.preference)
    ensures StoreRecords.StableOk(r.stable)
    ensures StoreRecords.TimingOk(SavedTiming(id, r, now)) <==>
      |r.timing.churn| <= StoreRecords.MAX_STAMPS && r.timing.penalty <= StoreRecords.MAX_PENALTY
  {
    hide StoreFields.ScopeOk, StoreFields.SemanticsOk, Semantics.FirstDefect, BindingsOk, StoreRecords.ProposalOk,
         StoreRecords.ProvenanceOk, StoreRecords.HistoryOk, ShapedScope, ShapedSemantics, ShapedProposal, Codec.IdOk,
         WeightProposal.WellFormed;
    ScopeIsRead(r.policy.scope);
    SemanticsAreRead(r.policy.semantics);
    TargetIsShaped(r.policy.semantics);
    if r.preference.proposal.Some? {
      ProposalIsRead(r.preference.proposal.value);
    }
  }

  lemma TargetIsShaped(sem: Semantics)
    ensures StoreFields.SemanticsOk(sem) ==> Codec.IdOk(sem.target.route, StoreFields.ROUTE_ID)
  {
  }

  ghost predicate StorableAt(s: State, id: Id, now: Ticks)
  {
    && id in s.policies && s.policies[id].policy.id == id && Codec.IdOk(id, StoreFields.POLICY_ID)
    && StoreRecords.PolicyOk(s.policies[id].policy) && StoreRecords.PreferenceOk(s.policies[id].preference)
    && StoreRecords.StableOk(s.policies[id].stable)
    && s.policies[id].preference.route == s.policies[id].policy.semantics.target.route
    && (StoreRecords.TimingOk(SavedTiming(id, s.policies[id], now)) <==>
          |s.policies[id].timing.churn| <= StoreRecords.MAX_STAMPS
          && s.policies[id].timing.penalty <= StoreRecords.MAX_PENALTY)
    && forall i :: 0 <= i < |s.policies[id].history| ==> StoreRecords.HistoryOk(s.policies[id].history[i])
  }

  lemma EachIsStorable(s: State, id: Id, now: Ticks)
    requires StateOk(s) && Savable(s) && Shaped(s) && ListsFit(s) && id in s.policies
    ensures StorableAt(s, id, now)
  {
    hide PolicyOk, ShapedPolicy, ShapedPreference, RecordFits, SavedTiming, AllHistory, InOrderOf,
         StoreRecords.PolicyOk, StoreRecords.PreferenceOk, StoreRecords.StableOk, StoreRecords.TimingOk,
         StoreRecords.HistoryOk, Codec.IdOk;
    RecordIsStorable(id, s.policies[id], now);
  }

  // What is saved of each policy, section by section.
  ghost predicate SavesEach(d: DurableState, s: State, ids: seq<Id>, now: SaveTimes)
    requires SectionedBy(d, ids)
  {
    forall i :: 0 <= i < |ids| ==>
      && ids[i] in s.policies
      && d.policies[i] == s.policies[ids[i]].policy && d.preferences[i].preference == s.policies[ids[i]].preference
      && d.stables[i].stable == s.policies[ids[i]].stable
      && d.timings[i] == SavedTiming(ids[i], s.policies[ids[i]], now(ids[i]))
  }

  ghost predicate SavesHistory(d: DurableState, s: State, ids: seq<Id>)
    requires forall i :: 0 <= i < |ids| ==> ids[i] in s.policies
  {
    && |d.history| == |AllHistory(s.policies, ids)|
    && forall i :: 0 <= i < |d.history| ==>
         var x := AllHistory(s.policies, ids)[i]; d.history[i] == x.(entry := x.entry.(committedAt := 0))
  }

  // Every section of per-policy records, once each record is known to be fine.
  lemma SectionsAreStorable(d: DurableState, s: State, ids: seq<Id>, now: SaveTimes)
    requires SectionedBy(d, ids) && NoDuplicates(ids) && |ids| <= Store.MAX_POLICIES
    requires SavesEach(d, s, ids, now) && forall i :: 0 <= i < |ids| ==> StorableAt(s, ids[i], now(ids[i]))
    ensures Store.PoliciesOk(d.policies) && Store.PreferencesOk(d.policies, d.preferences)
    ensures Store.StablesOk(d.policies, d.stables)
    ensures Store.TimingsOk(d.policies, d.timings) <==>
      forall i :: 0 <= i < |ids| ==> StoreRecords.TimingOk(d.timings[i])
  {
    hide SavedTiming, StoreRecords.PolicyOk, StoreRecords.PreferenceOk, StoreRecords.StableOk, StoreRecords.TimingOk,
         StoreRecords.HistoryOk, StoreRecords.OwnerOf, Codec.IdOk;
    forall k | 0 <= k < |ids|
      ensures StoreRecords.OwnerOf(d.policies, ids[k]) == Some(d.policies[k])
      ensures Codec.IdOk(ids[k], StoreFields.POLICY_ID)
    {
      OwnerAt(d.policies, k);
    }
  }

  lemma HistoryIsStorable(d: DurableState, s: State, ids: seq<Id>, now: SaveTimes)
    requires forall i :: 0 <= i < |ids| ==> StorableAt(s, ids[i], now(ids[i])) && ids[i] in s.policies
    requires forall id :: id in ids ==> StoreRecords.OwnerOf(d.policies, id).Some?
    requires SavesHistory(d, s, ids) && |AllHistory(s.policies, ids)| <= Store.MAX_HISTORY
    ensures Store.HistoriesOk(d.policies, d.history)
  {
    hide SavedTiming, StoreRecords.PolicyOk, StoreRecords.PreferenceOk, StoreRecords.StableOk, StoreRecords.TimingOk,
         StoreRecords.OwnerOf, Codec.IdOk, AllHistory;
    HistoryMembers(s.policies, ids);
    var all := AllHistory(s.policies, ids);
    forall i | 0 <= i < |all|
      ensures Store.HistoryFits(d.policies, d.history[i])
    {
      assert all[i] in all;
      var j :| 0 <= j < |ids| && ids[j] == all[i].policy;
    }
  }

  lemma RevocationsAreStorable(s: State, now: SaveTimes)
    requires RevocationsSet(s.revocations) && Shaped(s) && ListsFit(s) && |s.revocations| <= Store.MAX_REVOCATIONS
    ensures Store.RevocationsOk(BuildDurable(s, now).revocations)
  {
    hide AllHistory, SavedTiming, InOrderOf, ShapedRecord, RecordFits, Codec.IdOk;
    OrderSize(s.revocations.Keys);
    var ids, rs := InOrderOf(s.revocations.Keys), BuildDurable(s, now).revocations;
    forall i | 0 <= i < |rs|
      ensures StoreRecords.RevocationOk(rs[i])
    {
      assert ids[i] in s.revocations && rs[i] == s.revocations[ids[i]];
    }
  }

  lemma SavedParts(s: State, now: SaveTimes)
    requires Keyed(s)
    ensures var ids, d := InOrderOf(s.policies.Keys), Stripped(BuildDurable(s, now));
            && SectionedBy(d, ids) && SavesEach(d, s, ids, now) && SavesHistory(d, s, ids)
            && d.version == PERSISTENCE_FORMAT_VERSION && d.revocations == BuildDurable(s, now).revocations
            && Store.CountersIn(d) == Store.Counters(s.epoch, s.authorityGeneration, s.evidenceGeneration,
                                                     s.evidence.watermark, s.upstreamWatermark)
  {
    hide SavedTiming, AllHistory, InOrderOf;
    BuiltIsSectioned(s, now);
  }

  lemma FittingIsStorable(s: State, now: SaveTimes)
    requires StateOk(s) && Savable(s) && Shaped(s) && SectionsFit(s) && ListsFit(s)
    ensures Store.Storable(Stripped(BuildDurable(s, now))) <==> TimersFit(s)
  {
    hide SavedTiming, StorableAt, AllHistory, InOrderOf, Shaped, Savable, ListsFit, StateOk, Store.PoliciesOk,
         Store.RevocationsOk, Store.PreferencesOk, Store.StablesOk, Store.TimingsOk, Store.HistoriesOk,
         StoreRecords.TimingOk, Stripped, BuildDurable;
    var ids, d := InOrderOf(s.policies.Keys), Stripped(BuildDurable(s, now));
    ShapedParts(s);
    SavedParts(s, now);
    OrderSize(s.policies.Keys);
    RevocationsAreStorable(s, now);
    forall i | 0 <= i < |ids|
      ensures StorableAt(s, ids[i], now(ids[i]))
      ensures StoreRecords.TimingOk(d.timings[i]) <==>
        |s.policies[ids[i]].timing.churn| <= StoreRecords.MAX_STAMPS
        && s.policies[ids[i]].timing.penalty <= StoreRecords.MAX_PENALTY
    {
      EachIsStorable(s, ids[i], now(ids[i]));
      StorableTimers(s, ids[i], now(ids[i]));
    }
    SectionsAreStorable(d, s, ids, now);
    OwnersAreThere(d, ids);
    HistoryIsStorable(d, s, ids, now);
    AllTimers(s, ids);
  }

  lemma StorableSectionsFit(s: State, now: SaveTimes)
    requires Keyed(s)
    ensures Store.Storable(Stripped(BuildDurable(s, now))) ==> SectionsFit(s)
  {
    hide SavedTiming, AllHistory, InOrderOf, Store.TimingsOk, Store.PreferencesOk, Store.StablesOk, Store.HistoryFits,
         StoreRecords.PolicyOk, StoreRecords.RevocationOk;
    OrderSize(s.policies.Keys);
    OrderSize(s.revocations.Keys);
  }

  lemma StorableRecordFits(s: State, now: SaveTimes, p: Id)
    requires Keyed(s) && Store.Storable(Stripped(BuildDurable(s, now))) && p in s.policies
    ensures RecordFits(s.policies[p])
  {
    hide SavedTiming, AllHistory, InOrderOf, Store.TimingsOk, Store.StablesOk, Store.HistoriesOk, Store.RevocationsOk,
         StoreRecords.PreferenceOk, StoreFields.ScopeOk, StoreFields.SemanticsOk, ScopeFits, SemanticsFit, ProposalFits,
         Semantics.FirstDefect, BuildDurable, Stripped, StoreRecords.OwnerOf;
    var ids, d := InOrderOf(s.policies.Keys), Stripped(BuildDurable(s, now));
    SavedParts(s, now);
    var k :| 0 <= k < |ids| && ids[k] == p;
    assert StoreRecords.PolicyOk(d.policies[k]) && Store.PreferenceFits(d.policies, d.preferences[k]);
    ScopeIsRead(d.policies[k].scope);
    SemanticsAreRead(d.policies[k].semantics);
    PreferenceIsRead(d.preferences[k].preference);
  }

  lemma StorableDetailFits(s: State, now: SaveTimes, p: Id)
    requires Store.Storable(Stripped(BuildDurable(s, now))) && p in s.revocations
    ensures DetailFits(s.revocations[p])
  {
    hide SavedTiming, AllHistory, InOrderOf, Store.TimingsOk, Store.StablesOk, Store.HistoriesOk, Store.PreferencesOk,
         Store.PoliciesOk, Codec.IdOk;
    var ids, rs := InOrderOf(s.revocations.Keys), BuildDurable(s, now).revocations;
    var k :| 0 <= k < |ids| && ids[k] == p;
    assert rs[k] == s.revocations[p] && StoreRecords.RevocationOk(rs[k]);
  }

  lemma StorableFits(s: State, now: SaveTimes)
    requires Keyed(s)
    ensures Store.Storable(Stripped(BuildDurable(s, now))) ==> SectionsFit(s) && ListsFit(s)
  {
    hide Store.Storable, Stripped, BuildDurable, RecordFits, DetailFits, SectionsFit;
    StorableSectionsFit(s, now);
    if Store.Storable(Stripped(BuildDurable(s, now))) {
      forall p | p in s.policies
        ensures RecordFits(s.policies[p])
      {
        StorableRecordFits(s, now, p);
      }
      forall p | p in s.revocations
        ensures DetailFits(s.revocations[p])
      {
        StorableDetailFits(s, now, p);
      }
    }
  }

  lemma SavedIsStorable(s: State, now: SaveTimes)
    requires StateOk(s) && Savable(s) && Shaped(s)
    ensures Store.Storable(Stripped(BuildDurable(s, now))) <==> TimersFit(s) && SectionsFit(s) && ListsFit(s)
  {
    hide Store.Storable, Stripped, BuildDurable, Savable, Shaped, PolicyOk, TimersFit, SectionsFit, ListsFit;
    StorableFits(s, now);
    if SectionsFit(s) && ListsFit(s) {
      FittingIsStorable(s, now);
    }
  }

  lemma ShapedParts(s: State)
    ensures StateOk(s) ==> Keyed(s)
    ensures Savable(s) ==> CountersSet(s) && RevocationsSet(s.revocations)
    ensures SectionsFit(s) ==>
      && |s.policies| <= Store.MAX_POLICIES && |s.revocations| <= Store.MAX_REVOCATIONS
      && HistorySize(s) <= Store.MAX_HISTORY
  {
    hide PolicyOk, Accountable, ShapedRecord, ShapedRevocation, HistorySize;
  }

  lemma StorableTimers(s: State, id: Id, now: Ticks)
    requires StorableAt(s, id, now)
    ensures StoreRecords.TimingOk(SavedTiming(id, s.policies[id], now)) <==>
      |s.policies[id].timing.churn| <= StoreRecords.MAX_STAMPS
      && s.policies[id].timing.penalty <= StoreRecords.MAX_PENALTY
  {
  }

  lemma OwnersAreThere(d: DurableState, ids: seq<Id>)
    requires SectionedBy(d, ids)
    ensures forall id :: id in ids ==> StoreRecords.OwnerOf(d.policies, id).Some?
  {
    forall id | id in ids
      ensures StoreRecords.OwnerOf(d.policies, id).Some?
    {
      var k :| 0 <= k < |ids| && ids[k] == id;
      assert d.policies[k].id == id;
    }
  }

  lemma AllTimers(s: State, ids: seq<Id>)
    requires forall id :: id in ids <==> id in s.policies
    ensures TimersFit(s) <==>
      forall i :: 0 <= i < |ids| ==>
        ids[i] in s.policies
        && |s.policies[ids[i]].timing.churn| <= StoreRecords.MAX_STAMPS
        && s.policies[ids[i]].timing.penalty <= StoreRecords.MAX_PENALTY
  {
  }

  // A state that holds what its types enforce can be saved and read back exactly
  // when timers, lists and sections fit the reader and the store is not too large.
  lemma ShapedStateReadsBack(s: State, now: SaveTimes, hash: seq<byte> -> u64)
    requires StateOk(s) && Savable(s) && Shaped(s)
    ensures var d := BuildDurable(s, now);
            Store.Decode(Store.Encode(d, hash), hash) == Codec.Got(Stripped(d), [])
            <==> TimersFit(s) && SectionsFit(s) && ListsFit(s) && |Store.Encode(d, hash)| <= Store.MAX_STORE
  {
    hide StateOk, Savable, Shaped, TimersFit, SectionsFit, ListsFit, BuildDurable, Store.Encode, Store.Decode,
         Store.Storable;
    SavedIsStorable(s, now);
    Store.RoundTrip(BuildDurable(s, now), hash);
  }

  lemma InitialIsSavable()
    ensures StateOk(INITIAL_STATE) && Savable(INITIAL_STATE)
  {
  }

  // A rollback appends its churn stamp without trimming: at the bound, it leaves
  // a state whose store cannot be read back.
  lemma RollbackOutgrowsTheStore(s: State, e: Event, p: Id, now: SaveTimes, limits: Limits)
    requires Keyed(s) && RollsBack(s, e, p) && |s.policies[p].timing.churn| >= StoreRecords.MAX_STAMPS
    ensures !Store.Storable(Stripped(BuildDurable(After(s, e, limits), now)))
  {
    hide RollbackRefusal, RestoreRefusal, AllHistory, InOrderOf, Store.PoliciesOk, Store.RevocationsOk,
         StoreRecords.OwnerOf, Store.PreferencesOk, Store.StablesOk, Store.HistoriesOk, RestoredPreference, Anchored,
         After;
    var t := After(s, e, limits);
    Evolution(s, e, p, limits);
    var ids := InOrderOf(t.policies.Keys);
    var k :| 0 <= k < |ids| && ids[k] == p;
    var d := Stripped(BuildDurable(t, now));
    assert d.timings[k] == SavedTiming(p, t.policies[p], now(p));
    assert |d.timings[k].churnAges| > StoreRecords.MAX_STAMPS;
  }
}
