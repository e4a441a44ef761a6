// Revocations, history and names: how they stay together along runs and what
// save and recovery keep of them (src/fabric_policy.cpp, src/fabric_api.cpp).

module Revocations {
  import opened Base
  import opened Evidence
  import opened Outcomes
  import opened Policy
  import opened Records
  import opened Evaluation
  import opened Indexing
  import opened Durable
  import opened Fabric
  import opened Runs
  import Absorbing
  import Callers
  import Fencing
  import Requests

  // ------------------------------------------------------------------------
  // What recovery keeps
  // ------------------------------------------------------------------------

  // A revocation is listed under the policy it revokes.
  ghost predicate RevocationsKeyed(s: State)
  {
    forall p :: p in s.revocations ==> s.revocations[p].policy == p
  }

  // The history entries without their commit times, which are not saved.
  function Undated(history: seq<HistoryEntry>): seq<HistoryEntry>
  {
    seq(|history|, i requires 0 <= i < |history| => history[i].(committedAt := 0))
  }

  // The entries of one policy, in order.
  ghost function OwnEntries(items: seq<DurableHistory>, p: Id): seq<HistoryEntry>
  {
    if items == [] then []
    else
      var last := items[|items| - 1];
      OwnEntries(items[..|items| - 1], p) + (if last.policy == p then [last.entry] else [])
  }

  lemma TrimmedStep(s: seq<HistoryEntry>, x: HistoryEntry, bound: nat)
    ensures Base.Trimmed(Base.Trimmed(s, bound) + [x], bound) == Base.Trimmed(s + [x], bound)
  {
    if |s| >= bound {
      var cut := |s| - bound;
      assert s[cut..] + [x] == (s + [x])[cut..];
      assert (s + [x])[cut..][1..] == (s + [x])[cut + 1..];
    }
  }

  lemma {:induction false} HistoryFold(r: PolicyRecord, items: seq<DurableHistory>, p: Id, bound: nat)
    requires r.history == []
    ensures FoldFor(r, items, p, HistoryKey, PutHistory(bound))
         == r.(history := Base.Trimmed(OwnEntries(items, p), bound))
  {
    if items != [] {
      var init, last := items[..|items| - 1], items[|items| - 1];
      HistoryFold(r, init, p, bound);
      TrimmedStep(OwnEntries(init, p), last.entry, bound);
    }
  }

  lemma {:induction false} OwnOfConcat(a: seq<DurableHistory>, b: seq<DurableHistory>, p: Id)
    ensures OwnEntries(a + b, p) == OwnEntries(a, p) + OwnEntries(b, p)
  {
    if b == [] {
      assert a + b == a;
    } else {
      assert (a + b)[..|a + b| - 1] == a + b[..|b| - 1];
      OwnOfConcat(a, b[..|b| - 1], p);
    }
  }

  lemma {:induction false} OwnOfSaved(q: Id, history: seq<HistoryEntry>, p: Id)
    ensures OwnEntries(SavedHistory(q, history), p) == if q == p then history else []
  {
    var items := SavedHistory(q, history);
    if history != [] {
      var n := |history| - 1;
      assert items[..n] == SavedHistory(q, history[..n]);
      assert history == history[..n] + [history[n]];
      OwnOfSaved(q, history[..n], p);
    }
  }

  lemma {:induction false} OwnOfAll(policies: map<Id, PolicyRecord>, ids: seq<Id>, p: Id)
    requires (forall i :: 0 <= i < |ids| ==> ids[i] in policies) && NoDuplicates(ids)
    ensures OwnEntries(AllHistory(policies, ids), p)
         == if p in ids then policies[p].history else []
  {
    if ids != [] {
      var init, last := ids[..|ids| - 1], ids[|ids| - 1];
      OwnOfAll(policies, init, p);
      OwnOfConcat(AllHistory(policies, init), SavedHistory(last, policies[last].history), p);
      OwnOfSaved(last, policies[last].history, p);
      assert ids == init + [last];
      assert last !in init;
    }
  }

  lemma {:induction false} OwnOfUndated(items: seq<DurableHistory>, undated: seq<DurableHistory>, p: Id)
    requires |undated| == |items|
    requires forall i :: 0 <= i < |items| ==> undated[i] == items[i].(entry := items[i].entry.(committedAt := 0))
    ensures OwnEntries(undated, p) == Undated(OwnEntries(items, p))
  {
    if items != [] {
      var n := |items| - 1;
      OwnOfUndated(items[..n], undated[..n], p);
    }
  }

  lemma StrippedHistory(s: State, saved: SaveTimes, p: Id)
    requires p in s.policies
    ensures OwnEntries(Stripped(BuildDurable(s, saved)).history, p) == Undated(s.policies[p].history)
  {
    var d := BuildDurable(s, saved);
    OwnOfAll(s.policies, InOrderOf(s.policies.Keys), p);
    OwnOfUndated(d.history, Stripped(d).history, p);
  }

  // The sections of the saved state, entry by entry.
  lemma BuiltParts(s: State, saved: SaveTimes)
    ensures var d, ids, revoked :=
              BuildDurable(s, saved), InOrderOf(s.policies.Keys), InOrderOf(s.revocations.Keys);
            && |d.policies| == |ids| && |d.revocations| == |revoked|
            && (forall i :: 0 <= i < |ids| ==> ids[i] in s.policies && d.policies[i] == s.policies[ids[i]].policy)
            && (forall i :: 0 <= i < |revoked| ==>
                  revoked[i] in s.revocations && d.revocations[i] == s.revocations[revoked[i]])
  {
  }

  lemma StrippedParts(d: DurableState)
    ensures Stripped(d) == d.(history := Stripped(d).history)
  {
  }

  // The revocation of a policy, if it has one.
  ghost function RevocationOf(s: State, p: Id): Option<Revocation>
  {
    if p in s.revocations then Some(s.revocations[p]) else None
  }

  lemma RevocationFold(s: State, saved: SaveTimes, r: PolicyRecord, p: Id)
    requires RevocationsKeyed(s) && r.revocation.None?
    ensures FoldFor(r, BuildDurable(s, saved).revocations, p, RevocationKey, PutRevocation)
         == r.(revocation := RevocationOf(s, p))
  {
    hide BuildDurable, InOrderOf;
    BuiltParts(s, saved);
    var rs, ids := BuildDurable(s, saved).revocations, InOrderOf(s.revocations.Keys);
    if p in s.revocations {
      var k :| 0 <= k < |ids| && ids[k] == p;
      FoldOnce(r, rs, RevocationKey, PutRevocation, p, k);
    } else {
      assert forall i :: 0 <= i < |ids| ==> ids[i] in s.revocations;
      FoldNone(r, rs, RevocationKey, PutRevocation, p);
    }
  }

  lemma TimedKeeps(d: DurableState, ids: seq<Id>, k: nat, r: PolicyRecord, now: Ticks)
    requires SectionedBy(d, ids) && NoDuplicates(ids) && k < |ids|
    ensures Durable.Timed(r, d, ids[k], now).history == r.history
    ensures Durable.Timed(r, d, ids[k], now).revocation == r.revocation
  {
    hide Durable.Timed;
    TimedOnce(d, ids, k, r, now);
  }

  // After recovery every policy carries its revocation and the youngest of its
  // history entries, without their commit times.
  lemma RecordKeepsBooks(s: State, saved: SaveTimes, now: Ticks, limits: Limits, p: Id)
    requires Keyed(s) && RevocationsKeyed(s) && p in s.policies
    ensures var records := RestoredRecords(Stripped(BuildDurable(s, saved)), now, limits);
            && p in records && records[p].revocation == RevocationOf(s, p)
            && records[p].history == Base.Trimmed(Undated(s.policies[p].history), limits.maxHistory)
  {
    hide RestoredRecords, BuildDurable, Durable.Timed, RestorePolicies, Base.Trimmed;
    var d, ids := Stripped(BuildDurable(s, saved)), InOrderOf(s.policies.Keys);
    var k :| 0 <= k < |ids| && ids[k] == p;
    BuiltIsSectioned(s, saved);
    RestoredPolicyAt(d.policies, limits.conservativeRecovery, k);
    SectionsAt(d, now, limits, p);
    var base := RestoredPolicy(d.policies[k], limits.conservativeRecovery);
    TimedKeeps(d, ids, k, base, now);
    var timed := Durable.Timed(base, d, p, now);
    RevocationFold(s, saved, timed, p);
    HistoryFold(timed.(revocation := RevocationOf(s, p)), d.history, p, limits.maxHistory);
    StrippedHistory(s, saved, p);
  }

  lemma {:induction false} RestoredRevocations(rs: seq<Revocation>, policies: set<Id>)
    requires forall i, j :: 0 <= i < j < |rs| ==> rs[i].policy != rs[j].policy
    ensures forall i :: 0 <= i < |rs| && rs[i].policy in policies ==>
              rs[i].policy in RestoreRevocations(rs, policies)
              && RestoreRevocations(rs, policies)[rs[i].policy] == rs[i]
    ensures forall p :: p in RestoreRevocations(rs, policies) ==>
              p in policies && exists i :: 0 <= i < |rs| && rs[i].policy == p
  {
    if rs != [] {
      RestoredRevocations(rs[..|rs| - 1], policies);
    }
  }

  lemma {:induction false} RestoredNames(ps: seq<AdaptivePolicy>)
    ensures forall i :: 0 <= i < |ps| ==> ps[i].name in RestoreNames(ps)
    ensures forall n :: n in RestoreNames(ps) ==>
              exists i :: 0 <= i < |ps| && ps[i].name == n && ps[i].id == RestoreNames(ps)[n]
  {
    if ps != [] {
      var init := ps[..|ps| - 1];
      RestoredNames(init);
      forall n | n in RestoreNames(ps)
        ensures exists i :: 0 <= i < |ps| && ps[i].name == n && ps[i].id == RestoreNames(ps)[n]
      {
        if n in RestoreNames(init) {
          var i :| 0 <= i < |init| && init[i].name == n && init[i].id == RestoreNames(init)[n];
          assert ps[i] == init[i];
        } else {
          assert ps[|ps| - 1].name == n;
        }
      }
      forall i | 0 <= i < |ps|
        ensures ps[i].name in RestoreNames(ps)
      {
        assert i < |init| ==> ps[i] == init[i];
      }
    }
  }

  // Every policy has its name back, and no name leads anywhere else.
  ghost predicate NamesBack(s: State, names: map<Id, Id>)
  {
    && (forall p :: p in s.policies ==> s.policies[p].policy.name in names)
    && (forall n :: n in names ==> names[n] in s.policies && s.policies[names[n]].policy.name == n)
  }

  // So has every policy its listed revocation, and there is no other.
  ghost predicate RevocationsBack(s: State, rs: map<Id, Revocation>)
  {
    && (forall p :: p in rs <==> p in s.revocations && p in s.policies)
    && (forall p :: p in rs ==> rs[p] == s.revocations[p])
  }

  lemma NamesRestored(s: State, saved: SaveTimes)
    requires Keyed(s)
    ensures NamesBack(s, RestoreNames(BuildDurable(s, saved).policies))
  {
    hide BuildDurable, InOrderOf, RestoreNames;
    BuiltParts(s, saved);
    var ps, ids := BuildDurable(s, saved).policies, InOrderOf(s.policies.Keys);
    RestoredNames(ps);
    forall p | p in s.policies
      ensures s.policies[p].policy.name in RestoreNames(ps)
    {
      var k :| 0 <= k < |ids| && ids[k] == p;
      assert ps[k] == s.policies[p].policy;
    }
  }

  lemma ListedRevocation(s: State, saved: SaveTimes, p: Id)
    requires RevocationsKeyed(s)
    ensures var rs := RestoreRevocations(BuildDurable(s, saved).revocations, s.policies.Keys);
            && (p in rs <==> p in s.revocations && p in s.policies)
            && (p in rs ==> rs[p] == s.revocations[p])
  {
    hide BuildDurable, InOrderOf, RestoreRevocations;
    BuiltParts(s, saved);
    var rs, ids := BuildDurable(s, saved).revocations, InOrderOf(s.revocations.Keys);
    RestoredRevocations(rs, s.policies.Keys);
    if p in s.revocations {
      var k :| 0 <= k < |ids| && ids[k] == p;
      assert rs[k].policy == p;
    }
  }

  lemma ListedRevocations(s: State, saved: SaveTimes)
    requires RevocationsKeyed(s)
    ensures RevocationsBack(s, RestoreRevocations(BuildDurable(s, saved).revocations, s.policies.Keys))
  {
    hide BuildDurable, RestoreRevocations;
    forall p
      ensures var rs := RestoreRevocations(BuildDurable(s, saved).revocations, s.policies.Keys);
              && (p in rs <==> p in s.revocations && p in s.policies)
              && (p in rs ==> rs[p] == s.revocations[p])
    {
      ListedRevocation(s, saved, p);
    }
  }

  lemma RecoveredBooks(d: DurableState, now: Ticks, limits: Limits)
    requires RecoveryRefusal(d, limits).None?
    ensures var t := Recovered(d, now, limits);
            && t.policies == RestoredRecords(d, now, limits) && t.names == RestoreNames(d.policies)
            && t.revocations == RestoreRevocations(d.revocations, RestoredRecords(d, now, limits).Keys)
  {
    hide RestoredRecords, RestoreNames, RestoreRevocations, RecoveryRefusal, Reindexed;
    ReindexKeeps(Bare(d, now, limits), InOrderOf(RestoredRecords(d, now, limits).Keys), limits);
  }

  // The counters after recovery: a new epoch and authority generation, and the
  // evidence generation and both watermarks as they were; no series, no
  // registration, no fence and no attempt.
  ghost predicate Reopened(s: State, t: State)
  {
    && t.epoch == s.epoch + 1 && t.authorityGeneration == s.authorityGeneration + 1
    && t.evidenceGeneration == s.evidenceGeneration && t.evidence.watermark == s.evidence.watermark
    && t.evidence.series == map[] && t.upstreamWatermark == s.upstreamWatermark
    && t.registrations == map[] && t.fenced == {} && t.attempts.entries == map[] && t.attempts.order == []
  }

  lemma CountersReopened(s: State, saved: SaveTimes, now: Ticks, limits: Limits)
    requires RecoveryRefusal(Stripped(BuildDurable(s, saved)), limits).None?
    ensures Reopened(s, Recovered(Stripped(BuildDurable(s, saved)), now, limits))
  {
    hide Recovered, RestoredRecords;
    RecoveredFacts(Stripped(BuildDurable(s, saved)), now, limits);
  }

  // Recovery gives every policy its name, its revocation and its youngest history
  // back, and no other.
  lemma RestartKeepsBooks(s: State, saved: SaveTimes, now: Ticks, limits: Limits)
    requires Keyed(s) && RevocationsKeyed(s)
    requires RecoveryRefusal(Stripped(BuildDurable(s, saved)), limits).None?
    ensures var t := RestartStep(s, saved, now, limits).state;
            && Reopened(s, t) && NamesBack(s, t.names) && RevocationsBack(s, t.revocations)
            && t.policies.Keys == s.policies.Keys
            && forall p :: p in s.policies ==>
                 && t.policies[p].revocation == RevocationOf(s, p)
                 && t.policies[p].history == Base.Trimmed(Undated(s.policies[p].history), limits.maxHistory)
  {
    hide BuildDurable, RestoredRecords, RecoveryRefusal, Recovered, RestoreNames, RestoreRevocations, Base.Trimmed,
         Stripped, Undated, NamesBack, RevocationsBack, RevocationOf, Reopened;
    CountersReopened(s, saved, now, limits);
    var d := Stripped(BuildDurable(s, saved));
    RestartKeys(s, saved, now, limits);
    RecoveredBooks(d, now, limits);
    StrippedParts(BuildDurable(s, saved));
    NamesRestored(s, saved);
    ListedRevocations(s, saved);
    forall p | p in s.policies
      ensures var records := RestoredRecords(d, now, limits);
              p in records && records[p].revocation == RevocationOf(s, p)
              && records[p].history == Base.Trimmed(Undated(s.policies[p].history), limits.maxHistory)
    {
      RecordKeepsBooks(s, saved, now, limits, p);
    }
  }

  // ------------------------------------------------------------------------
  // Along runs
  // ------------------------------------------------------------------------

  // The list and the records agree: exactly the policies that carry a revocation
  // are listed, with the same one, and they are revoked.
  ghost predicate Filed(s: State)
  {
    && (forall p :: p in s.revocations ==> FiledAt(s, p))
    && (forall p :: p in s.policies && s.policies[p].revocation.Some? ==> p in s.revocations)
  }

  ghost predicate FiledAt(s: State, p: Id)
  {
    && p in s.revocations && s.revocations[p].policy == p && p in s.policies
    && s.policies[p].revocation == Some(s.revocations[p]) && s.policies[p].policy.lifecycle == Revoked
  }

  // The step leaves the list and the revocation of every record alone.
  ghost predicate SameFile(s: State, t: State)
  {
    && t.revocations == s.revocations
    && (forall p :: p in s.policies ==> p in t.policies && t.policies[p].revocation == s.policies[p].revocation)
    && (forall p :: p in t.policies && p !in s.policies ==> t.policies[p].revocation.None?)
  }

  lemma AuthorityKeepsFile(s: State, e: Event, limits: Limits)
    ensures e.op.Register? ==>
      SameFile(s, RegisterStep(s, e.op.publisher, e.op.boot, e.op.scope, e.op.session, limits).state)
    ensures e.op.FencePublisher? ==> SameFile(s, FenceStep(s, e.op.publisher, e.op.boot).state)
    ensures SameFile(s, AdvanceEpochStep(s).state)
  {
    hide RegisterStep, FenceStep;
    if e.op.Register? {
      RegisterKeeps(s, e.op.publisher, e.op.boot, e.op.scope, e.op.session, limits);
    } else if e.op.FencePublisher? {
      FenceKeeps(s, e.op.publisher, e.op.boot);
    }
  }

  lemma CreateKeepsFile(s: State, q: CreateRequest, id: Id, now: Ticks, limits: Limits)
    ensures SameFile(s, CreateStep(s, q, id, now, limits).state)
  {
    hide CreateStep, Requests.MayDeclare;
    Requests.DeclarationIsExact(s, q, id, now, limits);
    Fencing.CreateCounters(s, q, id, now, limits);
  }

  lemma UpdateKeepsFile(s: State, q: UpdateRequest, now: Ticks, limits: Limits)
    ensures SameFile(s, UpdateStep(s, q, now, limits).state)
  {
    hide UpdateStep, Requests.MayReplace;
    Requests.UpdateIsExact(s, q, now, limits);
    Fencing.UpdateCounters(s, q, now, limits);
  }

  lemma TransitionKeepsFile(s: State, p: Id, event: LifecycleEvent, ctx: Context)
    ensures SameFile(s, TransitionStep(s, p, event, ctx).state)
  {
    hide TargetRefusal, NextLifecycle;
  }

  lemma UpstreamKeepsFile(s: State, ns: seq<Notification>, ctx: Context, fingerprint: Id, limits: Limits)
    ensures SameFile(s, UpstreamStep(s, ns, ctx, fingerprint, limits).state)
  {
    hide UpstreamStep;
    Fencing.UpstreamCounters(s, ns, ctx, fingerprint, limits);
    UpstreamMovesCandidates(s, ns, ctx, fingerprint, limits, NO_ID);
    forall p | p in s.policies
      ensures var t := UpstreamStep(s, ns, ctx, fingerprint, limits).state;
              p in t.policies && t.policies[p].revocation == s.policies[p].revocation
    {
      UpstreamMovesCandidates(s, ns, ctx, fingerprint, limits, p);
    }
  }

  lemma PublishKeepsFile(s: State, batch: seq<Fabric.Timed>, ctx: Context, fingerprint: Id, limits: Limits)
    ensures SameFile(s, PublishStep(s, batch, ctx, fingerprint, limits).state)
  {
    hide PublishStep;
    PublishKeeps(s, batch, ctx, fingerprint, limits);
  }

  lemma CommitKeepsFile(
    s: State, t: Ticket, ctx: Context, fingerprint: Id, minted: Minted, now: Ticks, limits: Limits)
    ensures SameFile(s, CommitStep(s, t, ctx, fingerprint, minted, now, limits).state)
  {
    hide CommitRefusal, VerifyRefusal, Armed, Anchored, CommittedPreference, Logged, Base.Trimmed;
    CommitNeedsPolicy(s, t, ctx, fingerprint);
    if t.dependencies.policy in s.policies {
      VerifiedHasTarget(s, s.policies[t.dependencies.policy], t.verdict, now, limits);
    }
  }

  lemma RollbackKeepsFile(
    s: State, p: Id, ctx: Context, fingerprint: Id, minted: Minted, now: Ticks, limits: Limits)
    ensures SameFile(s, RollbackStep(s, p, ctx, fingerprint, minted, now, limits).state)
  {
    hide RollbackRefusal, RestoreRefusal, Anchored, RestoredPreference, Logged, Base.Trimmed;
    RollbackNeedsPolicy(s, p, ctx, fingerprint);
    if p in s.policies {
      RestoreHasTarget(s.policies[p]);
    }
  }

  lemma StepKeepsFile(s: State, e: Event, limits: Limits)
    requires !e.op.RevokePolicy? && !e.op.Restart?
    ensures SameFile(s, After(s, e, limits))
  {
    hide RegisterStep, FenceStep, AdvanceEpochStep, CreateStep, UpdateStep, TransitionStep, RevokeStep, UpstreamStep,
         PublishStep, CommitStep, RollbackStep, RestartStep, SameFile;
    AuthorityKeepsFile(s, e, limits);
    match e.op
    case Create(q, id) => CreateKeepsFile(s, q, id, e.now, limits);
    case Update(q) => UpdateKeepsFile(s, q, e.now, limits);
    case Transition(p, event, ctx) => TransitionKeepsFile(s, p, event, ctx);
    case Upstream(ns, ctx, fingerprint) => UpstreamKeepsFile(s, ns, ctx, fingerprint, limits);
    case Publish(batch, ctx, fingerprint) => PublishKeepsFile(s, batch, ctx, fingerprint, limits);
    case Commit(t, ctx, fingerprint, minted) => CommitKeepsFile(s, t, ctx, fingerprint, minted, e.now, limits);
    case Rollback(p, ctx, fingerprint, minted) => RollbackKeepsFile(s, p, ctx, fingerprint, minted, e.now, limits);
    case _ =>
  }

  lemma SameFileKeeps(s: State, t: State)
    requires Filed(s) && SameFile(s, t)
    requires forall p :: Absorbing.TerminalIn(s, p) ==> Absorbing.Enshrined(s, t, p)
    ensures Filed(t)
  {
    forall p | p in t.revocations
      ensures FiledAt(t, p)
    {
      assert FiledAt(s, p);
      assert Absorbing.TerminalIn(s, p);
    }
  }

  lemma RevokeKeepsFile(
    s: State, p: Id, reason: RevocationReason, detail: seq<byte>, ctx: Context, limits: Limits)
    requires Filed(s)
    ensures Filed(RevokeStep(s, p, reason, detail, ctx, limits).state)
  {
    hide RevokeStep, Callers.GovernsPolicy;
    Requests.RevocationIsExact(s, p, reason, detail, ctx, limits);
    var t := RevokeStep(s, p, reason, detail, ctx, limits).state;
    forall q | q in t.revocations
      ensures FiledAt(t, q)
    {
      assert q in s.revocations ==> FiledAt(s, q);
    }
  }

  lemma FiledIsKeyed(s: State)
    requires Filed(s)
    ensures RevocationsKeyed(s)
  {
    forall p | p in s.revocations
      ensures s.revocations[p].policy == p
    {
      assert FiledAt(s, p);
    }
  }

  lemma RestartKeepsFile(s: State, saved: SaveTimes, now: Ticks, limits: Limits)
    requires Keyed(s) && Filed(s)
    requires forall p :: Absorbing.TerminalIn(s, p) ==>
               Absorbing.Enshrined(s, RestartStep(s, saved, now, limits).state, p)
    ensures Filed(RestartStep(s, saved, now, limits).state)
  {
    hide BuildDurable, Recovered, RecoveryRefusal, Stripped, NamesBack, Base.Trimmed, Undated, Keyed;
    FiledIsKeyed(s);
    if RecoveryRefusal(Stripped(BuildDurable(s, saved)), limits).None? {
      hide RestartStep;
      RestartKeepsBooks(s, saved, now, limits);
      var t := RestartStep(s, saved, now, limits).state;
      forall p | p in t.revocations
        ensures FiledAt(t, p)
      {
        assert FiledAt(s, p);
        assert Absorbing.TerminalIn(s, p);
      }
    }
  }

  lemma StepFiles(s: State, e: Event, limits: Limits)
    requires Keyed(s) && Filed(s)
    ensures Filed(After(s, e, limits))
  {
    hide RegisterStep, FenceStep, AdvanceEpochStep, CreateStep, UpdateStep, TransitionStep, RevokeStep, UpstreamStep,
         PublishStep, CommitStep, RollbackStep, RestartStep, Filed, SameFile, Absorbing.Enshrined;
    forall p | Absorbing.TerminalIn(s, p)
      ensures Absorbing.Enshrined(s, After(s, e, limits), p)
    {
      Absorbing.StepEnshrines(s, e, p, limits);
    }
    if e.op.RevokePolicy? {
      RevokeKeepsFile(s, e.op.policy, e.op.reason, e.op.detail, e.op.context, limits);
    } else if e.op.Restart? {
      RestartKeepsFile(s, e.op.saved, e.now, limits);
    } else {
      StepKeepsFile(s, e, limits);
      SameFileKeeps(s, After(s, e, limits));
    }
  }

  // Along every run from the start, save and recovery included, the revocation
  // list and the policy records agree.
  lemma {:induction false} ExecFiles(s: State, es: seq<Event>, limits: Limits)
    requires Keyed(s) && Filed(s)
    ensures Filed(Exec(s, es, limits))
    decreases |es|
  {
    hide After, Filed, Keyed;
    if es != [] {
      StepFiles(s, es[0], limits);
      KeyedStep(s, es[0], limits);
      ExecFiles(After(s, es[0], limits), es[1..], limits);
    }
  }
}
