// Recovery: restrictions survive with their remaining time, and nothing is
// committed before the new world has been declared afresh.

module Recovery {
  import opened Base
  import opened Metrics
  import opened Evidence
  import opened Outcomes
  import opened Policy
  import opened Records
  import opened Ranking
  import opened Evaluation
  import opened Indexing
  import opened Durable
  import opened Fabric
  import opened Runs
  import opened Fencing
  import opened Moves
  import opened Invariants
  import opened Choice
  import opened Hysteresis
  import Timers

  // ------------------------------------------------------------------------
  // Remaining restrictions
  // ------------------------------------------------------------------------

  function HoldDownLeft(t: Timing, now: Ticks): Ticks
  {
    if t.holdDownActive then Remaining(t.holdDownDeadline, now) else 0
  }

  function CooldownLeft(t: Timing, now: Ticks): Ticks
  {
    if t.cooldownActive then Remaining(t.cooldownDeadline, now) else 0
  }

  // No restriction of `before` at `saved` is weaker in `after` at `now`.
  ghost predicate NoWeaker(before: Timing, saved: Ticks, after: Timing, now: Ticks)
  {
    && HoldDownLeft(after, now) == HoldDownLeft(before, saved)
    && CooldownLeft(after, now) == CooldownLeft(before, saved)
    && after.lockedPath == before.lockedPath && after.penalty == before.penalty
    && |after.churn| == |before.churn|
    && forall i :: 0 <= i < |after.churn| ==>
         && after.churn[i] <= now && Elapsed(now, after.churn[i]) <= Elapsed(saved, before.churn[i])
         && (Elapsed(saved, before.churn[i]) <= now ==>
               Elapsed(now, after.churn[i]) == Elapsed(saved, before.churn[i]))
  }

  lemma RearmedIsNoWeaker(id: Id, r: PolicyRecord, saved: Ticks, now: Ticks)
    requires now + HoldDownLeft(r.timing, saved) < TWO_64 && now + CooldownLeft(r.timing, saved) < TWO_64
    ensures NoWeaker(r.timing, saved, RestoredTiming(SavedTiming(id, r, saved), NO_TIMING, now), now)
  {
    Timers.SmallMod(now + HoldDownLeft(r.timing, saved));
    Timers.SmallMod(now + CooldownLeft(r.timing, saved));
  }

  // The churn bound is no looser after a restart.
  lemma {:induction false} RestartKeepsChurn(before: seq<Ticks>, saved: Ticks, after: seq<Ticks>, now: Ticks,
                                             window: Ticks)
    requires |after| == |before|
    requires forall i :: 0 <= i < |after| ==>
               after[i] <= now && before[i] <= saved && Elapsed(now, after[i]) <= Elapsed(saved, before[i])
    ensures Recent(after, now, window) >= Recent(before, saved, window)
  {
    if before != [] {
      RestartKeepsChurn(before[..|before| - 1], saved, after[..|after| - 1], now, window);
    }
  }

  ghost predicate ComesBackGuarded(s: State, saved: SaveTimes, t: State, now: Ticks, p: Id, limits: Limits)
  {
    && p in s.policies && p in t.policies
    && NoWeaker(s.policies[p].timing, saved(p), t.policies[p].timing, now)
    && t.policies[p].preference.preferred == s.policies[p].preference.preferred
    && t.policies[p].stable == s.policies[p].stable
    && t.policies[p].candidates == []
    && t.policies[p].policy == RestoredPolicy(s.policies[p].policy, limits.conservativeRecovery).policy
  }

  // After save on one clock and recovery at any other, hold-down and cooldown
  // have exactly the time left that they had, every churn stamp is no older,
  // and the epoch is one above the saved one.
  lemma RestartIsNoWeaker(s: State, saved: SaveTimes, now: Ticks, p: Id, limits: Limits)
    requires Keyed(s) && p in s.policies
    requires RecoveryRefusal(Stripped(BuildDurable(s, saved)), limits).None?
    requires now + HoldDownLeft(s.policies[p].timing, saved(p)) < TWO_64
    requires now + CooldownLeft(s.policies[p].timing, saved(p)) < TWO_64
    ensures ComesBackGuarded(s, saved, RestartStep(s, saved, now, limits).state, now, p, limits)
    ensures RestartStep(s, saved, now, limits).state.epoch == s.epoch + 1
  {
    hide BuildDurable, RestoredRecords, Recovered, RecoveryRefusal, NoWeaker, RestoredTiming, SavedTiming,
         RestoredPolicy;
    RestartAt(s, saved, now, limits, p);
    RecoveredFacts(Stripped(BuildDurable(s, saved)), now, limits);
    RestartCounters(s, saved, now, limits);
    RearmedIsNoWeaker(p, s.policies[p], saved(p), now);
  }

  // ------------------------------------------------------------------------
  // What must happen before the first commit
  // ------------------------------------------------------------------------

  ghost predicate Registers(e: Event, publisher: Id, boot: Id)
  {
    e.op.Register? && e.op.publisher == publisher && e.op.boot == boot
  }

  ghost predicate Declares(e: Event, p: Id, path: Id)
  {
    && e.op.Upstream?
    && exists n :: n in e.op.notes && n.event.DeclareCandidate? && n.policy == p && n.binding.path == path
  }

  ghost predicate PublishesFor(e: Event, path: Id)
  {
    e.op.Publish? && exists x :: x in e.op.batch && x.sample.path == path
  }

  ghost predicate Registered(s: State, publisher: Id, boot: Id)
  {
    publisher in s.registrations && s.registrations[publisher].boot == boot
  }

  ghost predicate HasEvidence(s: State, path: Id) { exists k :: k in s.evidence.series && k.path == path }

  lemma AuthorityStepsRegister(s: State, e: Event, publisher: Id, boot: Id, limits: Limits)
    requires !Registered(s, publisher, boot) && !Registers(e, publisher, boot)
    ensures e.op.Register? ==>
      !Registered(RegisterStep(s, e.op.publisher, e.op.boot, e.op.scope, e.op.session, limits).state, publisher, boot)
    ensures e.op.FencePublisher? ==> !Registered(FenceStep(s, e.op.publisher, e.op.boot).state, publisher, boot)
    ensures !Registered(AdvanceEpochStep(s).state, publisher, boot)
  {
    hide Quiesced;
  }

  lemma RegistrationNeedsEvent(s: State, e: Event, publisher: Id, boot: Id, limits: Limits)
    requires Keyed(s) && !Registered(s, publisher, boot) && !Registers(e, publisher, boot)
    ensures !Registered(After(s, e, limits), publisher, boot)
  {
    hide RegisterStep, FenceStep, AdvanceEpochStep, CreateStep, UpdateStep, TransitionStep, RevokeStep, UpstreamStep,
         PublishStep, CommitStep, RollbackStep, Recovered, BuildDurable, RecoveryRefusal;
    AuthorityStepsRegister(s, e, publisher, boot, limits);
    if !e.op.Register? && !e.op.FencePublisher? && !e.op.AdvanceEpoch? && !e.op.Restart? {
      StepAuthority(s, e, limits);
    } else if Restarts(s, e, limits) {
      RecoveredFacts(Stripped(BuildDurable(s, e.op.saved)), e.now, limits);
    }
  }

  // --- candidates ---------------------------------------------------------

  lemma NoteNeedsDeclaration(s: State, n: Notification, ctx: Context, limits: Limits, p: Id, path: Id)
    requires CandidateOf(s, p, path).None?
    requires !(n.event.DeclareCandidate? && n.policy == p && n.binding.path == path)
    ensures CandidateOf(NoteStep(s, n, ctx, limits).state, p, path).None?
  {
    hide NoteRefusal, EventRefusal, Bound, Invalidated, CandidateOf;
    NoteNeedsPolicy(s, n, ctx);
    if NoteRefusal(s, n, ctx).None? {
      BoundNeedsDeclaration(s, n, limits, p, path);
      InvalidatedAddsNothing(Bound(s, n, limits), n.binding.path, p, path);
    }
  }

  lemma BoundNeedsDeclaration(s: State, n: Notification, limits: Limits, p: Id, path: Id)
    requires CandidateOf(s, p, path).None? && n.policy in s.policies
    requires !(n.event.DeclareCandidate? && n.policy == p && n.binding.path == path)
    ensures CandidateOf(Bound(s, n, limits), p, path).None?
  {
    hide Rebound, Inserted, IndexedWith, Find, WithCandidate;
    var r := s.policies[n.policy];
    var found := Find(r.candidates, n.binding.path);
    if found.Some? {
      ReboundKeepsPath(found.value.binding, n);
      WithCandidateFinds(r, found.value.(binding := Rebound(found.value.binding, n)), path);
    } else {
      FindInserted(r.candidates, Candidate(n.binding, 0), path);
    }
  }

  lemma InvalidatedAddsNothing(s: State, at: Id, p: Id, path: Id)
    requires CandidateOf(s, p, path).None?
    ensures CandidateOf(Invalidated(s, at), p, path).None?
  {
    hide Find, Bumped;
    if p in s.policies {
      BumpedFinds(s.policies[p], at, path);
    }
  }

  lemma {:induction false} NotesNeedDeclaration(
    s: State, ns: seq<Notification>, ctx: Context, limits: Limits, p: Id, path: Id)
    requires CandidateOf(s, p, path).None?
    requires forall n :: n in ns ==> !(n.event.DeclareCandidate? && n.policy == p && n.binding.path == path)
    ensures CandidateOf(NotesStep(s, ns, ctx, limits).state, p, path).None?
    decreases |ns|
  {
    hide NoteStep, CandidateOf;
    if ns != [] {
      var first := NoteStep(s, ns[0], ctx, limits);
      NoteNeedsDeclaration(s, ns[0], ctx, limits, p, path);
      if first.outcome == POLICY_UPDATED {
        NotesNeedDeclaration(first.state, ns[1..], ctx, limits, p, path);
      }
    }
  }

  lemma UpstreamNeedsDeclaration(
    s: State, ns: seq<Notification>, ctx: Context, fingerprint: Id, limits: Limits, p: Id, path: Id)
    requires CandidateOf(s, p, path).None?
    requires forall n :: n in ns ==> !(n.event.DeclareCandidate? && n.policy == p && n.binding.path == path)
    ensures CandidateOf(UpstreamStep(s, ns, ctx, fingerprint, limits).state, p, path).None?
  {
    hide NotesStep, Logged, UpstreamRefusal, Find;
    NotesNeedDeclaration(s, ns, ctx, limits, p, path);
  }

  lemma ChangeAddsNoCandidate(s: State, e: Event, p: Id, t: State, path: Id, limits: Limits)
    requires Becomes(s, e, p, t, limits) && CandidateOf(s, p, path).None?
    requires UpdatesPolicy(s, e, p, limits) || Restarts(s, e, limits)
    ensures CandidateOf(t, p, path).None?
  {
    hide CommitsTicket, RollbackRefusal, RestoreRefusal, UpdateRefusal, RecoveryRefusal, BuildDurable, RestoredTiming,
         SavedTiming, CommittedBy, RolledBackBy;
    if UpdatesPolicy(s, e, p, limits) {
      UpdateNeedsPolicy(s, e.op.update, limits);
    }
  }

  lemma CandidateNeedsDeclaration(s: State, e: Event, p: Id, path: Id, limits: Limits)
    requires Keyed(s) && CandidateOf(s, p, path).None? && !Declares(e, p, path)
    ensures CandidateOf(After(s, e, limits), p, path).None?
  {
    hide RegisterStep, FenceStep, AdvanceEpochStep, CreateStep, UpdateStep, TransitionStep, RevokeStep, UpstreamStep,
         PublishStep, CommitStep, RollbackStep, RestartStep, UpdatesPolicy, Restarts, Find, Becomes;
    var t := After(s, e, limits);
    if e.op.Upstream? {
      UpstreamNeedsDeclaration(s, e.op.notes, e.op.context, e.op.fingerprint, limits, p, path);
    } else if p in s.policies {
      Evolution(s, e, p, limits);
      if UpdatesPolicy(s, e, p, limits) || Restarts(s, e, limits) {
        ChangeAddsNoCandidate(s, e, p, t, path, limits);
      } else {
        StepIsSteady(s, e, p, limits);
      }
    } else {
      StepKeys(s, e, limits);
      if p in t.policies {
        CreatedRecord(s, e.op.creation, p, e.now, limits);
        NothingFound(path);
      }
    }
  }

  lemma NothingFound(path: Id)
    ensures Find([], path).None?
  {
  }

  // --- evidence -----------------------------------------------------------

  lemma {:induction false} ApplyAllPaths(store: Store, batch: seq<Publication>, nows: seq<Ticks>, a: Admission,
                                         path: Id)
    requires |nows| == |batch| && (forall i :: 0 <= i < |batch| ==> batch[i].value.Metric?)
    requires (forall k :: k in store.series ==> k.path != path) && (forall x :: x in batch ==> x.path != path)
    ensures forall k :: k in ApplyAll(store, batch, nows, a).series ==> k.path != path
    decreases |batch|
  {
    hide NextSeries;
    if batch != [] {
      assert batch[0] in batch;
      ApplyAllPaths(Applied(store, batch[0], nows[0], a), batch[1..], nows[1..], a, path);
    }
  }

  lemma PublishNeedsSample(s: State, batch: seq<Timed>, ctx: Context, fingerprint: Id, limits: Limits, path: Id)
    requires !HasEvidence(s, path) && (forall x :: x in batch ==> x.sample.path != path)
    ensures !HasEvidence(PublishStep(s, batch, ctx, fingerprint, limits).state, path)
  {
    hide ApplyAll, IndexSources, Logged, Validate, CallerRefusal, Replay;
    if PublishRefusal(s, batch, ctx, fingerprint, limits).None? {
      var a := AdmissionOf(s, ctx.publisher, limits);
      ValidatedIsWellFormed(s.evidence, map[], Samples(batch), a);
      forall x | x in Samples(batch)
        ensures x.path != path
      {
        var i :| 0 <= i < |batch| && Samples(batch)[i] == x;
        assert batch[i] in batch;
      }
      ApplyAllPaths(s.evidence, Samples(batch), Readings(batch), a, path);
    }
  }

  lemma EvidenceNeedsPublication(s: State, e: Event, path: Id, limits: Limits)
    requires Keyed(s) && !HasEvidence(s, path) && !PublishesFor(e, path)
    ensures !HasEvidence(After(s, e, limits), path)
  {
    hide RegisterStep, FenceStep, CreateStep, UpdateStep, TransitionStep, RevokeStep, UpstreamStep, PublishStep,
         CommitStep, RollbackStep, Recovered, BuildDurable, RecoveryRefusal;
    if e.op.Publish? {
      PublishNeedsSample(s, e.op.batch, e.op.context, e.op.fingerprint, limits, path);
    } else if Restarts(s, e, limits) {
      RecoveredFacts(Stripped(BuildDurable(s, e.op.saved)), e.now, limits);
    } else {
      StepCounters(s, e, limits);
    }
  }

  // --- runs ---------------------------------------------------------------

  // Some step of the run is a registration that brings the incarnation into
  // force, which it was not before the step.
  ghost predicate EverRegisters(s: State, es: seq<Event>, publisher: Id, boot: Id, limits: Limits)
    decreases |es|
  {
    es != [] && var t := After(s, es[0], limits);
    (Registers(es[0], publisher, boot) && !Registered(s, publisher, boot) && Registered(t, publisher, boot))
    || EverRegisters(t, es[1..], publisher, boot, limits)
  }

  // Some step of the run is a declaration that makes the path a candidate.
  ghost predicate EverDeclares(s: State, es: seq<Event>, p: Id, path: Id, limits: Limits)
    decreases |es|
  {
    es != [] && var t := After(s, es[0], limits);
    (Declares(es[0], p, path) && CandidateOf(s, p, path).None? && CandidateOf(t, p, path).Some?)
    || EverDeclares(t, es[1..], p, path, limits)
  }

  // Some step of the run is a publication that leaves the first evidence for the
  // path.
  ghost predicate EverPublishes(s: State, es: seq<Event>, path: Id, limits: Limits)
    decreases |es|
  {
    es != [] && var t := After(s, es[0], limits);
    (PublishesFor(es[0], path) && !HasEvidence(s, path) && HasEvidence(t, path))
    || EverPublishes(t, es[1..], path, limits)
  }

  lemma {:induction false} RunNeedsEvents(
    s: State, es: seq<Event>, publisher: Id, boot: Id, p: Id, path: Id, limits: Limits)
    requires Keyed(s)
    ensures !Registered(s, publisher, boot) && Registered(Exec(s, es, limits), publisher, boot) ==>
              EverRegisters(s, es, publisher, boot, limits)
    ensures CandidateOf(s, p, path).None? && CandidateOf(Exec(s, es, limits), p, path).Some? ==>
              EverDeclares(s, es, p, path, limits)
    ensures !HasEvidence(s, path) && HasEvidence(Exec(s, es, limits), path) ==> EverPublishes(s, es, path, limits)
    decreases |es|
  {
    hide After, Registered, Registers, CandidateOf, Declares, HasEvidence, PublishesFor, Keyed;
    if es != [] {
      KeyedStep(s, es[0], limits);
      RunNeedsEvents(After(s, es[0], limits), es[1..], publisher, boot, p, path, limits);
      if !Registered(s, publisher, boot) && !Registers(es[0], publisher, boot) {
        RegistrationNeedsEvent(s, es[0], publisher, boot, limits);
      }
      if CandidateOf(s, p, path).None? && !Declares(es[0], p, path) {
        CandidateNeedsDeclaration(s, es[0], p, path, limits);
      }
      if !HasEvidence(s, path) && !PublishesFor(es[0], path) {
        EvidenceNeedsPublication(s, es[0], path, limits);
      }
    }
  }

  // --- the evaluated target has evidence ----------------------------------

  lemma SnapshotWellFiled(s: State, p: Id)
    requires p in s.policies && PolicyOk(s.policies[p])
    ensures var r := s.policies[p];
            WellFiled(Captured(s.evidence, r.candidates, r.policy.semantics.evidence)) && DistinctPaths(r.candidates)
  {
    hide AnchorOk, Captured, AggregateFor;
    var r := s.policies[p];
    var sem := r.policy.semantics;
    var m := Captured(s.evidence, r.candidates, sem.evidence);
    assert sem.EvidenceValid();
    LessIsDistinct(r.candidates);
    forall k | k in m && m[k].value.Metric?
      ensures m[k].value.kind == k.kind
    {
      SnapshotIsExact(s.evidence, r.candidates, sem.evidence, k);
      var q := RequirementFor(sem.evidence, k.kind);
      ResolvedKind(s.evidence, k.path, q.value);
    }
  }

  lemma FoundHasEvidence(s: State, p: Id, path: Id, kind: MetricKind, now: Ticks)
    requires p in s.policies && PolicyOk(s.policies[p])
    requires var sem := s.policies[p].policy.semantics;
             TermLookup(kind, sem.evidence, InputsOf(s, p, now).evidence, path, now).Found?
    ensures HasEvidence(s, path)
  {
    hide AnchorOk, Captured, Summarize;
    var r := s.policies[p];
    var sem := r.policy.semantics;
    assert sem.EvidenceValid();
    LessIsDistinct(r.candidates);
    SnapshotIsExact(s.evidence, r.candidates, sem.evidence, Slot(path, kind));
    var q := RequirementFor(sem.evidence, kind).value;
    var k := Chosen(s.evidence, path, q).value;
    assert Usable(s.evidence, path, q, k);
  }

  lemma BegunTargetIsBacked(s: State, p: Id, now: Ticks)
    requires p in s.policies && PolicyOk(s.policies[p]) && Decide(InputsOf(s, p, now)).lifecycle == ELIGIBLE
    ensures var target := Decide(InputsOf(s, p, now)).target;
            HasEvidence(s, target) && CandidateOf(s, p, target).Some?
  {
    hide AnchorOk, Decide, Captured, HasEvidence, TermLookup, Find, BindingRefusal;
    var r := s.policies[p];
    var i := InputsOf(s, p, now);
    InputsAre(s, p, now);
    SnapshotWellFiled(s, p);
    assert r.policy.semantics.objective.Valid();
    EligibleTargetIsBacked(i);
    var c :| PathOf(c) == Decide(i).target && Backed(i, c);
    FindIsMember(r.candidates, c);
    FoundHasEvidence(s, p, PathOf(c), r.policy.semantics.objective.terms[0].kind, now);
  }

  lemma FindIsMember(cs: seq<Candidate>, c: Candidate)
    requires c in cs
    ensures Find(cs, PathOf(c)).Some?
  {
    var i :| 0 <= i < |cs| && cs[i] == c;
  }

  // ------------------------------------------------------------------------
  // Nothing commits before a fresh start
  // ------------------------------------------------------------------------

  // A world without registrations, bindings of the policy and evidence.
  ghost predicate Fresh(s: State, p: Id)
  {
    s.registrations == map[] && s.evidence.series == map[] && (p in s.policies ==> s.policies[p].candidates == [])
  }

  lemma RestartIsFresh(s: State, saved: SaveTimes, now: Ticks, p: Id, limits: Limits)
    requires Keyed(s) && RecoveryRefusal(Stripped(BuildDurable(s, saved)), limits).None?
    ensures Fresh(RestartStep(s, saved, now, limits).state, p)
  {
    hide BuildDurable, RestoredRecords, Recovered, RecoveryRefusal;
    RecoveredFacts(Stripped(BuildDurable(s, saved)), now, limits);
    RestartKeys(s, saved, now, limits);
    if p in s.policies {
      RestartAt(s, saved, now, limits, p);
    }
  }

  ghost predicate FreshStart(
    s: State, es: seq<Event>, n: nat, publisher: Id, boot: Id, p: Id, target: Id, limits: Limits)
    requires n <= |es|
  {
    && EverRegisters(s, es, publisher, boot, limits)
    && EverDeclares(s, es[..n], p, target, limits) && EverPublishes(s, es[..n], target, limits)
  }

  // In a run that starts in such a world, a commit of a ticket begun after the
  // first n steps is preceded by a registration of its caller, and its
  // evaluation by a declaration of the target and a publication for it, each of
  // them one that was accepted and took effect.
  lemma NothingCommitsBeforeFreshStart(
    s: State, es: seq<Event>, n: nat, p: Id, ctx: Context, begun: Ticks, ticket: Ticket, e: Event, limits: Limits)
    requires StateOk(s) && Fresh(s, p) && n <= |es|
    requires Presents(Exec(s, es[..n], limits), p, ctx, begun, ticket, e) && Commits(Exec(s, es, limits), e, p, limits)
    ensures FreshStart(s, es, n, e.op.context.publisher, e.op.context.boot, p, ticket.verdict.target, limits)
  {
    hide After, Exec, Presents, Commits, CandidateOf, HasEvidence, PolicyOk, Registered;
    var w, u := Exec(s, es[..n], limits), Exec(s, es, limits);
    ExecOk(s, es[..n], limits);
    CommitFacts(w, u, p, ctx, begun, ticket, e, limits);
    BegunTargetIsBacked(w, p, begun);
    FreshHasNothing(s, p, ticket.verdict.target, e.op.context.publisher, e.op.context.boot);
    RunNeedsEvents(s, es, e.op.context.publisher, e.op.context.boot, p, ticket.verdict.target, limits);
    RunNeedsEvents(s, es[..n], e.op.context.publisher, e.op.context.boot, p, ticket.verdict.target, limits);
  }

  lemma FreshHasNothing(s: State, p: Id, path: Id, publisher: Id, boot: Id)
    requires Fresh(s, p)
    ensures !Registered(s, publisher, boot) && CandidateOf(s, p, path).None? && !HasEvidence(s, path)
  {
  }

  lemma CommitFacts(
    w: State, u: State, p: Id, ctx: Context, begun: Ticks, ticket: Ticket, e: Event, limits: Limits)
    requires Presents(w, p, ctx, begun, ticket, e) && Commits(u, e, p, limits)
    ensures e.op.Commit? && Registered(u, e.op.context.publisher, e.op.context.boot)
    ensures p in w.policies && ticket.verdict == Decide(InputsOf(w, p, begun)) && ticket.verdict.lifecycle == ELIGIBLE
  {
    hide Decide, InputsOf, CommitRefusal, VerifyRefusal, BeginRefusal, Drift, DependenciesOf;
    CommitAccepted(u, ticket, e.op.context, e.op.fingerprint);
    CommitNeedsPolicy(u, ticket, e.op.context, e.op.fingerprint);
    BeginFacts(w, p, ctx, ticket.decision, begun);
  }
}
