// What a commit rests on: its target passes every eligibility gate in the very
// state it is committed in (src/fabric_evaluate.cpp).

module Backing {
  import opened Base
  import opened Evidence
  import opened Outcomes
  import opened Policy
  import opened Records
  import opened Ranking
  import opened Evaluation
  import opened Durable
  import opened Fabric
  import opened Runs
  import opened Fencing
  import opened Moves
  import opened Invariants
  import opened Choice
  import Recovery

  // The path is a candidate and the eligibility pass accepts it on the evidence
  // and bindings of this state.
  ghost predicate EligibleAt(s: State, p: Id, path: Id, clock: Ticks)
  {
    && p in s.policies && CandidateOf(s, p, path).Some?
    && var r := s.policies[p];
       var sem := r.policy.semantics;
       Judge(sem, CandidateOf(s, p, path).value, Captured(s.evidence, r.candidates, sem.evidence), clock).eligible
  }

  lemma FoundDistinct(cs: seq<Candidate>, c: Candidate)
    requires DistinctPaths(cs) && c in cs
    ensures Find(cs, PathOf(c)) == Some(c)
  {
    var i :| 0 <= i < |cs| && cs[i] == c;
  }

  lemma BegunTargetIsEligible(s: State, p: Id, clock: Ticks)
    requires p in s.policies && PolicyOk(s.policies[p]) && Decide(InputsOf(s, p, clock)).lifecycle == ELIGIBLE
    ensures EligibleAt(s, p, Decide(InputsOf(s, p, clock)).target, clock)
  {
    hide AnchorOk, Decide, Captured, Judge, Judged, Ranked, FirstEligible, Shaped, RanksAhead, Find;
    var r := s.policies[p];
    var sem := r.policy.semantics;
    var evidence := Captured(s.evidence, r.candidates, sem.evidence);
    var judged := Judged(sem, r.candidates, evidence, clock);
    Recovery.SnapshotWellFiled(s, p);
    EligibleIsBest(InputsOf(s, p, clock));
    JudgedIsShaped(sem, r.candidates, evidence, clock);
    ChosenIsBest(judged, sem.objective);
    var best := FirstEligible(Ranked(judged, sem.objective)).value;
    JudgedAt(sem, r.candidates, evidence, clock, best);
    var c :| c in r.candidates && Judge(sem, c, evidence, clock) == best;
    JudgeIsShaped(sem, c, evidence, clock);
    FoundDistinct(r.candidates, c);
  }

  // The evidence captured depends on the store and on the candidate paths only.
  lemma {:induction false} CapturedByPaths(store: Store, a: seq<Candidate>, b: seq<Candidate>, rs: seq<Requirement>)
    requires |a| == |b| && forall i :: 0 <= i < |a| ==> PathOf(a[i]) == PathOf(b[i])
    ensures Captured(store, a, rs) == Captured(store, b, rs)
    decreases |a|
  {
    hide CapturedFor;
    if a != [] {
      CapturedByPaths(store, a[..|a| - 1], b[..|b| - 1], rs);
    }
  }

  lemma StepKeepsSemantics(s: State, e: Event, p: Id, limits: Limits)
    requires Keyed(s) && p in s.policies && !UpdatesPolicy(s, e, p, limits)
    ensures p in After(s, e, limits).policies
    ensures After(s, e, limits).policies[p].policy.semantics == s.policies[p].policy.semantics
  {
    hide After, CommitsTicket, RollbackRefusal, RestoreRefusal, UpdateRefusal, RecoveryRefusal, BuildDurable,
         RestoredTiming, SavedTiming, CommittedPreference, RestoredPreference, Armed, Anchored;
    Evolution(s, e, p, limits);
  }

  // Short of exhaustion an undisturbed step leaves the evidence alone.
  lemma StepKeepsEvidence(s: State, e: Event, p: Id, limits: Limits)
    requires !Disturbs(s, e, p, limits) && Next(s.evidenceGeneration).Some?
    ensures After(s, e, limits).evidence == s.evidence
    ensures After(s, e, limits).evidenceGeneration == s.evidenceGeneration
  {
    hide RegisterStep, FenceStep, AdvanceEpochStep, CreateStep, UpdateStep, TransitionStep, RevokeStep, UpstreamStep,
         CommitStep, RollbackStep, RestartStep, PublishRefusal, UpdatesPolicy, Restarts;
    StepCounters(s, e, limits);
  }

  lemma {:induction false} UndisturbedKeeps(s: State, es: seq<Event>, p: Id, limits: Limits)
    requires Keyed(s) && p in s.policies && Undisturbed(s, es, p, limits) && Next(s.evidenceGeneration).Some?
    ensures Exec(s, es, limits).evidence == s.evidence && p in Exec(s, es, limits).policies
    ensures Exec(s, es, limits).policies[p].policy.semantics == s.policies[p].policy.semantics
    decreases |es|
  {
    hide After, OpensEpoch, AcceptsEvidence, UpdatesPolicy;
    if es != [] {
      StepKeepsEvidence(s, es[0], p, limits);
      StepKeepsSemantics(s, es[0], p, limits);
      KeyedStep(s, es[0], limits);
      UndisturbedKeeps(After(s, es[0], limits), es[1..], p, limits);
    }
  }

  lemma PathsStayed(s: State, t: State, p: Id)
    requires p in s.policies && p in t.policies
    requires Drift(t.policies[p].candidates, DependenciesOf(s, p)).None?
    ensures |t.policies[p].candidates| == |s.policies[p].candidates|
    ensures forall i :: 0 <= i < |s.policies[p].candidates| ==>
              PathOf(t.policies[p].candidates[i]) == PathOf(s.policies[p].candidates[i])
  {
    DriftIsExact(t.policies[p].candidates, DependenciesOf(s, p));
  }

  lemma SameEligibility(s: State, t: State, p: Id, path: Id, clock: Ticks)
    requires EligibleAt(s, p, path, clock) && p in t.policies && t.evidence == s.evidence
    requires t.policies[p].policy.semantics == s.policies[p].policy.semantics
    requires CandidateOf(t, p, path) == CandidateOf(s, p, path)
    requires Drift(t.policies[p].candidates, DependenciesOf(s, p)).None?
    ensures EligibleAt(t, p, path, clock)
  {
    hide Judge, Captured, Drift, DependenciesOf;
    PathsStayed(s, t, p);
    CapturedByPaths(s.evidence, s.policies[p].candidates, t.policies[p].candidates,
                    s.policies[p].policy.semantics.evidence);
  }

  // If a ticket commits after any run of steps, its target passes every binding
  // and evidence gate, at the clock reading of the evaluation, not only in the
  // state the evaluation saw but in the state the commit changes: unless the
  // target was re-declared, re-weighted or relieved of a hard-failure signal in
  // between, or a path was invalidated 2^64 times, or the evidence generation
  // was exhausted.
  lemma CommittedTargetIsEligible(
    s: State, es: seq<Event>, p: Id, ctx: Context, begun: Ticks, ticket: Ticket, e: Event, limits: Limits)
    requires StateOk(s) && IndexedAt(s, p) && Next(s.evidenceGeneration).Some?
    requires Presents(s, p, ctx, begun, ticket, e) && Commits(Exec(s, es, limits), e, p, limits)
    requires TotalTouches(s, es, ticket.verdict.target, limits) < TWO_64
    requires !EverRebinds(s, es, p, ticket.verdict.target, limits)
    ensures EligibleAt(Exec(s, es, limits), p, ticket.verdict.target, begun)
  {
    hide After, Exec, Presents, Commits, PolicyOk, EligibleAt, TotalTouches, EverRebinds, Undisturbed, Drift,
         DependenciesOf, CandidateOf, Reaches;
    var t := Exec(s, es, limits);
    PresentedFacts(s, p, ctx, begun, ticket, t, e, limits);
    Recovery.CommitFacts(s, t, p, ctx, begun, ticket, e, limits);
    BegunTargetIsEligible(s, p, begun);
    CommitIsFenced(s, es, p, ctx, begun, ticket, e, limits);
    HeldIsCandidate(s, t, p, ticket.verdict.target);
    FencedCandidateUnchanged(s, es, p, ctx, begun, ticket, e, limits, ticket.verdict.target);
    UndisturbedKeeps(s, es, p, limits);
    SameEligibility(s, t, p, ticket.verdict.target, begun);
  }

  lemma HeldIsCandidate(s: State, t: State, p: Id, target: Id)
    requires TargetHeld(s, t, p, target)
    ensures CandidateOf(s, p, target).Some?
  {
  }
}
