// When a commit succeeds and what it leaves, told from the records alone
// (src/fabric_evaluate.cpp).

module Commitment {
  import opened Base
  import opened Metrics
  import opened Scoring
  import opened Evidence
  import opened Outcomes
  import opened Policy
  import opened Records
  import opened Ranking
  import opened Evaluation
  import opened Indexing
  import opened Durable
  import opened Fabric
  import opened Runs
  import opened Fencing
  import opened Callers
  import opened Moves
  import opened Invariants
  import opened Merit
  import opened Verdicts
  import Hysteresis
  import Recovery
  import Choice

  // ------------------------------------------------------------------------
  // When
  // ------------------------------------------------------------------------

  // The attempt is named and nothing is remembered under its name.
  ghost predicate Unused(s: State, attempt: Id) { ValidId(attempt) && attempt !in s.attempts.entries }

  lemma UnusedIsExact(s: State, attempt: Id, fingerprint: Id)
    ensures match Replay(s, attempt, fingerprint)
            case None => Unused(s, attempt)
            case Some(outcome) =>
              !Unused(s, attempt) && outcome in {MALFORMED_REQUEST, IDEMPOTENT, ATTEMPT_CONFLICT}
  {
  }

  // Epoch, authority and policy generations are the recorded ones.
  ghost predicate SameStanding(s: State, r: PolicyRecord, d: Dependencies)
  {
    && s.epoch == d.epoch && s.authorityGeneration == d.authorityGeneration
    && r.policy.lifecycle == Active && r.policy.generation == d.policyGeneration
  }

  // Nothing the evaluation recorded has changed since.
  ghost predicate Undrifted(s: State, d: Dependencies)
    requires Fencing.Complete(d)
  {
    && s.evidenceGeneration == d.evidenceGeneration && s.evidence.watermark == d.evidenceWatermark
    && d.policy in s.policies
    && var r := s.policies[d.policy];
       && SameStanding(s, r, d)
       && |r.candidates| == |d.paths|
       && forall i :: 0 <= i < |r.candidates| ==>
            var b := r.candidates[i].binding;
            && b.path == d.paths[i] && r.candidates[i].watermark == d.watermarks[i]
            && b.authority.generation == d.authorities[i].generation && b.authority.legal == d.authorities[i].legal
  }

  lemma DriftOutcomes(cs: seq<Candidate>, d: Dependencies, i: nat)
    requires i <= |cs| == |d.paths|
    ensures DriftFrom(cs, d, i) != Some(DECISION_COMMITTED)
    decreases |cs| - i
  {
    if i < |cs| {
      DriftOutcomes(cs, d, i + 1);
    }
  }

  lemma DependencyIsExact(s: State, d: Dependencies)
    requires Fencing.Complete(d) && d.policy in s.policies
    ensures var r := s.policies[d.policy]; var refusal := DependencyRefusal(s, r, d);
            && (SameStanding(s, r, d) ==> (refusal.None? <==> Undrifted(s, d)))
            && refusal != Some(DECISION_COMMITTED)
  {
    hide DriftFrom;
    var r := s.policies[d.policy];
    DriftIsExact(r.candidates, d);
    if |r.candidates| == |d.paths| {
      DriftOutcomes(r.candidates, d, 0);
    }
  }

  // What the drift check answers is so: the paths are others, or some candidate
  // moved, and where its set or route is named, that is not the recorded one.
  lemma {:induction false} DriftIsTrue(cs: seq<Candidate>, d: Dependencies, i: nat)
    requires Fencing.Complete(d) && i <= |cs| == |d.paths|
    ensures match DriftFrom(cs, d, i)
            case None => true
            case Some(outcome) =>
              && outcome in {REVALIDATION_REQUIRED, STALE_PATH_AUTHORITY, STALE_MULTIPATH_SET, STALE_ROUTE}
              && exists k :: i <= k < |cs| && DriftReason(cs[k], d, k, outcome)
    decreases |cs| - i
  {
    if i < |cs| {
      DriftIsTrue(cs, d, i + 1);
    }
  }

  ghost predicate DriftReason(c: Candidate, d: Dependencies, k: nat, outcome: Outcome)
    requires Fencing.Complete(d) && k < |d.paths|
  {
    var same := c.binding.authority.generation == d.authorities[k].generation
                && c.binding.authority.legal == d.authorities[k].legal;
    && (outcome == REVALIDATION_REQUIRED <==> PathOf(c) != d.paths[k])
    && (outcome == STALE_PATH_AUTHORITY ==> !same || c.watermark != d.watermarks[k])
    && (outcome == STALE_ROUTE ==>
          same && c.watermark != d.watermarks[k] && c.binding.route.generation != d.routeGeneration)
    && (outcome == STALE_MULTIPATH_SET ==>
          && same && c.watermark != d.watermarks[k] && c.binding.multipath.Some?
          && (!c.binding.multipath.value.current || d.setGeneration == 0
              || c.binding.multipath.value.generation != d.setGeneration))
  }

  // The recorded route generation is that of the last candidate that has one, the
  // recorded set generation that of the first candidate.
  lemma {:induction false} RouteIsRecorded(cs: seq<Candidate>)
    ensures var g := RouteGenerationOf(cs);
            if forall k :: 0 <= k < |cs| ==> cs[k].binding.route.generation == 0 then g == 0
            else exists k :: 0 <= k < |cs| && LastRoute(cs, k) && g == cs[k].binding.route.generation
  {
    if cs != [] && cs[|cs| - 1].binding.route.generation == 0 {
      var init := cs[..|cs| - 1];
      RouteIsRecorded(init);
      if !(forall k :: 0 <= k < |init| ==> init[k].binding.route.generation == 0) {
        var k :| 0 <= k < |init| && LastRoute(init, k) && RouteGenerationOf(init) == init[k].binding.route.generation;
        assert forall j :: k < j < |init| ==> cs[j] == init[j];
        assert LastRoute(cs, k) && init[k] == cs[k];
      }
    } else if cs != [] {
      assert LastRoute(cs, |cs| - 1);
    }
  }

  ghost predicate LastRoute(cs: seq<Candidate>, k: nat)
    requires k < |cs|
  {
    cs[k].binding.route.generation != 0 && forall j :: k < j < |cs| ==> cs[j].binding.route.generation == 0
  }

  // The re-verification passes exactly for a live caller, a new attempt and a
  // policy that is as it was recorded.
  lemma ReverificationIsExact(s: State, t: Ticket, ctx: Context, fingerprint: Id)
    requires t.verdict.lifecycle == ELIGIBLE && Fencing.Complete(t.dependencies)
    ensures CommitRefusal(s, t, ctx, fingerprint).None? <==>
              && ValidId(t.dependencies.policy) && Live(s, ctx) && Undrifted(s, t.dependencies)
              && Unused(s, ctx.attempt)
    ensures CommitRefusal(s, t, ctx, fingerprint) != Some(DECISION_COMMITTED)
  {
    hide CallerRefusal, DependencyRefusal, Replay, Live, Unused;
    CallerIsExact(s, ctx, Target(NO_ID, None));
    CallerOutcomes(s, ctx);
    UnusedIsExact(s, ctx.attempt, fingerprint);
    if t.dependencies.policy in s.policies {
      DependencyIsExact(s, t.dependencies);
    }
  }

  lemma CallerOutcomes(s: State, ctx: Context)
    ensures CallerRefusal(s, ctx, None, None) != Some(DECISION_COMMITTED)
  {
  }

  // The hold-down extended by the penalty up to its cap; product and sum wrap.
  function Extended(sem: Semantics, penalty: u32): int
  {
    var sum := (sem.holdDown + (penalty * sem.dampening.escalation) % TWO_64) % TWO_64;
    if sum <= sem.dampening.maxHoldDown then sum else sem.dampening.maxHoldDown
  }

  // The hold-down in force: without dampening or penalty it is the declared one.
  function HoldDownInForce(sem: Semantics, penalty: u32): int
  {
    if sem.dampening.enabled && penalty != 0 then Extended(sem, penalty) else sem.holdDown
  }

  // The target is where the last change came from, and its hold-down still runs.
  ghost predicate HeldBack(r: PolicyRecord, target: Id, now: Ticks)
  {
    && r.timing.holdDownActive && ValidId(r.preference.previous) && r.preference.previous == target
    && HoldDownInForce(r.policy.semantics, r.timing.penalty) != 0 && now < r.timing.holdDownDeadline
  }

  // Cooldown, reverse hold-down and churn bound let an ordinary move through.
  ghost predicate Unsuppressed(r: PolicyRecord, target: Id, now: Ticks)
  {
    var sem, t := r.policy.semantics, r.timing;
    && (t.cooldownActive ==> t.cooldownDeadline <= now)
    && !HeldBack(r, target, now)
    && (sem.churn.max != 0 ==> |Stamped(t.churn, now, sem.churn.window)| < sem.churn.max)
  }

  // The target is a candidate, legal at the authority the ticket names.
  ghost predicate Bindable(r: PolicyRecord, v: Verdict)
  {
    exists c :: c in r.candidates && PathOf(c) == v.target && c.binding.authority.legal
                && (v.targetAuthority == 0 || c.binding.authority.generation == v.targetAuthority)
  }

  // Policies whose hold-down still runs.
  ghost function Waiting(s: State, now: Ticks): set<Id>
  {
    set id | id in s.policies && s.policies[id].timing.holdDownActive && now < s.policies[id].timing.holdDownDeadline
  }

  // The coordinator has room for one more move of the policy.
  ghost predicate Roomy(s: State, r: PolicyRecord, now: Ticks, limits: Limits)
  {
    |Waiting(s, now)| < limits.maxPending
    && r.preference.adaptation != 0xFFFF_FFFF_FFFF_FFFF && r.preference.transition != 0xFFFF_FFFF_FFFF_FFFF
  }

  // The answer names a predicate that holds.
  lemma SuppressionIsExact(r: PolicyRecord, v: Verdict, now: Ticks)
    ensures SuppressedNow(r, v, now).None? <==> v.emergency || Unsuppressed(r, v.target, now)
    ensures match SuppressedNow(r, v, now)
            case None => true
            case Some(outcome) =>
              && (outcome == HOLD_DOWN_ACTIVE <==> HeldBack(r, v.target, now))
              && (outcome == COOLDOWN_ACTIVE ==> r.timing.cooldownActive && now < r.timing.cooldownDeadline)
              && (outcome == CHURN_LIMIT_REACHED ==>
                    && r.policy.semantics.churn.max != 0
                    && r.policy.semantics.churn.max
                         <= |Stamped(r.timing.churn, now, r.policy.semantics.churn.window)|)
              && outcome in {HOLD_DOWN_ACTIVE, COOLDOWN_ACTIVE, CHURN_LIMIT_REACHED}
  {
    hide Recent, Stamped, Escalated, Extended;
    EscalatedIs(r.policy.semantics, r.timing.penalty);
    RecentIsExact(r.timing.churn, now, r.policy.semantics.churn.window);
  }

  lemma WaitingIsPending(s: State, now: Ticks)
    ensures Pending(s, now) == |Waiting(s, now)|
  {
    assert (set id | id in s.policies && HeldDown(s.policies[id], now)) == Waiting(s, now);
  }

  lemma VerificationIsExact(s: State, r: PolicyRecord, v: Verdict, now: Ticks, limits: Limits)
    requires Choice.DistinctPaths(r.candidates)
    ensures VerifyRefusal(s, r, v, now, limits).None? <==>
              (v.emergency || Unsuppressed(r, v.target, now)) && Bindable(r, v) && Roomy(s, r, now, limits)
    ensures VerifyRefusal(s, r, v, now, limits) != Some(DECISION_COMMITTED)
  {
    hide SuppressedNow, Unsuppressed, Pending, Waiting, Find, Choice.DistinctPaths;
    SuppressionIsExact(r, v, now);
    WaitingIsPending(s, now);
    FindIsExact(r.candidates, v.target);
  }

  // The policy would change its preference.
  ghost predicate Changes(r: PolicyRecord, target: Id)
  {
    !r.preference.established || r.preference.preferred != target
  }

  // A re-verified ticket that asks for a move is committed exactly when the
  // target is still legal at the recorded authority, there is room for the move,
  // and either the ticket is an emergency or cooldown, reverse hold-down and
  // churn bound all let it through.
  lemma PermissionIsExact(
    s: State, t: Ticket, ctx: Context, fingerprint: Id, minted: Minted, now: Ticks, limits: Limits)
    requires t.verdict.lifecycle == ELIGIBLE && CommitRefusal(s, t, ctx, fingerprint).None?
    requires t.dependencies.policy in s.policies && Changes(s.policies[t.dependencies.policy], t.verdict.target)
    requires Choice.DistinctPaths(s.policies[t.dependencies.policy].candidates)
    ensures var r := s.policies[t.dependencies.policy];
            CommitStep(s, t, ctx, fingerprint, minted, now, limits).outcome == DECISION_COMMITTED <==>
              && Bindable(r, t.verdict) && Roomy(s, r, now, limits)
              && (t.verdict.emergency || Unsuppressed(r, t.verdict.target, now))
  {
    hide CommitRefusal, VerifyRefusal, Committed, Recorded, Bindable, Roomy, Unsuppressed, SuppressionNoted;
    VerificationIsExact(s, s.policies[t.dependencies.policy], t.verdict, now, limits);
  }

  // Every condition under which an eligible ticket moves the preference.
  ghost predicate Admits(s: State, t: Ticket, ctx: Context, now: Ticks, limits: Limits)
    requires Fencing.Complete(t.dependencies)
  {
    && ValidId(t.dependencies.policy) && Live(s, ctx) && Unused(s, ctx.attempt) && Undrifted(s, t.dependencies)
    && var r, v := s.policies[t.dependencies.policy], t.verdict;
       && Changes(r, v.target) && Bindable(r, v) && Roomy(s, r, now, limits)
       && (v.emergency || Unsuppressed(r, v.target, now))
  }

  ghost predicate PathsDistinct(s: State)
  {
    forall p :: p in s.policies ==> Choice.DistinctPaths(s.policies[p].candidates)
  }

  // The whole condition, re-verification included.
  lemma CommitIsExact(s: State, t: Ticket, ctx: Context, fingerprint: Id, minted: Minted, now: Ticks, limits: Limits)
    requires t.verdict.lifecycle == ELIGIBLE && Fencing.Complete(t.dependencies) && PathsDistinct(s)
    ensures CommitStep(s, t, ctx, fingerprint, minted, now, limits).outcome == DECISION_COMMITTED <==>
              Admits(s, t, ctx, now, limits)
  {
    hide CommitRefusal, VerifyRefusal, Committed, Recorded, Bindable, Roomy, Unsuppressed, Live, Unused,
         Choice.DistinctPaths, SuppressionNoted;
    ReverificationIsExact(s, t, ctx, fingerprint);
    if CommitRefusal(s, t, ctx, fingerprint).None? {
      var r := s.policies[t.dependencies.policy];
      VerificationIsExact(s, r, t.verdict, now, limits);
      if Changes(r, t.verdict.target) {
        PermissionIsExact(s, t, ctx, fingerprint, minted, now, limits);
      }
    }
  }

  // ------------------------------------------------------------------------
  // What
  // ------------------------------------------------------------------------

  // The record of the preference after a move to the candidate.
  ghost predicate Prefers(q: Preference, p: Preference, b: Binding, now: Ticks)
  {
    && q.preferred == b.path && q.established == true && q.committedAt == now
    && q.authorityGeneration == b.authority.generation && q.routeGeneration == b.route.generation
    && q.setGeneration == (if b.multipath.Some? then b.multipath.value.generation else p.setGeneration)
    && q.route == p.route
    && q.adaptation == p.adaptation + 1 && q.transition == p.transition + 1
  }

  // What was preferred becomes the anchor.
  ghost predicate Anchors(a: Stable, p: Preference, now: Ticks)
  {
    && a.established && a.path == p.preferred && a.stabilizedAt == now
    && a.authorityGeneration == p.authorityGeneration && a.routeGeneration == p.routeGeneration
    && a.setGeneration == p.setGeneration && a.adaptation == p.adaptation
  }

  ghost predicate Signed(q: Provenance, ctx: Context, epoch: u64, generation: u64, cause: Cause)
  {
    && q.publisher == ctx.publisher && q.boot == ctx.boot && q.attempt == ctx.attempt
    && q.epoch == epoch && q.policyGeneration == generation && q.cause == cause
  }

  ghost predicate Recounts(entry: HistoryEntry, q: Preference, s: State, t: Ticket, minted: Minted, now: Ticks)
  {
    && entry.lifecycle == COMMITTED && entry.outcome == DECISION_COMMITTED && entry.suppression == NONE
    && entry.decision == q.decision && entry.from == q.previous && entry.to == q.preferred
    && entry.adaptation == q.adaptation && entry.epoch == s.epoch && entry.committedAt == now
    && entry.evidenceGeneration == t.dependencies.evidenceGeneration && entry.digest == minted.digest
    && entry.cause == q.provenance.cause
  }

  // The timers an adaptation arms: with dampening the penalty grows up to its cap
  // and extends the hold-down.
  ghost predicate Arms(a: Timing, sem: Semantics, t: Timing, from: Id, now: Ticks, bound: nat)
  {
    var d := sem.dampening;
    var raised := (t.penalty + d.increment) % TWO_32;
    var length := if d.enabled then Extended(sem, a.penalty) else sem.holdDown;
    && a.penalty == (if !d.enabled then t.penalty else if raised <= d.maxPenalty then raised else d.maxPenalty)
    && a.holdDownActive == (length != 0) && a.holdDownDeadline == (now + length) % TWO_64 && a.lockedPath == from
    && a.cooldownActive == (sem.cooldown != 0) && a.cooldownDeadline == (now + sem.cooldown) % TWO_64
    && a.lastDecay == (if d.enabled then now else t.lastDecay)
    && Appends(a.churn, t.churn, now, bound)
  }

  // What the commit leaves of the policy: the target preferred at its recorded
  // generations, the displaced path as previous path and rollback anchor, the
  // timers armed, one more history entry. Establishing displaces nothing.
  ghost predicate Leaves(
    s: State, t: Ticket, ctx: Context, minted: Minted, now: Ticks, limits: Limits, r': PolicyRecord)
    requires t.dependencies.policy in s.policies
  {
    var r, q := s.policies[t.dependencies.policy], r'.preference;
    var had := r.preference.established;
    && r'.policy == r.policy && r'.candidates == r.candidates && r'.revocation == r.revocation
    && (exists c :: c in r.candidates && c.binding.path == t.verdict.target
          && Prefers(q, r.preference, c.binding, now))
    && q.previous == (if had then r.preference.preferred else NO_ID)
    && q.multipath == r.policy.semantics.target.multipath && q.proposal == t.verdict.proposal
    && q.transitionId == minted.transition
    && q.decision == (if ValidId(t.decision) then t.decision else minted.decision)
    && Signed(q.provenance, ctx, s.epoch, r.policy.generation,
              if t.verdict.emergency then EMERGENCY_OVERRIDE else TRIGGER_SATISFIED)
    && (if had then Anchors(r'.stable, r.preference, now) else !r'.stable.established)
    && (if had then Arms(r'.timing, r.policy.semantics, r.timing, r.preference.preferred, now, limits.maxAdaptations)
        else r'.timing == r.timing)
    && exists entry :: Recounts(entry, q, s, t, minted, now)
                       && Appends(r'.history, r.history, entry, limits.maxHistory)
  }

  lemma EscalatedIs(sem: Semantics, penalty: u32)
    ensures Escalated(sem, penalty) == Extended(sem, penalty)
  {
  }

  lemma ArmedIs(sem: Semantics, t: Timing, from: Id, now: Ticks, limits: Limits)
    ensures Arms(Armed(sem, t, from, now, limits), sem, t, from, now, limits.maxAdaptations)
  {
    hide Base.Trimmed, Appends, Escalated, Extended;
    TrimmedAppends(t.churn, now, limits.maxAdaptations);
    EscalatedIs(sem, RaisedPenalty(sem.dampening, t.penalty));
  }

  lemma CommittedIs(s: State, c: Candidate, t: Ticket, ctx: Context, minted: Minted, now: Ticks, limits: Limits)
    requires t.dependencies.policy in s.policies
    requires var r := s.policies[t.dependencies.policy];
             && c in r.candidates && PathOf(c) == t.verdict.target
             && Next(r.preference.adaptation).Some? && Next(r.preference.transition).Some?
    ensures Leaves(s, t, ctx, minted, now, limits,
                   Committed(s.policies[t.dependencies.policy], c, t, ctx, s.epoch, minted, now, limits))
  {
    hide Armed, Arms, Base.Trimmed, Appends;
    var r := s.policies[t.dependencies.policy];
    var r' := Committed(r, c, t, ctx, s.epoch, minted, now, limits);
    ArmedIs(r.policy.semantics, r.timing, r.preference.preferred, now, limits);
    var q := r'.preference;
    var entry := HistoryEntry(q.decision, COMMITTED, DECISION_COMMITTED, NONE, CauseOf(t.verdict), q.previous,
                              q.preferred, q.adaptation, t.dependencies.evidenceGeneration, s.epoch, now,
                              minted.digest);
    TrimmedAppends(r.history, entry, limits.maxHistory);
    assert Prefers(q, r.preference, c.binding, now);
    assert Recounts(entry, q, s, t, minted, now);
  }

  // A commit that succeeds changes its policy in that way, remembers the attempt
  // and changes nothing else; one that does not leaves the policy's preference,
  // anchor and timers as they are.
  lemma CommitLeaves(s: State, t: Ticket, ctx: Context, fingerprint: Id, minted: Minted, now: Ticks, limits: Limits)
    requires t.verdict.lifecycle == ELIGIBLE
    ensures var u := CommitStep(s, t, ctx, fingerprint, minted, now, limits);
            if u.outcome == DECISION_COMMITTED then
              && t.dependencies.policy in s.policies
              && u.state.policies.Keys == s.policies.Keys
              && Leaves(s, t, ctx, minted, now, limits, u.state.policies[t.dependencies.policy])
              && (forall p :: p in s.policies && p != t.dependencies.policy ==>
                    u.state.policies[p] == s.policies[p])
              && u.state == s.(policies := u.state.policies, attempts := u.state.attempts)
            else u.state == s.(attempts := u.state.attempts)
  {
    hide CommitRefusal, VerifyRefusal, Committed, Logged, Leaves, SuppressionNoted;
    CommitNeedsPolicy(s, t, ctx, fingerprint);
    CommitRefusesOtherwise(s, t, ctx, fingerprint, now, limits);
    if CommitsTicket(s, t, ctx, fingerprint, now, limits) {
      var r := s.policies[t.dependencies.policy];
      VerifiedHasTarget(s, r, t.verdict, now, limits);
      CommittedIs(s, Find(r.candidates, t.verdict.target).value, t, ctx, minted, now, limits);
    }
  }

  lemma DriftNeverCommits(s: State, t: Ticket)
    requires t.dependencies.policy in s.policies
    ensures DependencyRefusal(s, s.policies[t.dependencies.policy], t.dependencies) != Some(DECISION_COMMITTED)
  {
    hide DriftFrom;
    var cs, d := s.policies[t.dependencies.policy].candidates, t.dependencies;
    if |cs| == |d.paths| {
      DriftOutcomes(cs, d, 0);
    }
  }

  lemma CommitRefusesOtherwise(s: State, t: Ticket, ctx: Context, fingerprint: Id, now: Ticks, limits: Limits)
    requires t.verdict.lifecycle == ELIGIBLE
    ensures CommitRefusal(s, t, ctx, fingerprint) != Some(DECISION_COMMITTED)
    ensures t.dependencies.policy in s.policies ==>
      VerifyRefusal(s, s.policies[t.dependencies.policy], t.verdict, now, limits) != Some(DECISION_COMMITTED)
  {
    hide CallerRefusal, DependencyRefusal, Replay, SuppressedNow, Pending;
    CallerOutcomes(s, ctx);
    UnusedIsExact(s, ctx.attempt, fingerprint);
    if t.dependencies.policy in s.policies {
      DriftNeverCommits(s, t);
      SuppressionIsExact(s.policies[t.dependencies.policy], t.verdict, now);
    }
  }

  // ------------------------------------------------------------------------
  // Suppressed tickets
  // ------------------------------------------------------------------------

  // A suppressed evaluation that passes re-verification leaves one history entry
  // with its reason, and moves nothing.
  lemma SuppressedIsNoted(
    s: State, t: Ticket, ctx: Context, fingerprint: Id, minted: Minted, now: Ticks, limits: Limits)
    requires t.verdict.lifecycle != ELIGIBLE && CommitRefusal(s, t, ctx, fingerprint).None?
    requires t.dependencies.policy in s.policies
    ensures var u := CommitStep(s, t, ctx, fingerprint, minted, now, limits);
            var r := s.policies[t.dependencies.policy];
            && u.outcome == t.verdict.outcome
            && u.state.policies.Keys == s.policies.Keys
            && (forall p :: p in s.policies && p != t.dependencies.policy ==> u.state.policies[p] == s.policies[p])
            && u.state == s.(policies := u.state.policies, attempts := u.state.attempts)
            && var r' := u.state.policies[t.dependencies.policy];
               r' == r.(history := r'.history)
               && exists entry :: Explains(entry, r, t) && Appends(r'.history, r.history, entry, limits.maxHistory)
  {
    hide CommitRefusal, Logged, Base.Trimmed, Appends;
    var r := s.policies[t.dependencies.policy];
    var decision := if ValidId(t.decision) then t.decision else minted.decision;
    var entry := HistoryEntry(decision, SUPPRESSED_DECISION, t.verdict.outcome, t.verdict.suppression,
                              TRIGGER_SATISFIED, r.preference.preferred, t.verdict.target, r.preference.adaptation,
                              s.evidenceGeneration, s.epoch, now, minted.digest);
    TrimmedAppends(r.history, entry, limits.maxHistory);
    assert Explains(entry, r, t);
  }

  ghost predicate Explains(entry: HistoryEntry, r: PolicyRecord, t: Ticket)
  {
    && entry.lifecycle == SUPPRESSED_DECISION && entry.outcome == t.verdict.outcome
    && entry.suppression == t.verdict.suppression && entry.from == r.preference.preferred
    && entry.to == t.verdict.target && entry.adaptation == r.preference.adaptation
  }

  // ------------------------------------------------------------------------
  // Evaluation and commit at one moment
  // ------------------------------------------------------------------------

  lemma ReleasedIsUnsuppressed(s: State, p: Id, now: Ticks, best: Id)
    requires p in s.policies && s.policies[p].policy.semantics.Valid()
    requires Released(InputsOf(s, p, now), best)
    ensures Unsuppressed(s.policies[p], best, now)
  {
    hide Stamped, Extended, Captured, Semantics.FirstDefect;
    HeldNeedsHoldDown(s.policies[p].policy.semantics, s.policies[p].timing.penalty);
  }

  lemma HeldNeedsHoldDown(sem: Semantics, penalty: u32)
    requires sem.Valid()
    ensures HoldDownInForce(sem, penalty) != 0 ==> sem.holdDown != 0
  {
    hide Extended;
    assert sem.TimersValid();
  }

  lemma BestIsBindable(s: State, p: Id, now: Ticks, c: Candidate, v: Verdict)
    requires p in s.policies && IsBest(InputsOf(s, p, now), c)
    requires v.target == PathOf(c) && v.targetAuthority == c.binding.authority.generation
    ensures Bindable(s.policies[p], v)
  {
    hide Judge, Preferable, Captured;
    AcceptedIsLegal(s.policies[p].policy.semantics, c, InputsOf(s, p, now).evidence, now);
  }

  lemma AcceptedIsLegal(sem: Semantics, c: Candidate, evidence: Snapshot, now: Ticks)
    ensures Judge(sem, c, evidence, now).eligible ==> c.binding.authority.legal
  {
    hide EvidenceGate, Gather, Score;
  }

  lemma BegunIsUndrifted(s: State, p: Id, ctx: Context)
    requires p in s.policies && BeginRefusal(s, p, ctx).None?
    ensures Undrifted(s, DependenciesOf(s, p)) && Live(s, ctx) && ValidId(p) && DependenciesOf(s, p).policy == p
    ensures Fencing.Complete(DependenciesOf(s, p))
  {
    hide TargetRefusal, Live, RouteGenerationOf;
    CallerIsExact(s, ctx, s.policies[p].policy.semantics.target);
  }

  lemma DueIsAllowed(s: State, p: Id, now: Ticks, c: Candidate)
    requires p in s.policies && Sound(InputsOf(s, p, now)) && IsBest(InputsOf(s, p, now), c)
    requires Due(InputsOf(s, p, now), PathOf(c))
    ensures var v, r := Decide(InputsOf(s, p, now)), s.policies[p];
            && v.lifecycle == ELIGIBLE && v.target == PathOf(c) && Changes(r, PathOf(c)) && Bindable(r, v)
            && (r.preference.established ==> v.emergency || Unsuppressed(r, PathOf(c), now))
            && (!r.preference.established ==> !v.emergency)
  {
    hide Decide, IsBest, Sound, Emergent, Released, Justified, Incumbent, Unsuppressed, Bindable, Captured, Clears;
    var i := InputsOf(s, p, now);
    VerdictIsExact(i, c);
    BestIsBindable(s, p, now, c, Decide(i));
    SoundIsValid(i);
    if Released(i, PathOf(c)) {
      ReleasedIsUnsuppressed(s, p, now, PathOf(c));
    }
  }

  lemma SoundInputs(s: State, p: Id, now: Ticks)
    requires p in s.policies && PolicyOk(s.policies[p])
    ensures Sound(InputsOf(s, p, now)) && Choice.DistinctPaths(s.policies[p].candidates)
  {
    hide Captured, AnchorOk, BindingsOk, Semantics.Valid, Choice.WellFiled;
    SortedBindings(s.policies[p]);
    Recovery.SnapshotWellFiled(s, p);
  }

  lemma SortedBindings(r: PolicyRecord)
    requires PolicyOk(r)
    ensures Choice.DistinctPaths(r.candidates)
  {
    hide AnchorOk, Semantics.Valid;
    Hysteresis.LessIsDistinct(r.candidates);
  }

  // A due change is made: when the best candidate is due and the policy may be
  // evaluated, evaluating and committing at one moment moves the preference
  // exactly when the attempt is new and there is room for the move; a policy
  // without a preference must also not be held back by timers it still carries.
  lemma DueChangeIsCommitted(
    s: State, p: Id, ctx: Context, fingerprint: Id, minted: Minted, now: Ticks, limits: Limits, c: Candidate)
    requires StateOk(s) && p in s.policies && BeginRefusal(s, p, ctx).None?
    requires IsBest(InputsOf(s, p, now), c) && Due(InputsOf(s, p, now), PathOf(c))
    ensures var r := s.policies[p];
            EvaluateStep(s, p, ctx, fingerprint, minted, now, now, limits).outcome == DECISION_COMMITTED <==>
              && Unused(s, ctx.attempt) && Roomy(s, r, now, limits)
              && (r.preference.established || Unsuppressed(r, PathOf(c), now))
  {
    hide CommitStep, Decide, IsBest, Due, Unsuppressed, Bindable, Live, Undrifted, Sound, BeginRefusal, DependenciesOf,
         Unused, Captured, PolicyOk, Choice.DistinctPaths, Changes, Roomy;
    SoundInputs(s, p, now);
    DistinctEverywhere(s);
    BegunIsUndrifted(s, p, ctx);
    DueIsAllowed(s, p, now, c);
    CommitIsExact(s, Begin(s, p, ctx, minted.decision, now), ctx, fingerprint, minted, now, limits);
  }

  lemma DistinctEverywhere(s: State)
    requires StateOk(s)
    ensures PathsDistinct(s)
  {
    hide PolicyOk, Choice.DistinctPaths;
    forall p | p in s.policies
      ensures Choice.DistinctPaths(s.policies[p].candidates)
    {
      SortedBindings(s.policies[p]);
    }
  }
}
