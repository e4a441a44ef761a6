# Adaptive Routing Fabric: model and proofs

A Dafny 4.11 model of the adaptation coordinator: policies that prefer one path
among legally bound candidates, evidence that justifies a change of preference,
a two-phase evaluate/commit protocol that refuses stale decisions, rollback to
the displaced path, save and recovery, and the byte formats of the store and of
the wire.

`dafny verify dfyconfig.toml` checks the whole project.

## Layout

- `Base`, `Outcomes`: machine integers with explicit wrap-around, identities and
  their order, stable outcome numbers.
- `Metrics`, `Aggregation`, `Scoring`, `Policy`: fixed-point arithmetic and
  policy validation.
- `Evidence`, `Ranking`, `Evaluation`, `Snapshots`: the evidence store with its
  two-pass batch, the candidate order, the verdict on captured inputs, and the
  snapshot as the sorted vector it is. `Sorting`: sorting by distinct keys.
- `Merit`, `Verdicts`, `Reasons`: who is eligible, who is best, when a change is
  due and why not, told from bindings, readings and rules without the functions
  that compute it.
- `Records`, `Indexing`, `Durable`, `Fabric`: the state and every operation as
  one atomic step on it. Each public method takes the lock, so a step is a call.
- `Engine`: the coordinator as a class whose methods change the fields in place;
  each is proved to do what its step says, and each public operation to keep the
  state invariant, except loading a store: `Loading` says which stores do.
- `Callers`, `Requests`, `Notices`, `Publishing`, `Commitment`, `Attempts`: when
  each operation succeeds and what it leaves, told from the fields of the records
  without the functions the steps are made of.
- `Runs`: sequences of steps. `Fencing`, `Escapes`, `Backing`, `Moves`,
  `Invariants`, `Anchor`, `Timers`, `ChurnWindow`, `Hysteresis`, `FixedPoint`,
  `IndexAgreement`, `Choice`, `Recovery`, `Revalidation`, `Absorbing`, `Batches`,
  `Revocations`, `Saving`, `Shapes`, `Reading`: what holds along them.
- `Codec`, `StoreFields`, `StoreRecords`, `StoreCanonical`, `StoreSizes`,
  `Store`, `StoreIO`: the byte codec and the store, in both directions.
- `Framing`, `Sessions`: frames and the session loop. `Digests`: the canonical
  stream of a policy digest.

A run is a list of events, each an operation with its arguments and the clock
reading at its end; tickets are arguments too, so any interleaving of steps
between the beginning and the commit of an evaluation is a run. The clock is
only assumed not to go back, and only where a statement needs it. Statements
about timers and churn speak of one epoch and one policy generation, because an
epoch change clears both, and say which tick sums must not wrap.

## Where the code and its promises part

Each of these is a lemma, with the exact condition where there is one.

- The documentation promises a floor for the mean; the code truncates, which
  differs for negative sums (`MeanIsFloor`, `MeanOfNegativesIsNotFloor`).
- A policy awaiting revalidation returns to service without it through SUSPEND
  and RESUME, and in no other way (`RevalidationCanBeBypassed` for sequences of
  events, `StepEnters` and `ServiceAfterRecovery` for runs).
- Three notifications change a candidate without the commit of an earlier
  evaluation noticing (`NoteIsFenced`). One of them, a re-declaration that
  repeats the authority, lets a commit move the preference onto a path that was
  just declared unavailable (`RedeclarationEscapes`).
- An epoch change with an exhausted authority generation is refused and yet
  advances the epoch (`ExhaustedEpoch`).
- An exhausted evidence generation leaves a batch stored but reported refused,
  and its sources unindexed (`BatchIsAtomic`, `ExhaustedPublishIndexes`).
- A configuration that retains no sample makes a batch stricter than its samples
  one by one (`NoRetentionBreaksTheFold`).
- At the cap of the path index a new path is bound but not found, and an update
  can lose every path of its policy. The exact guard of each step is in
  `DeclarationNeedsRoom` and `UpdateNeedsRoom`, of runs in `IndexesAgreeWithScan`.
- An update may declare a churn bound above the number of stamps that are kept;
  such a bound is never enforced (`TrimmingIsExact`, `BoundAboveCapIsIdle`).
- Loading checks no relation between a preference and its anchor, so an accepted
  store can break the invariant every operation keeps (`LoadedIsOk`,
  `ReadableNeedNotBeLoadable`).
- A coordinator accepts what it cannot read back after saving it. The exact
  condition is in `ReachableStateReadsBack`, the guard of each step in
  `StepKeepsLists`. It fails when a rollback adds a churn stamp past the reader's
  bound (`RollbackOutgrowsTheStore`), when a revocation has a long detail
  (`LongDetailIsUnreadable`), when an update has too many priorities or an absent
  identity in its scope (`UnfitUpdateIsUnreadable`, `UpdateAdmitsAnyPriorities`,
  `UpdateAdmitsAbsentRoute`), and when a ticket carries an unfit proposal
  (`UnfitProposalIsUnreadable`). The reader applies the default limits, whatever
  the coordinator was configured with.
- The no-change answer of a rollback can never be given
  (`RollbackTestIsEligibility`).

## Model

| member | source | states |
|---|---|---|
| Metrics.ImprovementIsExact | src/metrics.cpp:305-342 | two comparable values always have an improvement r <= 10000; r basis points are really gained, r+1 are not unless capped, and no improvement is claimed for a value that is not better |
| Metrics.ImprovementIsOneWay | src/metrics.cpp:305-316 | an improvement one way excludes one the other way |
| Metrics.NormalizeIsExact | src/metrics.cpp:344-372 | normalisation never overflows, rounds the exact ratio down by less than one basis point and reaches 10000 only at the best value |
| Metrics.NormalizeIsMonotone | src/metrics.cpp:344-372 | a better value never normalises lower |
| Aggregation.AggregateSamples | src/metrics.cpp:378-432 | the loops compute the specified aggregate, overflow included; what it is for each kind is stated by the three rows on exactness below |
| Aggregation.NearestRankLaw | src/metrics.cpp:115-125 | the order statistic is a retained sample with fewer than the rank below it and at least the rank not above it |
| Aggregation.NearestRankUnique | src/metrics.cpp:115-125 | no other value satisfies that counting law |
| Aggregation.AggregateIsClosed | src/metrics.cpp:378-432 | every aggregation of samples inside a range of non-negative bounds exists and stays inside the range |
| Aggregation.MeanIsFloor | src/metrics.cpp:389-397 | for non-negative samples the mean is the floor the documentation promises, and for the others exactly when the sum divides or is not negative |
| Aggregation.MeanOfNegativesIsNotFloor | src/metrics.cpp:389-397 | a concrete pair of negative samples whose mean is not the documented floor |
| Aggregation.EwmaError | src/metrics.cpp:406-428 | for non-negative samples the integer moving average never exceeds the real one and falls short of it by less than 10000/alpha |
| Aggregation.OrderStatisticIsExact | src/metrics.cpp:384-405 | for any samples MINIMUM is a sample not above any other, MAXIMUM one not below any other, and MEDIAN and PERCENTILE_95 have the counting law at 50 and 95 |
| Aggregation.MeanIsExact | src/metrics.cpp:389-397 | for any samples the mean exists exactly when no partial sum leaves 64 bits, and is the plain sum over the count rounded toward zero |
| Aggregation.AggregateIsExact | src/metrics.cpp:378-432 | over samples a metric kind can hold every aggregation exists and is the statistic its kind names; for EWMA, the moving average within its error bound |
| Scoring.ComputeScore | src/metrics.cpp:438-471 | the accumulator loop computes the specified score and refuses exactly the same inputs |
| Scoring.ScoreIsExact | src/metrics.cpp:438-471 | for a valid objective nothing overflows, the score is within 0..10000 and lies in (exact - 1.5, exact + 0.5] of the real weighted score |
| Scoring.ScoreIsMonotone | src/metrics.cpp:438-471 | improving any metric never lowers the score |
| Policy.BandSeparates | src/policy.cpp:144-160 | a path bad enough to be left and a path good enough to be entered differ by the whole, non-empty band |
| Policy.RevalidationCanBeBypassed | src/lifecycle.cpp:105-150 | over any sequence of events without REVALIDATE a policy awaiting revalidation enters ACTIVE exactly when a SUSPEND is followed by a RESUME with no REQUIRE_REVALIDATION between them and no end before |
| Revalidation.StepEnters | src/fabric_policy.cpp:209-265 | one step of a run brings a policy that is neither active nor just declared into service exactly when it is an accepted REVALIDATE, or an accepted RESUME while it is suspended |
| Revalidation.SuspendedThenResumed | src/fabric_policy.cpp:209-265 | an authorized SUSPEND and RESUME bring any policy awaiting revalidation into service, with no candidate examined |
| Revalidation.ServiceAfterRecovery | src/fabric_api.cpp:99-112 | whatever runs after a conservative recovery, a policy is in service at some point exactly when a REVALIDATE of it, or a RESUME of it while suspended, was accepted |
| Evidence.ValidateBatch | src/fabric_evidence.cpp:52-154 | pass one stops at the first refusal and applies nothing |
| Evidence.TwoPassesRefineFold | src/fabric_evidence.cpp:52-190 | with any batch prefix tracked, validating the rest first and applying it afterwards refuses and accepts as publishing one by one does, and leaves the same store |
| Evidence.BatchRefinesFold | src/fabric_evidence.cpp:52-190 | the same for a whole batch: accepted exactly when every sample would be, with the same first refusal, series and watermark |
| Evidence.NoRetentionBreaksTheFold | src/fabric_evidence.cpp:52-190 | with no sample retained the batch refuses a repetition that publishing one by one accepts |
| Evidence.AppliedKeepsOrder | src/fabric_evidence.cpp:157-190 | the retained samples of a series stay bounded, of its kind, ordered by sequence and by acceptance, and no newer than the clock |
| Evidence.ComputeAggregate | src/fabric_evidence.cpp:269-333 | the scan over all series chooses and summarises the specified one |
| Evidence.ChoiceIsTotal | src/fabric_evidence.cpp:273-293 | of two usable series of one path and kind exactly one is preferred, so the choice does not depend on the iteration order |
| Evidence.ResolvedIsEvidence | src/fabric_evidence.cpp:269-333 | a resolved value comes from an accepted series of that path and kind, lies between its smallest and largest retained sample, counts them all and meets the quality |
| Batches.BatchIsAtomic | src/fabric_evidence.cpp:21-217 | a publish is all or nothing with one generation step, except that with an exhausted generation an acceptable batch is reported refused and yet stored |
| Batches.EvidenceStaysOrdered | src/fabric_evidence.cpp:157-190 | over every run on a clock that starts over only with a successful recovery, and with at least one sample retained, the samples of every series stay bounded, ordered and no newer than the clock |
| Batches.ResolvedReflectsSamples | src/fabric_evidence.cpp:269-333 | in every state of such a run, with at most 1,000,000 samples retained, a valid requirement resolves to a value reflecting exactly the retained samples of the chosen series |
| Publishing.PublishedIsCovered | src/fabric_evidence.cpp:71-93 | a batch that changed anything came from a live caller with a new attempt, and for every sample some policy indexed under its path has the registered scope's fabric and namespace and a route inside it |
| Publishing.UncoveredIsRefused | src/fabric_evidence.cpp:71-93 | when nothing before refuses the batch, a well-formed first sample without such a policy is answered UNAUTHORIZED_SCOPE with the state unchanged |
| Publishing.UncoveredLaterIsRefused | src/fabric_evidence.cpp:71-93 | such a sample anywhere in a batch of a registered publisher keeps the whole batch out |
| Publishing.SampleIsExact | src/fabric_evidence.cpp:52-154 | a sample is accepted exactly when it is well-formed, inside the admitted paths and continues its series: a later incarnation, or the same one with the same quality and a later observation; a new series needs a known source or room |
| Publishing.AppliedIsExact | src/fabric_evidence.cpp:157-190 | an accepted sample is appended to its series with the oldest past the bound forgotten, a new incarnation starts the series over and alone moves the watermark, and no other series changes |
| Publishing.ChosenIsExact | src/fabric_evidence.cpp:273-293 | the chosen series offers samples of the path and kind at the required quality, none offers a stronger quality, and among equals it has the smallest source; none is chosen only when none offers |
| Ranking.RankingIsTotal | src/fabric_evaluate.cpp:45-78 | of two different evaluations of one objective exactly one ranks ahead |
| Ranking.RankingTransitive | src/fabric_evaluate.cpp:45-78 | ranking ahead is transitive in both objective modes |
| Ranking.ArrivalOrderIndependent | src/fabric_evaluate.cpp:326-337 | every permutation of the evaluations sorts to the same ranking |
| Ranking.ChosenIsBest | src/fabric_evaluate.cpp:326-341 | the first eligible of the ranking ranks ahead of every other eligible one, and none is found only when none is eligible |
| Merit.EligibleIsExact | src/fabric_evaluate.cpp:206-325 | the pass accepts a candidate exactly when it is legal, on a current route, available and in the current target set, every required metric has a usable reading that is trusted, numerous, young and wide enough, and every objective term has one |
| Merit.MeritIsExact | src/fabric_evaluate.cpp:206-325 | an eligible candidate is ranked by its declared priority or zero, the weakest quality among the readings used, the snapshot's reading of every term in term order, and in weighted mode the score of those readings |
| Merit.TargetIsBest | src/fabric_evaluate.cpp:38-78 | an eligible verdict targets an accepted candidate: none accepted has a higher priority; at equal priority none a stronger weakest quality; at equal priority and quality none a greater score, or at the first differing objective term a smaller badness; full ties go to the smallest path |
| Merit.BestIsUnique | src/fabric_evaluate.cpp:38-78 | there is only one such candidate |
| Verdicts.VerdictIsExact | src/fabric_evaluate.cpp:343-668 | the verdict is eligible exactly when the best candidate is due: without a preference, when it clears every band; otherwise when it is not the preferred path and either a declared emergency holds of the preferred path, or that path is still eligible, cooldown, reverse hold-down and churn bound let go, every band is crossed and cleared and every improvement met in its direction |
| Verdicts.NothingToChoose | src/fabric_evaluate.cpp:326-341 | without an accepted candidate the verdict is NO_ELIGIBLE_ALTERNATIVE |
| Verdicts.ProposalIsExact | src/fabric_evaluate.cpp:636-662 | an eligible adaptation of a policy that targets a set carries a proposal exactly when the target has a weight policy with a generation; it gives the target all the weight and the other candidates none |
| Reasons.ReasonIsTrue | src/fabric_evaluate.cpp:343-634 | a suppressed verdict reports, under the outcome that belongs to it, a reason that holds: the path is preferred already, the incumbent is not eligible, a timer runs, a band is not crossed or not cleared, an improvement is too small, a reading is missing, or churn is exhausted |
| Reasons.MissingIsTrue | src/fabric_evaluate.cpp:80-115 | a missing reading is reported as unknown, stale or insufficient only when it is |
| Evaluation.CaptureEvidence | src/fabric_evidence.cpp:358-389 | the nested loops capture the specified snapshot |
| Evaluation.SnapshotIsExact | src/fabric_evidence.cpp:358-389 | the snapshot holds for a path and kind exactly what the store resolves for the requirement of that kind, and nothing for other paths |
| Snapshots.CaptureValues | src/fabric_evidence.cpp:358-389 | the same loops as the source runs them: entries appended in capture order and sorted at the end |
| Snapshots.VectorIsSnapshot | src/evidence.cpp:108-123 | the finished vector is strictly increasing in path and kind and says exactly what the map of the evaluation says |
| Snapshots.FindResolved | src/evidence.cpp:64-90 | the binary search over a canonical vector answers as the map does, absence included |
| Evaluation.JudgeCandidate | src/fabric_evaluate.cpp:206-325 | one pass of the eligibility loop: binding gates, evidence gate, objective readings, score |
| Evaluation.CountRecent | src/fabric_evaluate.cpp:618-634 | the churn loop counts the stamps inside the window |
| Evaluation.CheckBands | src/fabric_evaluate.cpp:521-563 | the band loop stops at the first band that is not crossed on either side |
| Evaluation.CheckImprovements | src/fabric_evaluate.cpp:566-615 | the improvement loop stops at the first rule that is not met in its direction |
| Evaluation.EvaluateInputs | src/fabric_evaluate.cpp:190-668 | the whole evaluation computes the specified verdict: establishment, emergency, hysteresis, timers, churn, weights; whom it targets, when it is eligible and why it is not are stated by TargetIsBest, VerdictIsExact and ReasonIsTrue |
| Choice.JudgedIsShaped | src/fabric_evaluate.cpp:206-325 | the eligibility pass yields evaluations of one shape, one per path, on which ranking is a strict total order |
| Choice.ChoiceIgnoresOrder | src/fabric_evaluate.cpp:206-341 | storing the candidates in another order changes neither the ranking nor the target |
| Choice.EligibleTargetIsBacked | src/fabric_evaluate.cpp:206-341 | an eligible verdict targets a bound candidate that passed every gate and has a current reading for the first objective term |
| Records.FindCandidate | src/fabric.cpp:10-26 | the binary search finds what a scan of the sorted candidates finds |
| Records.InsertedSorted | src/fabric_policy.cpp:9-16 | declaring a candidate keeps the candidates sorted and unique |
| Engine.Coordinator.constructor | src/fabric.cpp:33-52 | a new coordinator is the initial state |
| Engine.Coordinator.RecordAttempt | src/fabric.cpp:189-207 | the attempt map and its order become the specified log |
| Engine.Coordinator.PruneAttempts | src/fabric.cpp:209-215 | the oldest attempts leave the map and the order together |
| Engine.Coordinator.ReindexPolicy | src/fabric.cpp:299-328 | the four indexes gain the policy, paths only below the cap |
| Engine.Coordinator.UnindexPolicy | src/fabric.cpp:248-297 | the four indexes lose the policy and their empty entries |
| Engine.Coordinator.ApplyInvalidation | src/fabric.cpp:330-353 | the upstream watermark and the watermark of the path in every indexed policy advance |
| Engine.Coordinator.RegisterPublisher | src/fabric.cpp:359-417 | the state becomes that of the registration step: a new incarnation fences the previous one; the state invariant is kept |
| Engine.Coordinator.FencePublisher | src/fabric.cpp:419-439 | the boot is fenced and the registration removed; the state invariant is kept |
| Engine.Coordinator.AdvanceEpoch | src/fabric.cpp:441-490 | a new epoch fences every live boot, forgets attempts, clears timers and churn and asks for revalidation; the state invariant is kept |
| Engine.Coordinator.CreatePolicy | src/fabric_policy.cpp:18-113 | validation in source order, then a new record under its name and in the indexes; the state invariant is kept |
| Engine.Coordinator.UpdatePolicy | src/fabric_policy.cpp:115-207 | a new target discards bindings, preference, anchor and timers; any other update keeps them; the state invariant is kept |
| Engine.Coordinator.TransitionPolicy | src/fabric_policy.cpp:209-265 | the lifecycle table, with revalidation earned by a usable candidate; the state invariant is kept |
| Engine.Coordinator.RevokePolicy | src/fabric_policy.cpp:267-320 | the policy is revoked and the revocation recorded twice; the state invariant is kept |
| Engine.Coordinator.ApplyUpstream | src/fabric_policy.cpp:365-609 | the state becomes that of the upstream step; what each notification does to which field is stated by NoteIsExact and NotesStopAtRefusal; the state invariant is kept |
| Engine.Coordinator.PublishEvidence | src/fabric_evidence.cpp:21-217 | the state becomes that of the publish step, refusals and exhaustion included; whose samples for which paths are stored is stated by PublishedIsCovered; the state invariant is kept |
| Engine.Coordinator.BuildDependencies | src/fabric_evaluate.cpp:137-166 | the dependency snapshot of a policy |
| Engine.Coordinator.BeginEvaluation | src/fabric_evaluate.cpp:718-790 | a ticket with the dependencies and the verdict on the captured inputs, or a refusal at the bound on outstanding tickets, which it never exceeds; the state is untouched |
| Engine.Coordinator.CheckCommit | src/fabric_evaluate.cpp:803-876 | the re-verification in source order |
| Engine.Coordinator.VerifyCommit | src/fabric_evaluate.cpp:1008-1110 | the suppression predicates, the target and the generations are checked against the state as it is now; exactly when they pass is stated by PermissionIsExact |
| Engine.Coordinator.CommitEvaluation | src/fabric_evaluate.cpp:792-980 | the state becomes that of the commit step: refused, suppressed, unchanged or moved; one outstanding ticket is settled whatever the answer; exactly when it moves and what it leaves are stated by CommitIsExact and CommitLeaves; the state invariant is kept |
| Engine.Coordinator.Evaluate | src/fabric_evaluate.cpp:982-1006 | the ticket's own outcome when it was refused or the commit is deferred, and otherwise begin and commit with nothing in between; only a deferred ticket stays outstanding; the state invariant is kept |
| Engine.Coordinator.Rollback | src/fabric_evaluate.cpp:1252-1425 | the anchor becomes the preference, the preference the anchor, and base durations are armed; the state invariant is kept |
| Engine.Coordinator.Save | src/fabric_api.cpp:11-66 | the durable state: remaining durations and ages instead of clock readings, the clock being read for each policy |
| Engine.Coordinator.Load | src/fabric_api.cpp:68-201 | a refused store changes nothing; an accepted one replaces the whole state, which then satisfies the state invariant exactly when the store is loadable |
| Engine.Coordinator.Restart | src/fabric_api.cpp:11-201 | save on one clock and load on another is the restart step of the runs; the state invariant is kept |
| Loading.LoadedIsOk | src/fabric_api.cpp:99-148 | an accepted store leads to a state that satisfies the invariant exactly when, for the first record of every policy, the semantics are valid and the last preference and the last anchor belong together |
| Loading.SavedIsLoadable | src/fabric_api.cpp:11-66 | what a coordinator saves is loadable |
| Loading.ReadableNeedNotBeLoadable | src/persistence.cpp:1125-1216 | a store that passes every check of the reader need not be: marking an anchor as established where nothing was displaced keeps it readable |
| Runs.Evolution | src/fabric_evaluate.cpp:1008-1180 | one step rewrites a policy by commit, rollback, update, epoch change or restart, exactly as those say, or changes only bindings, history and lifecycle label |
| Runs.KeyedStep | src/fabric_policy.cpp:98-108 | records stay filed under their own identity |
| Invariants.StepOk | src/fabric_evaluate.cpp:955-966 | every step keeps candidates sorted, named and with a generation, semantics valid and the rollback anchor in order |
| Invariants.ExecOk | src/fabric_evaluate.cpp:955-966 | so does every run |
| Fencing.DriftIsExact | src/fabric_evaluate.cpp:670-712 | no drift is reported exactly when paths, watermarks, authority generations and legality are all as recorded |
| Fencing.StepTracks | src/fabric.cpp:330-353 | a step moves the watermark of a bound, indexed path by exactly the number of its invalidations and keeps it bound and indexed |
| Fencing.StepCounters | src/fabric_evaluate.cpp:820-862 | epoch and evidence generation never return, and advance exactly when an epoch opens or evidence is accepted |
| Fencing.CommitIsFenced | src/fabric_evaluate.cpp:820-862 | if a ticket commits after any run of steps, then in between no epoch opened, no evidence was accepted and the policy was not updated, every candidate path was invalidated a multiple of 2^64 times, and the target is legal at exactly the recorded authority generation |
| Fencing.FencedCandidateUnchanged | src/fabric_evaluate.cpp:670-712 | below 2^64 invalidations each candidate is at commit exactly what was evaluated, unless re-declared, re-weighted or cleared of its failure signal |
| Escapes.NoteIsFenced | src/fabric_policy.cpp:455-609 | an applied notification goes unnoticed by the drift check of an earlier evaluation exactly when it adds no candidate, moves no watermark of the policy and repeats the authority; for an indexed candidate of its own policy these are a re-declaration that repeats the authority, ADVANCE_WEIGHT_POLICY and CLEAR_HARD_FAILURE_SIGNAL |
| Notices.NoteIsExact | src/fabric_policy.cpp:481-600 | an accepted notification rewrites each field of the named candidate exactly as its event says -- authority, set, route, weight policy, path class, availability, hard failure -- leaves every other field, and moves the watermark by one exactly for the nine invalidating events of an indexed path |
| Notices.NoteElsewhere | src/fabric_policy.cpp:481-600 | no other candidate of any policy is rebound; of other indexed policies only the watermark of the same path moves |
| Notices.NotesStopAtRefusal | src/fabric_policy.cpp:365-609 | the notifications of a batch are applied in turn; those before the first refused one stay, it answers for the batch, and the rest do nothing |
| Notices.UpstreamIsExact | src/fabric_policy.cpp:365-390 | a batch is taken up exactly when it is not empty, within its bound and under a new attempt |
| Notices.EventIsExact | src/fabric_policy.cpp:455-545 | which events are accepted: a first declaration needs room and a legal path, a repeated one and an authority step the expected generation, the step a greater one, and events that store a binding a declared path |
| Notices.NoteConcerns | src/fabric_policy.cpp:365-455 | which notifications concern a policy: authority over it, origin the caller or nobody, the policy's route, site, path class and set, and a policy that has not ended |
| Notices.WithdrawnIsIneligible | src/fabric_evaluate.cpp:240-258 | after MARK_UNAVAILABLE, INVALIDATE_ROUTE, INVALIDATE_PATH and, for a policy that targets a set, INVALIDATE_MULTIPATH_SET the path is not eligible on any evidence at any clock reading |
| Notices.WithdrawnIsNotChosen | src/fabric_evaluate.cpp:240-258 | so no eligible evaluation of that state targets it |
| Escapes.RedeclarationEscapes | src/fabric_policy.cpp:481-495 | a commit about to succeed, with one watermark and authority recorded for each path as every evaluation does, still succeeds after its target was declared again exactly when the declaration repeats the authority, and then moves the preference onto a refused path exactly when the declared binding fails a gate |
| Escapes.UnavailableDeclarationApplies | src/fabric_policy.cpp:365-480 | any accepted re-declaration is accepted as well with the path marked unavailable, which a gate refuses |
| Backing.CommittedTargetIsEligible | src/fabric_evaluate.cpp:206-325 | the target of a successful commit passes the whole eligibility pass in the state it is committed in, at the clock reading of the evaluation, unless it was rebound without notice, it was invalidated 2^64 times or the evidence generation was exhausted |
| Commitment.PermissionIsExact | src/fabric_evaluate.cpp:1008-1110 | a re-verified ticket that asks for a move is committed exactly when the target is a candidate, legal at the recorded authority, pending hold-downs are below the bound, both generations have a successor, and the ticket is an emergency or cooldown, reverse hold-down and churn count all permit it |
| Commitment.ReverificationIsExact | src/fabric_evaluate.cpp:803-876 | re-verification passes exactly for a live caller, a new attempt, and counters, policy, paths, watermarks, authority generations and legality all as recorded |
| Commitment.DriftIsTrue | src/fabric_evaluate.cpp:670-712 | a reported drift names a candidate that moved, and a stale route or set only where its generation is not the recorded one |
| Commitment.RouteIsRecorded | src/fabric_evaluate.cpp:137-166 | the recorded route generation is that of the last candidate that has one |
| Commitment.CommitIsExact | src/fabric_evaluate.cpp:792-980 | the two together: every condition under which an eligible ticket moves the preference |
| Commitment.CommitLeaves | src/fabric_evaluate.cpp:1112-1180 | a successful commit prefers the target at the generations of its binding, keeps the displaced path as previous path and anchor, arms the escalated timers, leaves one stamp, one history entry and a signed provenance, and changes no other policy; one that does not succeed moves nothing |
| Commitment.SuppressedIsNoted | src/fabric_evaluate.cpp:876-949 | a suppressed ticket that passes re-verification leaves one history entry with its reason, and moves nothing |
| Commitment.DueChangeIsCommitted | src/fabric_evaluate.cpp:982-1006 | when the best candidate is due, evaluating and committing at one moment moves the preference exactly when the attempt is new and there is room; a policy without a preference must also be free of timers it still carries |
| Anchor.AnchorOnEveryRun | src/fabric_evaluate.cpp:1112-1143 | on every reachable state the anchor exists exactly when a path was displaced, is that path, differs from the preferred one, and both generations agree |
| Anchor.GenerationsCountMoves | src/fabric_evaluate.cpp:1099-1111 | both generations advance by exactly one per preference change |
| Anchor.TwoRollbacksRestore | src/fabric_evaluate.cpp:1317-1396 | two rollbacks with no other preference change between them restore preferred path and anchor |
| Anchor.RollbackTestIsEligibility | src/fabric_evaluate.cpp:1290-1345 | rollback's binding tests refuse exactly what eligibility refuses, with the same outcome, and its no-change answer is never given |
| Timers.PenaltyLaw | src/fabric_evaluate.cpp:1145-1167 | after k commits and any rollbacks of one epoch and policy generation the penalty is min(max, start + k*increment) |
| Timers.ArmedLaw | src/fabric_evaluate.cpp:1149-1167 | the armed hold-down is min(base + penalty*step, cap) and never below the base |
| Timers.ConsecutiveMovesAreSpaced | src/fabric_evaluate.cpp:1018-1056 | an ordinary adaptation follows the previous preference change by at least the cooldown and, going back, by at least the hold-down that change armed |
| ChurnWindow.DequeDecidesLikeHistory | src/fabric_evaluate.cpp:1043-1056 | the trimmed deque of stamps answers the churn question as the full history would |
| ChurnWindow.TrimmingIsExact | src/fabric_evaluate.cpp:1168-1172 | it does so for every history and moment exactly when the bound does not exceed the deque's cap |
| ChurnWindow.BoundAboveCapIsIdle | src/fabric_evaluate.cpp:1168-1172 | above the cap the timers a commit leaves never report the bound as reached |
| ChurnWindow.UpdateAdmitsAnyBound | src/fabric_policy.cpp:115-169 | an update is accepted whatever valid churn bound it declares; only creation compares it with the cap |
| ChurnWindow.DequeRetainsRun | src/fabric_evaluate.cpp:1168-1172 | along a run the deque is the full history less stamps that are never younger than as many kept ones as the cap |
| ChurnWindow.OrdinaryFindsRoom | src/fabric_evaluate.cpp:1043-1056 | with a bound within the deque's cap an ordinary adaptation finds fewer than the declared number of earlier ones in its window, counted over the whole history |
| ChurnWindow.ChurnBoundHolds | src/fabric_evaluate.cpp:1043-1056 | with a bound within the deque's cap no window of the declared length that ends with an ordinary adaptation holds more adaptations than declared, emergencies and rollbacks included |
| Hysteresis.FlappingIsPaidFor | src/fabric_evaluate.cpp:381-407 | over a run of adjacent evaluations the number of adaptations times the width of any declared band is at most the summed worsening of the paths that were left |
| Hysteresis.LevelEvidenceNeverFlaps | src/fabric_evaluate.cpp:521-563 | with level evidence a policy with a band never adapts after it is established |
| FixedPoint.EvaluationSettles | src/fabric_evaluate.cpp:416-425 | with frozen inputs any sequence of commits, whenever their evaluations began, changes the preference at most once, and never when it is already best |
| FixedPoint.TwoTicketsMoveOnce | src/fabric_evaluate.cpp:955-966 | of two tickets begun on like inputs at one clock reading at most one changes the preference |
| IndexAgreement.StepIsExact | src/fabric.cpp:248-328 | from a state whose four indexes list exactly the policies a full scan finds, a step leads to one exactly when it has room, which can be told before it |
| IndexAgreement.IndexesAgreeWithScan | src/fabric.cpp:248-328 | along a run every state has such indexes exactly when every step has room |
| IndexAgreement.ReachableStatesFence | src/fabric.cpp:299-312 | so every declared path of every policy such a run reaches is reached by its invalidations |
| IndexAgreement.ReachableCommitIsFenced | src/fabric_evaluate.cpp:820-862 | and the fence of commits holds for every evaluation begun on a state such a run reached, with nothing assumed of the indexes |
| IndexAgreement.DeclarationNeedsRoom | src/fabric.cpp:304-312 | a notification keeps the indexes exact unless it declares a new path while the path index is at its cap; then, and only then, the path is bound and not found |
| IndexAgreement.UpdateNeedsRoom | src/fabric_policy.cpp:182-201 | an accepted update keeps the indexes exact exactly when it changes the target, there is no candidate, or the path index is below its cap once all paths of the policy but the last are back |
| IndexAgreement.FullIndexLosesPolicy | src/fabric_policy.cpp:182-201 | when the other policies alone fill the path index, an accepted update leaves the policy under none of its paths |
| IndexAgreement.NotesNeedRoom | src/fabric_policy.cpp:365-609 | a batch of notifications keeps the indexes exact exactly when every new path it gets to declare finds the index below its cap |
| IndexAgreement.ExhaustedPublishIndexes | src/fabric_evidence.cpp:186-207 | when the evidence generation is exhausted the source index stays exact precisely if every published source already listed the policies of its path |
| Recovery.RestartIsNoWeaker | src/fabric_api.cpp:31-53 | after save and load on any clock hold-down and cooldown have exactly the time left they had, every churn stamp is no older, and the epoch is the saved one plus one |
| Recovery.RestartKeepsChurn | src/fabric_api.cpp:46-53 | at least as many stamps lie in the churn window after recovery as before |
| Recovery.RestartIsFresh | src/fabric_api.cpp:88-112 | recovery keeps no registration, no evidence series and no candidate |
| Recovery.NothingCommitsBeforeFreshStart | src/fabric_evaluate.cpp:272-299 | after recovery a commit is preceded by a registration of its caller, and its evaluation by a declaration of the target and a publication for it, each accepted and taking effect |
| Durable.RestartAt | src/fabric_api.cpp:114-148 | identity, semantics, generation, preference, anchor and re-armed timers of each policy come back as saved |
| Durable.RestartKeys | src/fabric_api.cpp:99-112 | exactly the saved policies come back |
| Absorbing.TerminalForever | src/lifecycle.cpp:142-155 | no later step, save and recovery included, changes lifecycle, scope, semantics, generation, anchor or preference of a terminal policy |
| Absorbing.FencedStepChangesNothing | src/fabric.cpp:97-156 | a request under a fenced boot leaves the whole state unchanged, whichever publisher makes it |
| Absorbing.FencedBootIsPowerless | src/fabric.cpp:369-377 | so does every later one of the process, whoever registers that boot again |
| Callers.CallerIsExact | src/fabric.cpp:97-156 | a caller is heard exactly in the current epoch, as the live incarnation of a registered publisher that is not fenced, through its own session, with authority over the target's route and set; a refusal says what is so |
| Callers.OutsiderChangesNothing | src/fabric.cpp:97-156 | any other caller leaves the whole state unchanged, whatever it asks for |
| Callers.NoteNeedsAuthority | src/fabric_policy.cpp:365-455 | a notification from outside the authority over its policy, or that names another origin, changes nothing |
| Callers.DeclarationNeedsAuthority | src/fabric_policy.cpp:31-46 | a declaration outside the caller's fabric, namespace, routes and sets changes nothing |
| Callers.DisplacedIsFenced | src/fabric.cpp:395-437 | a boot that stops being the live one of its publisher, by a new incarnation, a fence or a new epoch, is fenced |
| Callers.RegistrationIsExact | src/fabric.cpp:359-417 | which registrations are accepted, and that each changes only its own publisher |
| Requests.DeclarationIsExact | src/fabric_policy.cpp:18-113 | which declarations are accepted, and that the new policy is declared, blank and found under its name while no other changes |
| Requests.UpdateIsExact | src/fabric_policy.cpp:115-207 | which updates are accepted; an update keeps bindings, preference, anchor and timers exactly when the target stays, and clears them all when it does not |
| Requests.TransitionIsExact | src/fabric_policy.cpp:209-265 | from which states each lifecycle event is accepted and to which it leads, ends included, with a usable candidate needed to revalidate; nothing but the label changes, and an ended policy answers by its end |
| Requests.RevocationIsExact | src/fabric_policy.cpp:267-320 | a policy is revoked at most once, with room for it; the revocation is recorded with the policy and beside it |
| Requests.RollbackIsExact | src/fabric_evaluate.cpp:1252-1425 | which rollbacks succeed, and that the anchor becomes the preference, what was preferred the anchor, the declared durations are armed and nothing else changes |
| Requests.BeginIsExact | src/fabric_evaluate.cpp:718-760 | when an evaluation may begin |
| Requests.IssueIsExact | src/fabric_evaluate.cpp:718-760 | no ticket is issued at the bound on outstanding ones; below it exactly the evaluations that may begin are counted, and a commit takes one off |
| Requests.EpochIsExact | src/fabric.cpp:441-490 | a new epoch displaces every publisher, forgets every attempt, stops every timer and asks every policy that has not ended for revalidation, and keeps preference, anchor and penalty |
| Requests.ExhaustedEpoch | src/fabric.cpp:441-490 | with an exhausted epoch nothing changes; with only the authority generation exhausted the epoch advances and the request is refused |
| Attempts.RepeatedChangesNothing | src/fabric.cpp:162-187 | a request whose attempt is remembered changes nothing, and is answered as a repetition or a conflict |
| Attempts.AtMostOnce | src/fabric.cpp:162-207 | a request that was carried out changes nothing when it is sent again, and neither does another one under its attempt |
| Attempts.LogStaysBounded | src/fabric.cpp:189-215 | along every run the log holds each remembered attempt once, in order of arrival, and never more than the bound |
| Revocations.ExecFiles | src/fabric_policy.cpp:267-320 | along every run, save and recovery included, exactly the policies that carry a revocation are listed as revoked, with the same revocation |
| Revocations.RestartKeepsBooks | src/fabric_api.cpp:99-148 | after recovery every policy has its name, its revocation and the youngest of its history entries back, and no name or revocation is left over |
| Codec.LittleEndianTrip | src/codec.cpp:7-28 | a number that fits its width is read back, whatever follows |
| Codec.PutI64 | src/codec.cpp:30-32 | a signed value comes back through its two's complement |
| Codec.PutBytes | src/codec.cpp:36-39 | a byte string within the limit comes back, and only its own bytes are consumed |
| Codec.ListTrip | src/persistence.cpp:185-217 | a counted list of elements that come back comes back |
| Codec.ByteWriter.WriteLittleEndian | src/codec.cpp:7-11 | the loop appends the specified bytes |
| Codec.ByteWriter.WriteBytes | src/codec.cpp:36-39 | length and content are appended |
| Codec.ByteReader.Take | src/codec.cpp:43-50 | takes exactly the asked bytes or nothing |
| Codec.ByteReader.ReadLittleEndian | src/codec.cpp:86-97 | the loop gathers the number the bytes spell, and does not move on too few |
| Codec.ByteReader.ReadBytes | src/codec.cpp:115-130 | the declared length is bounded before anything is taken |
| StoreFields.PutMetric | src/persistence.cpp:136-175 | a metric value comes back with its kind, unit and version checked |
| StoreFields.PutScope | src/persistence.cpp:177-213 | a well-formed scope comes back |
| StoreFields.PutSemantics | src/persistence.cpp:271-499 | policy semantics within the reader's bounds come back |
| StoreRecords.PolicyTrip | src/persistence.cpp:789-867 | a well-formed policy record not seen before comes back |
| StoreRecords.PutRevocationRecord | src/persistence.cpp:880-931 | a revocation record comes back |
| StoreRecords.PutPreferenceRecord | src/persistence.cpp:944-1116 | a preference record of a stored policy with its route comes back |
| StoreRecords.PutStableRecord | src/persistence.cpp:1125-1216 | a rollback anchor comes back |
| StoreRecords.PutTimingRecord | src/persistence.cpp:1225-1316 | remaining times, penalty and churn ages within the bounds come back |
| StoreRecords.PutHistoryRecord | src/persistence.cpp:1325-1407 | a history record comes back without its commit time |
| StoreCanonical.PolicyIsCanonical | src/persistence.cpp:789-867 | an accepted policy record is the encoding of a well-formed policy not seen before |
| StoreCanonical.PreferenceIsCanonical | src/persistence.cpp:944-1116 | an accepted preference record is the encoding of a well-formed preference of its owner |
| StoreCanonical.TimingIsCanonical | src/persistence.cpp:1225-1316 | an accepted timing record is the encoding of timers within the bounds |
| StoreSizes.PolicyIsSmall | src/persistence.cpp:791-797 | a well-formed policy record never reaches the record bound |
| Store.SectionIsExact | src/persistence.cpp:779-868 | a section is read exactly when it was written from records that each fit after those before them |
| Store.StoreIsExact | src/persistence.cpp:695-1418 | a byte string is accepted precisely when it is the encoding of a storable state of admissible size, and then that state is read |
| Store.RoundTrip | src/persistence.cpp:549-689 | decoding the encoding gives the same state, commit times of the history apart, precisely when the state is storable and fits |
| StoreIO.EncodeStore | src/persistence.cpp:549-689 | the writing loops produce the specified bytes |
| StoreIO.ReadSection | src/persistence.cpp:779-799 | the reading loop of a section computes its specification, refusals included |
| StoreIO.DecodeStore | src/persistence.cpp:695-1418 | the reading loops compute the specified result |
| Saving.ExecSavable | src/persistence.cpp:549-689 | every run keeps all generations set, preferences on the policy's route and established anchors with an authority generation |
| Shapes.ExecShaped | src/persistence.cpp:549-689 | along every run fed with identities as their types enforce them, absent ones included, every identity the coordinator would store has such a form, and scopes stay well-formed; lists and texts are unrestricted |
| Shapes.ReachableStateReadsBack | src/fabric_api.cpp:203-267 | after any such run from the start the state can be saved and read back precisely when no policy carries more churn stamps or a higher penalty than the reader admits, no section has more records, no list, proposal or revocation detail is longer, no identity inside a list or an option is absent, proposals are well-formed, and the store is not too large |
| Reading.StepKeepsLists | src/fabric_policy.cpp:115-207 | from a state whose lists, proposals, details and inner identities the reader admits, a step leads to one exactly when what it hands over and is accepted fits: the scope and semantics of a creation or update, the detail of a revocation, the proposal of a committed ticket |
| Reading.RunKeepsLists | src/fabric_policy.cpp:115-207 | along a run every state fits exactly when every step does |
| Reading.LongDetailIsUnreadable | src/fabric_policy.cpp:267-316 | an accepted revocation whose detail is longer than 4096 bytes leaves a store that cannot be read back; acceptance does not depend on the detail and the timers still fit |
| Reading.UnfitUpdateIsUnreadable | src/fabric_policy.cpp:156-164 | an accepted update with a list the reader does not admit, or an absent identity inside a list or an option, leaves such a store |
| Reading.UpdateAdmitsAnyPriorities | src/fabric_policy.cpp:156-164 | an update is accepted with any valid list of priorities, also one above the reader's 32 |
| Reading.UpdateAdmitsAbsentRoute | src/policy.cpp:45-53 | an update is accepted with an absent identity among the routes of its scope, which the reader refuses |
| Reading.UnfitProposalIsUnreadable | src/persistence.cpp:1050-1090 | a commit of a ticket whose proposal the reader does not admit leaves a store that cannot be read back |
| Saving.RollbackOutgrowsTheStore | src/fabric_evaluate.cpp:1396 | a rollback at the stamp bound leaves a state whose store cannot be read back |
| Framing.WriteFrame | src/wire.cpp:364-396 | writing every field at its offset produces the specified frame, or none |
| Framing.FrameIsExact | src/wire.cpp:364-475 | a frame is decoded from the front of a buffer precisely when those bytes are its encoding |
| Framing.DecodeFrame | src/wire.cpp:398-475 | a decoded frame takes at least one byte and no more than there are |
| Framing.DecodeIsStable | src/wire.cpp:398-475 | any answer but INCOMPLETE is unchanged by bytes that arrive later |
| Framing.PrefixIsIncomplete | src/wire.cpp:398-475 | every strict prefix of a frame is INCOMPLETE |
| Sessions.RunSession | src/transport.cpp:1275-1345 | the loop computes the specified session, with the stop flag looked at before every turn |
| Sessions.SessionFollowsStream | src/transport.cpp:1283-1340 | a session dispatches a prefix of the frames of the received stream, all of them unless a stop, dispatching or the clock ends it, and its ending says why it ended and what was left |
| Sessions.CuttingDoesNotMatter | src/transport.cpp:1283-1340 | of two sessions that received the same bytes in different pieces one dispatched a prefix of what the other did, and the same frames when neither was cut short |
| Sessions.TimesOutOnlyOnStalls | src/transport.cpp:1275-1345 | a session times out only if some frame, first incomplete at one wait, is still the incomplete one at every wait up to one that comes the budget or more later; a session that is still waiting has had no such frame |
| Sessions.FramesAreDelivered | src/transport.cpp:1283-1340 | for any encodable frames and any chunking of their bytes those frames are dispatched in order and no other; some are left out only after a stop, one frame that stays incomplete for the budget, or an answer that ends the session, and the stream itself is never refused |
| Sorting.SortForgetsOrder | src/view.cpp:54-66 | sorting by distinct keys forgets the order of a list and nothing else |
| Digests.ScopeStreamIsExact | src/view.cpp:133-157 | two scopes feed the same bytes exactly when they agree up to the order of routes and sets |
| Digests.SemanticsStreamIsExact | src/view.cpp:45-131 | two valid semantics feed the same bytes exactly when they agree up to the order of thresholds, improvements, evidence and priorities |
| Digests.PolicyStreamIsExact | src/view.cpp:222-233 | two policies feed the same bytes exactly when identity, name, lifecycle and generation agree and scope and semantics agree up to order |

## Left out

- Hashes: the integrity hashes of store and frame are parameters, the digest hash
  and the lanes that consume the canonical stream are not modelled, and the
  fingerprint of a mutation is an argument of its operation; nothing is claimed
  about collisions.
- Minted identities (decision, transition, policy) are arguments; that they are
  fresh is not assumed.
- Concurrency below the lock: each public method is one atomic step, `evaluate`
  is its two steps with nothing in between.
- The steps read an evidence snapshot as a map; `Snapshots` shows that the sorted
  vector and its binary search are that map. The list of evidence bindings a
  snapshot also carries is not part of this model.
- `std::sort` is the specified order, not an algorithm: rankings and digest
  copies are insertion sorts by function.
- Fields inside one store record are read and written by functions on the bytes;
  writer and reader objects and loops are modelled for sections, body, header and
  the primitives.
- Save and load work on the state and its bytes; files, renaming and the store
  path are not part of this model.
- Bookkeeping without influence on decisions: decision journal, snapshots,
  explanations, diffs, statistics, live boots, detail strings, denial texts and
  `render` functions.
- Dampening decay: its parameters are validated, stored and digested, and never
  applied, as in the source.
- Wire payload codecs (scope, semantics and ticket messages): they would repeat
  the store codec with other field orders.
- The transport around the session loop: sockets, threads, accept loop, client.
  What dispatching a frame answers is an argument of the session.
- Fencing.CommitIsFenced: assumes the path index lists the policy under its
  candidate paths; `ReachableCommitIsFenced` does without, for runs with room.
- Backing.CommittedTargetIsEligible: at the clock reading of the evaluation; the
  evidence may be too old at the reading of the commit, which the source does not
  look at again.
- Shapes.ReachableStateReadsBack: identities are assumed to have the form and
  length their types enforce when they are not absent, minted policy and decision
  identities to be present, and the minted digest to be no longer than 4096 bytes.
- Batches.EvidenceStaysOrdered: without retained samples a batch is stricter than
  its samples one by one (`NoRetentionBreaksTheFold`), so one is required.
- Hysteresis.FlappingIsPaidFor: evaluations are adjacent, since a commit does not
  compare the preference its ticket was computed for with the current one.
