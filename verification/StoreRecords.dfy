// The records of a store, one by one: what each is written as, what the reader
// checks and which status it refuses with (src/persistence.cpp).

module StoreRecords {
  import opened Base
  import opened Metrics
  import opened Outcomes
  import opened Policy
  import opened Records
  import opened Durable
  import opened Codec
  import opened StoreFields

  const MAX_DETAIL: u64 := 4096
  const MAX_PENALTY: u32 := 1024
  const MAX_STAMPS: u64 := 64

  // The policy a record belongs to.
  function OwnerOf(ps: seq<AdaptivePolicy>, id: Id): (r: Option<AdaptivePolicy>)
    ensures r.None? <==> forall i :: 0 <= i < |ps| ==> ps[i].id != id
    ensures r.Some? ==> r.value in ps && r.value.id == id
  {
    if ps == [] then None
    else if ps[0].id == id then Some(ps[0])
    else OwnerOf(ps[1..], id)
  }

  // ------------------------------------------------------------------------
  // Policies
  // ------------------------------------------------------------------------

  function LifecycleOf(b: seq<byte>): Parse<Lifecycle>
  {
    var (raw, b) :- U8(b, ImpossibleLifecycle);
    if raw == 1 then Got(Declared, b)
    else if raw == 2 then Got(Active, b)
    else if raw == 3 then Got(Suspended, b)
    else if raw == 4 then Got(NeedsRevalidation, b)
    else if raw == 5 then Got(Revoked, b)
    else if raw == 6 then Got(Superseded, b)
    else if raw == 7 then Got(Retired, b)
    else Bad(ImpossibleLifecycle)
  }

  function PutLifecycle(l: Lifecycle, rest: seq<byte>): (b: seq<byte>)
    ensures LifecycleOf(b) == Got(l, rest)
  {
    PutU8(l.Raw(), rest)
  }

  // Who holds a policy, in which state and since when.
  datatype Tenure = Tenure(
    generation: u64, lifecycle: Lifecycle, epoch: u64, owner: Id, authority: u64, declaredAt: Ticks, updatedAt: Ticks)
  {
    predicate Ok() { generation != 0 && epoch != 0 && IdOk(owner, PUBLISHER_ID) && authority != 0 }
  }

  function TenureOf(b: seq<byte>): Parse<Tenure>
  {
    var (generation, b) :- U64(b, ImpossibleLifecycle);
    var (lifecycle, b) :- LifecycleOf(b);
    var (epoch, b) :- U64(b, ImpossibleLifecycle);
    if generation == 0 || epoch == 0 then Bad(InvalidGeneration)
    else
      var (owner, b) :- IdOf(b, PUBLISHER_ID, Malformed);
      var (authority, b) :- U64(b, Truncated);
      var (declaredAt, b) :- U64(b, Truncated);
      var (updatedAt, b) :- U64(b, Truncated);
      if authority == 0 then Bad(InvalidGeneration)
      else Got(Tenure(generation, lifecycle, epoch, owner, authority, declaredAt, updatedAt), b)
  }

  function PutTenure(t: Tenure, rest: seq<byte>): (b: seq<byte>)
    ensures t.Ok() ==> TenureOf(b) == Got(t, rest)
  {
    PutU64(t.generation, PutLifecycle(t.lifecycle, PutU64(t.epoch, PutId(t.owner, PutU64(t.authority,
      PutU64(t.declaredAt, PutU64(t.updatedAt, rest)))))))
  }

  // A record that names a policy already read is refused.
  function PolicyOf(seen: seq<AdaptivePolicy>, b: seq<byte>): Parse<AdaptivePolicy>
  {
    var (id, b) :- IdOf(b, POLICY_ID, Malformed);
    var (name, b) :- IdOf(b, NAME_ID, Malformed);
    var (scope, b) :- ScopeOf(b);
    var (semantics, b) :- SemanticsOf(b);
    var (t, b) :- TenureOf(b);
    if b != [] || !semantics.Valid() then Bad(Malformed)
    else if OwnerOf(seen, id).Some? then Bad(DuplicatePolicy)
    else
      Got(AdaptivePolicy(id, name, scope, semantics, t.generation, t.lifecycle, t.epoch, t.owner, t.authority,
                         t.declaredAt, t.updatedAt), [])
  }

  function TenureIn(p: AdaptivePolicy): Tenure
  {
    Tenure(p.generation, p.lifecycle, p.epoch, p.owner, p.authorityGeneration, p.declaredAt, p.updatedAt)
  }

  predicate PolicyOk(p: AdaptivePolicy)
  {
    && IdOk(p.id, POLICY_ID) && IdOk(p.name, NAME_ID)
    && ScopeOk(p.scope) && SemanticsOk(p.semantics) && p.semantics.Valid() && TenureIn(p).Ok()
  }

  function PutPolicyRecord(p: AdaptivePolicy): seq<byte>
  {
    PutId(p.id, PutId(p.name, PutScope(p.scope, PutSemantics(p.semantics, PutTenure(TenureIn(p), [])))))
  }

  lemma PolicyTrip(seen: seq<AdaptivePolicy>, p: AdaptivePolicy)
    requires PolicyOk(p) && OwnerOf(seen, p.id).None?
    ensures PolicyOf(seen, PutPolicyRecord(p)) == Got(p, [])
  {
    hide IdOf, PutId, ScopeOf, PutScope, ScopeOk, SemanticsOf, PutSemantics, SemanticsOk, TenureOf, PutTenure;
    hide Semantics.FirstDefect, IdOk, OwnerOf;
  }

  // ------------------------------------------------------------------------
  // Revocations
  // ------------------------------------------------------------------------

  predicate RevocationOk(r: Revocation)
  {
    && IdOk(r.policy, POLICY_ID) && IdOk(r.publisher, PUBLISHER_ID) && |r.detail| <= MAX_DETAIL
    && r.generation != 0 && r.authorityGeneration != 0 && r.epoch != 0
  }

  // A revocation may name a policy the store does not hold.
  function RevocationOf(b: seq<byte>): Parse<Revocation>
  {
    var (policy, b) :- IdOf(b, POLICY_ID, Malformed);
    var (generation, b) :- U64(b, Malformed);
    var (authority, b) :- U64(b, Malformed);
    var (epoch, b) :- U64(b, Malformed);
    var (publisher, b) :- IdOf(b, PUBLISHER_ID, Malformed);
    var (reason, b) :- U8(b, Malformed);
    if !(1 <= reason <= 5) then Bad(Malformed)
    else if generation == 0 || authority == 0 || epoch == 0 then Bad(InvalidGeneration)
    else
      var (detail, b) :- Bytes(b, MAX_DETAIL, Malformed);
      if b != [] then Bad(Malformed)
      else Got(Revocation(policy, generation, authority, epoch, publisher, reason, detail), [])
  }

  function PutRevocationRecord(r: Revocation): (b: seq<byte>)
    ensures RevocationOk(r) ==> RevocationOf(b) == Got(r, [])
  {
    PutId(r.policy, PutU64(r.generation, PutU64(r.authorityGeneration, PutU64(r.epoch, PutId(r.publisher,
      PutU8(r.reason, PutBytes(r.detail, [])))))))
  }

  // ------------------------------------------------------------------------
  // Preferences
  // ------------------------------------------------------------------------

  function Weight(b: seq<byte>): Parse<PathWeight>
  {
    var (path, b) :- IdOf(b, PATH_ID, Malformed);
    var (weight, b) :- U32(b, MalformedMetric);
    if weight > BASIS_POINTS then Bad(MalformedMetric) else Got(PathWeight(path, weight), b)
  }

  predicate WeightOk(w: PathWeight) { IdOk(w.path, PATH_ID) && w.weight <= BASIS_POINTS }

  function PutWeight(w: PathWeight, rest: seq<byte>): (b: seq<byte>)
    ensures WeightOk(w) ==> Weight(b) == Got(w, rest)
  {
    PutId(w.path, PutU32(w.weight, rest))
  }

  predicate WeightsOk(ws: seq<PathWeight>)
  {
    0 < |ws| <= MAX_CANDIDATES && forall i :: 0 <= i < |ws| ==> WeightOk(ws[i])
  }

  lemma WeightsTrip(ws: seq<PathWeight>, rest: seq<byte>)
    ensures WeightsOk(ws) ==> U64(PutList(ws, PutWeight, rest), AbsurdCount) == Got(|ws|, PutItems(ws, PutWeight, rest))
                              && Items(PutItems(ws, PutWeight, rest), |ws|, Weight) == Got(ws, rest)
  {
    hide Weight, PutWeight, WeightOk, U64, PutU64, Items, PutItems;
    if WeightsOk(ws) {
      forall w, tail | w in ws
        ensures Weight(PutWeight(w, tail)) == Got(w, tail)
      {
        var i :| 0 <= i < |ws| && ws[i] == w;
        assert WeightOk(ws[i]);
      }
      ItemsTrip(ws, PutWeight, Weight, rest);
    }
  }

  // The count is bounded before the base generation is looked at.
  function PutWeights(ws: seq<PathWeight>, rest: seq<byte>): (b: seq<byte>)
    ensures WeightsOk(ws) ==> U64(b, AbsurdCount) == Got(|ws|, PutItems(ws, PutWeight, rest))
                              && Items(PutItems(ws, PutWeight, rest), |ws|, Weight) == Got(ws, rest)
  {
    WeightsTrip(ws, rest);
    PutList(ws, PutWeight, rest)
  }

  predicate ProposalOk(p: WeightProposal)
  {
    IdOk(p.set_, SET_ID) && p.baseGeneration != 0 && WeightsOk(p.weights)
  }

  function ProposalOf(b: seq<byte>): Parse<WeightProposal>
  {
    var (set_, b) :- IdOf(b, SET_ID, Malformed);
    var (base, b) :- U64(b, AbsurdCount);
    var (count, b) :- U64(b, AbsurdCount);
    if count > MAX_CANDIDATES then Bad(AbsurdCount)
    else if base == 0 then Bad(InvalidGeneration)
    else
      var (weights, b) :- Items(b, count, Weight);
      var proposal := WeightProposal(set_, base, weights);
      if proposal.WellFormed() then Got(proposal, b) else Bad(Malformed)
  }

  function PutProposal(p: WeightProposal, rest: seq<byte>): (b: seq<byte>)
    ensures ProposalOk(p) ==> ProposalOf(b) == Got(p, rest)
  {
    PutId(p.set_, PutU64(p.baseGeneration, PutWeights(p.weights, rest)))
  }

  function OptionalProposal(b: seq<byte>): Parse<Option<WeightProposal>>
  {
    var (present, b) :- Bool(b, Truncated);
    if !present then Got(None, b)
    else
      var (proposal, b) :- ProposalOf(b);
      Got(Some(proposal), b)
  }

  function PutOptionalProposal(p: Option<WeightProposal>, rest: seq<byte>): (b: seq<byte>)
    ensures (p.Some? ==> ProposalOk(p.value)) ==> OptionalProposal(b) == Got(p, rest)
  {
    match p
    case None => PutBool(false, rest)
    case Some(proposal) => PutBool(true, PutProposal(proposal, rest))
  }

  function CauseOf(b: seq<byte>, status: Status): Parse<Cause>
  {
    var (raw, b) :- U8(b, status);
    if 1 <= raw <= 14 then Got(raw, b) else Bad(status)
  }

  predicate ProvenanceOk(p: Provenance)
  {
    MaybeIdOk(p.publisher, PUBLISHER_ID) && MaybeIdOk(p.boot, BOOT_ID) && MaybeIdOk(p.attempt, ATTEMPT_ID)
  }

  // A preference that never committed has no publisher, epoch or attempt.
  function ProvenanceOf(b: seq<byte>): Parse<Provenance>
  {
    var (publisher, b) :- MaybeId(b, PUBLISHER_ID, Malformed);
    var (boot, b) :- MaybeId(b, BOOT_ID, Malformed);
    var (epoch, b) :- U64(b, Malformed);
    var (attempt, b) :- MaybeId(b, ATTEMPT_ID, Malformed);
    var (generation, b) :- U64(b, Malformed);
    var (cause, b) :- CauseOf(b, Malformed);
    Got(Provenance(publisher, boot, epoch, attempt, generation, cause), b)
  }

  function PutProvenance(p: Provenance, rest: seq<byte>): (b: seq<byte>)
    ensures ProvenanceOk(p) ==> ProvenanceOf(b) == Got(p, rest)
  {
    PutId(p.publisher, PutId(p.boot, PutU64(p.epoch, PutId(p.attempt, PutU64(p.policyGeneration,
      PutU8(p.cause, rest))))))
  }

  // What a policy prefers and whether it ever committed it.
  datatype Standing = Standing(
    route: Id, multipath: Option<Id>, setGeneration: u64, established: bool, preferred: Id, authority: u64)
  {
    predicate Ok()
    {
      && IdOk(route, ROUTE_ID) && (multipath.Some? ==> IdOk(multipath.value, SET_ID)) && MaybeIdOk(preferred, PATH_ID)
      && (established ==> ValidId(preferred) && authority != 0)
    }
  }

  function StandingOf(b: seq<byte>): Parse<Standing>
  {
    var (route, b) :- IdOf(b, ROUTE_ID, Malformed);
    var (multipath, b) :- OptionalId(b, SET_ID, Malformed);
    var (setGeneration, b) :- U64(b, Truncated);
    var (established, b) :- Bool(b, Truncated);
    var (preferred, b) :- MaybeId(b, PATH_ID, Malformed);
    var (authority, b) :- U64(b, Truncated);
    if established && (!ValidId(preferred) || authority == 0) then Bad(InvalidPreferredCandidate)
    else Got(Standing(route, multipath, setGeneration, established, preferred, authority), b)
  }

  function PutStanding(s: Standing, rest: seq<byte>): (b: seq<byte>)
    ensures s.Ok() ==> StandingOf(b) == Got(s, rest)
  {
    PutId(s.route, PutOptionalId(s.multipath, PutU64(s.setGeneration, PutBool(s.established, PutId(s.preferred,
      PutU64(s.authority, rest))))))
  }

  // How the preference came about.
  datatype Move = Move(previous: Id, routeGeneration: u64, adaptation: u64, transition: u64, transitionId: Id)
  {
    predicate Ok()
    {
      MaybeIdOk(previous, PATH_ID) && adaptation != 0 && transition != 0 && MaybeIdOk(transitionId, TRANSITION_ID)
    }
  }

  function MoveOf(b: seq<byte>): Parse<Move>
  {
    var (previous, b) :- FlaggedId(b, PATH_ID, Malformed);
    var (routeGeneration, b) :- U64(b, Truncated);
    var (adaptation, b) :- U64(b, Truncated);
    var (transition, b) :- U64(b, Truncated);
    if adaptation == 0 || transition == 0 then Bad(InvalidGeneration)
    else
      var (transitionId, b) :- MaybeId(b, TRANSITION_ID, Malformed);
      Got(Move(previous, routeGeneration, adaptation, transition, transitionId), b)
  }

  function PutMove(m: Move, rest: seq<byte>): (b: seq<byte>)
    ensures m.Ok() ==> MoveOf(b) == Got(m, rest)
  {
    PutFlaggedId(m.previous, PutU64(m.routeGeneration, PutU64(m.adaptation, PutU64(m.transition,
      PutId(m.transitionId, rest)))))
  }

  function StandingIn(p: Preference): Standing
  {
    Standing(p.route, p.multipath, p.setGeneration, p.established, p.preferred, p.authorityGeneration)
  }

  function MoveIn(p: Preference): Move
  {
    Move(p.previous, p.routeGeneration, p.adaptation, p.transition, p.transitionId)
  }

  predicate PreferenceOk(p: Preference)
  {
    && StandingIn(p).Ok() && MoveIn(p).Ok() && (p.proposal.Some? ==> ProposalOk(p.proposal.value))
    && MaybeIdOk(p.decision, DECISION_ID) && ProvenanceOk(p.provenance)
  }

  // The preference itself, without the owner checks.
  function PreferenceFields(b: seq<byte>): Parse<Preference>
  {
    var (s, b) :- StandingOf(b);
    var (m, b) :- MoveOf(b);
    var (proposal, b) :- OptionalProposal(b);
    var (decision, b) :- FlaggedId(b, DECISION_ID, Malformed);
    var (provenance, b) :- ProvenanceOf(b);
    var (committedAt, b) :- U64(b, Malformed);
    if b != [] then Bad(Malformed)
    else
      Got(Preference(s.route, s.multipath, s.setGeneration, s.preferred, s.authority, m.previous, m.routeGeneration,
                     m.adaptation, m.transition, m.transitionId, proposal, decision, provenance, committedAt,
                     s.established), [])
  }

  function PutPreferenceFields(p: Preference): (b: seq<byte>)
    ensures PreferenceOk(p) ==> PreferenceFields(b) == Got(p, [])
  {
    PutStanding(StandingIn(p), PutMove(MoveIn(p), PutOptionalProposal(p.proposal, PutFlaggedId(p.decision,
      PutProvenance(p.provenance, PutU64(p.committedAt, []))))))
  }

  predicate PreferenceOwned(ps: seq<AdaptivePolicy>, x: DurablePreference)
  {
    OwnerOf(ps, x.policy).Some? && OwnerOf(ps, x.policy).value.semantics.target.route == x.preference.route
  }

  function PreferenceOf(ps: seq<AdaptivePolicy>, b: seq<byte>): Parse<DurablePreference>
  {
    var (policy, b) :- IdOf(b, POLICY_ID, Malformed);
    var (preference, b) :- PreferenceFields(b);
    match OwnerOf(ps, policy)
    case None => Bad(TimingWithoutPolicy)
    case Some(owner) =>
      if owner.semantics.target.route != preference.route then Bad(InvalidPreferredCandidate)
      else Got(DurablePreference(policy, preference), [])
  }

  function PutPreferenceRecord(x: DurablePreference): (b: seq<byte>)
    ensures forall ps :: IdOk(x.policy, POLICY_ID) && PreferenceOk(x.preference) && PreferenceOwned(ps, x) ==>
              PreferenceOf(ps, b) == Got(x, [])
  {
    PutId(x.policy, PutPreferenceFields(x.preference))
  }

  // ------------------------------------------------------------------------
  // Rollback anchors
  // ------------------------------------------------------------------------

  predicate StableOk(s: Stable)
  {
    MaybeIdOk(s.path, PATH_ID) && (s.established ==> s.authorityGeneration != 0)
  }

  function StableOf(ps: seq<AdaptivePolicy>, b: seq<byte>): Parse<DurableStable>
  {
    var (policy, b) :- IdOf(b, POLICY_ID, Malformed);
    var (established, b) :- Bool(b, Truncated);
    var (path, b) :- MaybeId(b, PATH_ID, Malformed);
    var (authority, b) :- U64(b, Truncated);
    if established && authority == 0 then Bad(InvalidGeneration)
    else
      var (routeGeneration, b) :- U64(b, Truncated);
      var (setGeneration, b) :- U64(b, Truncated);
      var (adaptation, b) :- U64(b, Truncated);
      var (stabilizedAt, b) :- U64(b, Truncated);
      if b != [] then Bad(Malformed)
      else if OwnerOf(ps, policy).None? then Bad(TimingWithoutPolicy)
      else
        Got(DurableStable(policy, Stable(established, path, authority, routeGeneration, setGeneration, adaptation,
                                         stabilizedAt)), [])
  }

  function PutStableRecord(x: DurableStable): (b: seq<byte>)
    ensures forall ps :: IdOk(x.policy, POLICY_ID) && StableOk(x.stable) && OwnerOf(ps, x.policy).Some? ==>
              StableOf(ps, b) == Got(x, [])
  {
    var s := x.stable;
    PutId(x.policy, PutBool(s.established, PutId(s.path, PutU64(s.authorityGeneration, PutU64(s.routeGeneration,
      PutU64(s.setGeneration, PutU64(s.adaptation, PutU64(s.stabilizedAt, []))))))))
  }

  // ------------------------------------------------------------------------
  // Timers
  // ------------------------------------------------------------------------

  // An inactive timer has nothing left to run.
  predicate TimingOk(t: DurableTiming)
  {
    && MaybeIdOk(t.lockedPath, PATH_ID)
    && (!t.holdDownActive ==> t.holdDownRemaining == 0) && (!t.cooldownActive ==> t.cooldownRemaining == 0)
    && t.penalty <= MAX_PENALTY && |t.churnAges| <= MAX_STAMPS
  }

  function Age(b: seq<byte>): Parse<Ticks> { U64(b, MalformedTiming) }
  function PutAge(age: Ticks, rest: seq<byte>): (b: seq<byte>)
    ensures Age(b) == Got(age, rest)
  {
    PutU64(age, rest)
  }

  function TimingOf(ps: seq<AdaptivePolicy>, b: seq<byte>): Parse<DurableTiming>
  {
    var (policy, b) :- IdOf(b, POLICY_ID, Malformed);
    if OwnerOf(ps, policy).None? then Bad(TimingWithoutPolicy)
    else
      var (holdDownActive, b) :- Bool(b, MalformedTiming);
      var (holdDownRemaining, b) :- U64(b, MalformedTiming);
      var (generation, b) :- U64(b, MalformedTiming);
      var (lockedPath, b) :- FlaggedId(b, PATH_ID, MalformedTiming);
      var (cooldownActive, b) :- Bool(b, MalformedTiming);
      var (cooldownRemaining, b) :- U64(b, MalformedTiming);
      var (penalty, b) :- U32(b, MalformedTiming);
      var (decayRemaining, b) :- U64(b, MalformedTiming);
      if penalty > MAX_PENALTY then Bad(MalformedTiming)
      else
        var (ages, b) :- ListOf(b, MAX_STAMPS, AbsurdCount, Age);
        if b != [] then Bad(MalformedTiming)
        else if !holdDownActive && holdDownRemaining != 0 then Bad(MalformedTiming)
        else if !cooldownActive && cooldownRemaining != 0 then Bad(MalformedTiming)
        else
          Got(DurableTiming(policy, holdDownActive, holdDownRemaining, generation, lockedPath, cooldownActive,
                            cooldownRemaining, penalty, decayRemaining, ages), [])
  }

  function PutAges(ages: seq<Ticks>, rest: seq<byte>): (b: seq<byte>)
    ensures |ages| < TWO_64 ==>
              ListOf(b, MAX_STAMPS, AbsurdCount, Age)
              == if |ages| <= MAX_STAMPS then Got(ages, rest) else Bad(AbsurdCount)
  {
    ListTrip(ages, PutAge, Age, MAX_STAMPS, AbsurdCount, rest);
    PutList(ages, PutAge, rest)
  }

  function PutTimingRecord(t: DurableTiming): (b: seq<byte>)
    ensures forall ps :: IdOk(t.policy, POLICY_ID) && TimingOk(t) && OwnerOf(ps, t.policy).Some? ==>
              TimingOf(ps, b) == Got(t, [])
  {
    PutId(t.policy, PutBool(t.holdDownActive, PutU64(t.holdDownRemaining, PutU64(t.policyGeneration,
      PutFlaggedId(t.lockedPath, PutBool(t.cooldownActive, PutU64(t.cooldownRemaining, PutU32(t.penalty,
        PutU64(t.decayRemaining, PutAges(t.churnAges, []))))))))))
  }

  // ------------------------------------------------------------------------
  // History
  // ------------------------------------------------------------------------

  datatype Verdict = Verdict(lifecycle: DecisionLifecycle, outcome: Outcome, suppression: Suppression, cause: Cause)

  function VerdictOf(b: seq<byte>): Parse<Verdict>
  {
    var (lifecycle, b) :- U8(b, ImpossibleLifecycle);
    var (outcome, b) :- U16(b, ImpossibleLifecycle);
    var (suppression, b) :- U8(b, ImpossibleLifecycle);
    var (cause, b) :- CauseOf(b, ImpossibleLifecycle);
    if 1 <= lifecycle <= 9 && 1 <= outcome <= 46 && suppression <= 20 then
      Got(Verdict(lifecycle, outcome, suppression, cause), b)
    else Bad(ImpossibleLifecycle)
  }

  function PutVerdict(v: Verdict, rest: seq<byte>): (b: seq<byte>)
    ensures VerdictOf(b) == Got(v, rest)
  {
    PutU8(v.lifecycle, PutU16(v.outcome, PutU8(v.suppression, PutU8(v.cause, rest))))
  }

  // The commit time is not written, so only an entry without one can come back
  // as it was.
  predicate HistoryOk(e: HistoryEntry)
  {
    && IdOk(e.decision, DECISION_ID) && MaybeIdOk(e.from, PATH_ID) && MaybeIdOk(e.to, PATH_ID)
    && |e.digest| <= MAX_DETAIL
  }

  function HistoryOf(ps: seq<AdaptivePolicy>, b: seq<byte>): Parse<DurableHistory>
  {
    var (policy, b) :- IdOf(b, POLICY_ID, Malformed);
    var (decision, b) :- IdOf(b, DECISION_ID, Malformed);
    var (verdict, b) :- VerdictOf(b);
    var (from, b) :- FlaggedId(b, PATH_ID, Malformed);
    var (to, b) :- FlaggedId(b, PATH_ID, Malformed);
    var (adaptation, b) :- U64(b, Truncated);
    var (evidenceGeneration, b) :- U64(b, Truncated);
    var (epoch, b) :- U64(b, Truncated);
    var (digest, b) :- Bytes(b, MAX_DETAIL, Malformed);
    if b != [] then Bad(Malformed)
    else if OwnerOf(ps, policy).None? then Bad(TimingWithoutPolicy)
    else
      Got(DurableHistory(policy, HistoryEntry(decision, verdict.lifecycle, verdict.outcome, verdict.suppression,
                                              verdict.cause, from, to, adaptation, evidenceGeneration, epoch, 0,
                                              digest)), [])
  }

  function PutHistoryRecord(x: DurableHistory): (b: seq<byte>)
    ensures forall ps :: IdOk(x.policy, POLICY_ID) && HistoryOk(x.entry) && OwnerOf(ps, x.policy).Some? ==>
              HistoryOf(ps, b) == Got(x.(entry := x.entry.(committedAt := 0)), [])
  {
    var e := x.entry;
    PutId(x.policy, PutId(e.decision, PutVerdict(Verdict(e.lifecycle, e.outcome, e.suppression, e.cause),
      PutFlaggedId(e.from, PutFlaggedId(e.to, PutU64(e.adaptation, PutU64(e.evidenceGeneration, PutU64(e.epoch,
        PutBytes(e.digest, [])))))))))
  }
}
