// How long the records of a store can get: a record of well-formed fields never
// reaches the record bound (src/persistence.cpp).

module StoreSizes {
  import opened Base
  import opened Metrics
  import opened Scoring
  import opened Evidence
  import opened Policy
  import opened Records
  import opened Durable
  import opened Codec
  import opened StoreFields
  import opened StoreRecords

  const RECORD_BOUND: nat := 1_000_000

  lemma {:induction false} ItemsSize<T(!new)>(xs: seq<T>, put: (T, seq<byte>) -> seq<byte>, rest: seq<byte>, each: nat)
    requires forall i, r {:trigger put(xs[i], r)} :: 0 <= i < |xs| ==> |put(xs[i], r)| <= each + |r|
    ensures |PutItems(xs, put, rest)| <= |xs| * each + |rest|
  {
    if xs != [] {
      forall i, r {:trigger put(xs[1..][i], r)} | 0 <= i < |xs[1..]|
        ensures |put(xs[1..][i], r)| <= each + |r|
      {
        assert xs[1..][i] == xs[i + 1];
      }
      ItemsSize(xs[1..], put, rest, each);
      assert |put(xs[0], PutItems(xs[1..], put, rest))| <= each + |PutItems(xs[1..], put, rest)|;
      assert |xs| * each == (|xs| - 1) * each + each;
    }
  }

  lemma ListSize<T(!new)>(xs: seq<T>, put: (T, seq<byte>) -> seq<byte>, rest: seq<byte>, limit: nat, each: nat)
    requires |xs| <= limit
    requires forall i, r {:trigger put(xs[i], r)} :: 0 <= i < |xs| ==> |put(xs[i], r)| <= each + |r|
    ensures |PutList(xs, put, rest)| <= 8 + limit * each + |rest|
  {
    ItemsSize(xs, put, rest, each);
    MulMonotone(|xs|, limit, each);
  }

  lemma IdSize(id: Id, maxLength: nat, rest: seq<byte>)
    requires MaybeIdOk(id, maxLength) && maxLength <= 128
    ensures |PutId(id, rest)| <= 136 + |rest| && |PutFlaggedId(id, rest)| <= 137 + |rest|
  {
  }

  lemma OptionSize(id: Option<Id>, maxLength: nat, rest: seq<byte>)
    requires (id.Some? ==> IdOk(id.value, maxLength)) && maxLength <= 128
    ensures |PutOptionalId(id, rest)| <= 137 + |rest|
  {
  }

  lemma MetricSize(m: MetricValue, rest: seq<byte>)
    ensures |PutMetric(m, rest)| <= 15 + |rest|
  {
  }

  lemma IdsSize(ids: seq<Id>, maxLength: nat, rest: seq<byte>)
    requires |ids| <= MAX_SCOPE_ENTRIES && IdsOk(ids, maxLength) && maxLength <= 128
    ensures |PutList(ids, PutId, rest)| <= 40_000 + |rest|
  {
    forall i, r | 0 <= i < |ids|
      ensures |PutId(ids[i], r)| <= 136 + |r|
    {
      IdSize(ids[i], maxLength, r);
    }
    ListSize(ids, PutId, rest, MAX_SCOPE_ENTRIES, 136);
  }

  lemma ScopeSize(s: PolicyScope, rest: seq<byte>)
    requires ScopeOk(s)
    ensures |PutScope(s, rest)| <= 100_000 + |rest|
  {
    hide PutId, PutOptionalId, PutFlaggedId, PutList, IdOk, PolicyScope.WellFormed;
    var b4 := PutSetIds(s.sets, rest);
    var b3 := PutRouteIds(s.routes, b4);
    var b2 := PutFlaggedId(s.pathClass, b3);
    var b1 := PutOptionalId(s.site, b2);
    IdsSize(s.sets, SET_ID, rest);
    IdsSize(s.routes, ROUTE_ID, b4);
    IdSize(s.pathClass, CLASS_ID, b3);
    OptionSize(s.site, SITE_ID, b2);
    IdSize(s.namespace, NAMESPACE_ID, b1);
    IdSize(s.fabric, FABRIC_ID, PutId(s.namespace, b1));
  }

  lemma RulesSize(r: Rules, rest: seq<byte>)
    requires r.Ok()
    ensures |PutRules(r, rest)| <= 1_000 + |rest|
  {
    forall i, tail | 0 <= i < |r.thresholds|
      ensures |PutThreshold(r.thresholds[i], tail)| <= 31 + |tail|
    {
      MetricSize(r.thresholds[i].clear, tail);
      MetricSize(r.thresholds[i].switch_, PutMetric(r.thresholds[i].clear, tail));
    }
    var evidence := PutList(r.evidence, PutRequirement, rest);
    var improvements := PutList(r.improvements, PutImprovement, evidence);
    ListSize(r.evidence, PutRequirement, rest, MAX_REQUIREMENTS, 28);
    ListSize(r.improvements, PutImprovement, evidence, MAX_TERMS, 9);
    hide PutMetric;
    ListSize(r.thresholds, PutThreshold, improvements, MAX_THRESHOLDS, 31);
    hide PutList, PutThreshold;
  }

  lemma ObjectiveSize(o: Objective, rest: seq<byte>)
    requires |o.terms| <= MAX_TERMS
    ensures |PutObjective(o, rest)| <= 100 + |rest|
  {
    ListSize(o.terms, PutTerm, rest, MAX_TERMS, 5);
    hide PutList;
  }

  lemma PrioritiesSize(ps: seq<Priority>, rest: seq<byte>)
    requires PrioritiesOk(ps)
    ensures |PutPriorities(ps, rest)| <= 5_000 + |rest|
  {
    forall i, r | 0 <= i < |ps|
      ensures |PutPriority(ps[i], r)| <= 140 + |r|
    {
      IdSize(ps[i].path, PATH_ID, PutU32(ps[i].priority, r));
    }
    ListSize(ps, PutPriority, rest, MAX_CANDIDATES, 140);
  }

  lemma SemanticsSize(s: Semantics, rest: seq<byte>)
    requires SemanticsOk(s)
    ensures |PutSemantics(s, rest)| <= 10_000 + |rest|
  {
    hide PutId, PutOptionalId, PutRules, PutObjective, PutPriorities, IdOk, PrioritiesOk, Rules.Ok;
    var b6 := PutPriorities(s.priorities, rest);
    var b5 := PutEmergency(s.emergency, b6);
    var b4 := PutObjective(s.objective, b5);
    var b3 := PutDurations(Durations(s.holdDown, s.cooldown, s.dampening, s.churn), b4);
    var b2 := PutRules(RulesIn(s), b3);
    var b1 := PutOptionalId(s.target.multipath, b2);
    PrioritiesSize(s.priorities, rest);
    ObjectiveSize(s.objective, b5);
    RulesSize(RulesIn(s), b3);
    OptionSize(s.target.multipath, SET_ID, b2);
    IdSize(s.target.route, ROUTE_ID, b1);
  }

  // ------------------------------------------------------------------------
  // Records
  // ------------------------------------------------------------------------

  lemma PolicyIsSmall(p: AdaptivePolicy)
    requires PolicyOk(p)
    ensures |PutPolicyRecord(p)| <= RECORD_BOUND
  {
    hide PutId, PutScope, PutSemantics, IdOk, ScopeOk, SemanticsOk, Semantics.FirstDefect;
    var tenure := PutTenure(TenureIn(p), []);
    IdSize(p.owner, PUBLISHER_ID, PutU64(p.authorityGeneration, PutU64(p.declaredAt, PutU64(p.updatedAt, []))));
    SemanticsSize(p.semantics, tenure);
    var semantics := PutSemantics(p.semantics, tenure);
    ScopeSize(p.scope, semantics);
    var scope := PutScope(p.scope, semantics);
    IdSize(p.name, NAME_ID, scope);
    IdSize(p.id, POLICY_ID, PutId(p.name, scope));
  }

  lemma RevocationIsSmall(r: Revocation)
    requires RevocationOk(r)
    ensures |PutRevocationRecord(r)| <= RECORD_BOUND
  {
    hide PutId, IdOk;
    var b := PutU8(r.reason, PutBytes(r.detail, []));
    IdSize(r.publisher, PUBLISHER_ID, b);
    IdSize(r.policy, POLICY_ID, PutU64(r.generation,
                                       PutU64(r.authorityGeneration, PutU64(r.epoch, PutId(r.publisher, b)))));
  }

  lemma ProposalSize(p: Option<WeightProposal>, rest: seq<byte>)
    requires p.Some? ==> ProposalOk(p.value)
    ensures |PutOptionalProposal(p, rest)| <= 10_000 + |rest|
  {
    if p.Some? {
      var ws := p.value.weights;
      forall i, r | 0 <= i < |ws|
        ensures |PutWeight(ws[i], r)| <= 140 + |r|
      {
        IdSize(ws[i].path, PATH_ID, PutU32(ws[i].weight, r));
      }
      ListSize(ws, PutWeight, rest, MAX_CANDIDATES, 140);
      hide PutId, PutList, IdOk;
      IdSize(p.value.set_, SET_ID, PutU64(p.value.baseGeneration, PutWeights(ws, rest)));
    }
  }

  lemma ProvenanceSize(p: Provenance, rest: seq<byte>)
    requires ProvenanceOk(p)
    ensures |PutProvenance(p, rest)| <= 1_000 + |rest|
  {
    hide PutId, IdOk;
    var b3 := PutU64(p.policyGeneration, PutU8(p.cause, rest));
    var b2 := PutU64(p.epoch, PutId(p.attempt, b3));
    IdSize(p.attempt, ATTEMPT_ID, b3);
    IdSize(p.boot, BOOT_ID, b2);
    IdSize(p.publisher, PUBLISHER_ID, PutId(p.boot, b2));
  }

  lemma StandingSize(s: Standing, rest: seq<byte>)
    requires s.Ok()
    ensures |PutStanding(s, rest)| <= 1_000 + |rest|
  {
    hide PutId, PutOptionalId, IdOk;
    var b3 := PutU64(s.authority, rest);
    IdSize(s.preferred, PATH_ID, b3);
    var b2 := PutU64(s.setGeneration, PutBool(s.established, PutId(s.preferred, b3)));
    OptionSize(s.multipath, SET_ID, b2);
    IdSize(s.route, ROUTE_ID, PutOptionalId(s.multipath, b2));
  }

  lemma MoveSize(m: Move, rest: seq<byte>)
    requires m.Ok()
    ensures |PutMove(m, rest)| <= 1_000 + |rest|
  {
    hide PutId, PutFlaggedId, IdOk;
    IdSize(m.transitionId, TRANSITION_ID, rest);
    IdSize(m.previous, PATH_ID, PutU64(m.routeGeneration, PutU64(m.adaptation, PutU64(m.transition,
      PutId(m.transitionId, rest)))));
  }

  lemma PreferenceIsSmall(x: DurablePreference)
    requires IdOk(x.policy, POLICY_ID) && PreferenceOk(x.preference)
    ensures |PutPreferenceRecord(x)| <= RECORD_BOUND
  {
    hide PutId, PutFlaggedId, PutStanding, PutMove, PutOptionalProposal, PutProvenance, IdOk, Standing.Ok, Move.Ok,
         ProposalOk, ProvenanceOk;
    var p := x.preference;
    var b5 := PutU64(p.committedAt, []);
    var b4 := PutProvenance(p.provenance, b5);
    var b3 := PutFlaggedId(p.decision, b4);
    var b2 := PutOptionalProposal(p.proposal, b3);
    var b1 := PutMove(MoveIn(p), b2);
    ProvenanceSize(p.provenance, b5);
    IdSize(p.decision, DECISION_ID, b4);
    ProposalSize(p.proposal, b3);
    MoveSize(MoveIn(p), b2);
    StandingSize(StandingIn(p), b1);
    IdSize(x.policy, POLICY_ID, PutPreferenceFields(p));
  }

  lemma StableIsSmall(x: DurableStable)
    requires IdOk(x.policy, POLICY_ID) && StableOk(x.stable)
    ensures |PutStableRecord(x)| <= RECORD_BOUND
  {
    hide PutId, IdOk;
    var s := x.stable;
    var b := PutU64(s.authorityGeneration, PutU64(s.routeGeneration, PutU64(s.setGeneration, PutU64(s.adaptation,
      PutU64(s.stabilizedAt, [])))));
    IdSize(s.path, PATH_ID, b);
    IdSize(x.policy, POLICY_ID, PutBool(s.established, PutId(s.path, b)));
  }

  lemma TimingIsSmall(t: DurableTiming)
    requires IdOk(t.policy, POLICY_ID) && TimingOk(t)
    ensures |PutTimingRecord(t)| <= RECORD_BOUND
  {
    ListSize(t.churnAges, PutAge, [], MAX_STAMPS, 8);
    hide PutId, PutFlaggedId, PutList, IdOk;
    var b := PutBool(t.cooldownActive, PutU64(t.cooldownRemaining, PutU32(t.penalty, PutU64(t.decayRemaining,
      PutAges(t.churnAges, [])))));
    IdSize(t.lockedPath, PATH_ID, b);
    IdSize(t.policy, POLICY_ID, PutBool(t.holdDownActive, PutU64(t.holdDownRemaining, PutU64(t.policyGeneration,
      PutFlaggedId(t.lockedPath, b)))));
  }

  lemma HistoryIsSmall(x: DurableHistory)
    requires IdOk(x.policy, POLICY_ID) && HistoryOk(x.entry)
    ensures |PutHistoryRecord(x)| <= RECORD_BOUND
  {
    hide PutId, PutFlaggedId, IdOk;
    var e := x.entry;
    var b4 := PutU64(e.adaptation, PutU64(e.evidenceGeneration, PutU64(e.epoch, PutBytes(e.digest, []))));
    IdSize(e.to, PATH_ID, b4);
    var b3 := PutFlaggedId(e.to, b4);
    IdSize(e.from, PATH_ID, b3);
    var b2 := PutVerdict(Verdict(e.lifecycle, e.outcome, e.suppression, e.cause), PutFlaggedId(e.from, b3));
    IdSize(e.decision, DECISION_ID, b2);
    IdSize(x.policy, POLICY_ID, PutId(e.decision, b2));
  }
}
