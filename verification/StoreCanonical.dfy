// Every reader of the store accepts only what its writer produces: the bytes of
// an accepted record are determined by the value that is read from them, and
// that value is well formed (src/codec.cpp, src/persistence.cpp).

module StoreCanonical {
  import opened Base
  import opened Metrics
  import opened Scoring
  import opened Evidence
  import opened Policy
  import opened Records
  import opened Durable
  import opened Codec
  import opened StoreFields
  import opened StoreRecords

  // ------------------------------------------------------------------------
  // Primitives
  // ------------------------------------------------------------------------

  lemma {:induction false} LittleEndianIsCanonical(b: seq<byte>, n: nat)
    ensures match FromLittleEndian(b, n)
            case None => true
            case Some((x, rest)) => b == LittleEndian(x, n, rest)
  {
    if n > 0 && b != [] {
      LittleEndianIsCanonical(b[1..], n - 1);
      match FromLittleEndian(b[1..], n - 1)
      case None =>
      case Some((high, rest)) =>
        assert b == [b[0]] + b[1..];
        assert (b[0] + 256 * high) % 256 == b[0] && (b[0] + 256 * high) / 256 == high;
    }
  }

  lemma IntegersAreCanonical()
    ensures forall b, status :: U8(b, status).Got? ==> b == PutU8(U8(b, status).value, U8(b, status).rest)
    ensures forall b, status :: U16(b, status).Got? ==> b == PutU16(U16(b, status).value, U16(b, status).rest)
    ensures forall b, status :: U32(b, status).Got? ==> b == PutU32(U32(b, status).value, U32(b, status).rest)
    ensures forall b, status :: U64(b, status).Got? ==> b == PutU64(U64(b, status).value, U64(b, status).rest)
  {
    forall b: seq<byte>, n: nat
      ensures match FromLittleEndian(b, n) case None => true case Some((x, rest)) => b == LittleEndian(x, n, rest)
    {
      LittleEndianIsCanonical(b, n);
    }
  }

  lemma SignedAreCanonical()
    ensures forall b, status :: I64(b, status).Got? ==> b == PutI64(I64(b, status).value, I64(b, status).rest)
    ensures forall b, status :: Bool(b, status).Got? ==> b == PutBool(Bool(b, status).value, Bool(b, status).rest)
  {
    IntegersAreCanonical();
    hide U8, U64, PutU8, PutU64;
  }

  lemma BytesAreCanonical()
    ensures forall b, limit, status :: Bytes(b, limit, status).Got? ==>
              && |Bytes(b, limit, status).value| <= limit
              && b == PutBytes(Bytes(b, limit, status).value, Bytes(b, limit, status).rest)
  {
    IntegersAreCanonical();
    hide U64, PutU64;
    forall b, limit, status | Bytes(b, limit, status).Got?
      ensures |Bytes(b, limit, status).value| <= limit
      ensures b == PutBytes(Bytes(b, limit, status).value, Bytes(b, limit, status).rest)
    {
      var length := U64(b, status);
      assert length.rest == length.rest[..length.value] + length.rest[length.value..];
    }
  }

  lemma IdsAreCanonical()
    ensures forall b, m, status :: IdOf(b, m, status).Got? ==>
              IdOk(IdOf(b, m, status).value, m) && b == PutId(IdOf(b, m, status).value, IdOf(b, m, status).rest)
    ensures forall b, m, status :: MaybeId(b, m, status).Got? ==>
              MaybeIdOk(MaybeId(b, m, status).value, m)
              && b == PutId(MaybeId(b, m, status).value, MaybeId(b, m, status).rest)
  {
    BytesAreCanonical();
    hide Bytes, PutBytes, IdOk;
  }

  lemma OptionalIdsAreCanonical()
    ensures forall b, m, status :: FlaggedId(b, m, status).Got? ==>
              && MaybeIdOk(FlaggedId(b, m, status).value, m)
              && b == PutFlaggedId(FlaggedId(b, m, status).value, FlaggedId(b, m, status).rest)
    ensures forall b, m, status :: OptionalId(b, m, status).Got? ==>
              && (OptionalId(b, m, status).value.Some? ==> IdOk(OptionalId(b, m, status).value.value, m))
              && b == PutOptionalId(OptionalId(b, m, status).value, OptionalId(b, m, status).rest)
  {
    IdsAreCanonical();
    SignedAreCanonical();
    hide Bool, PutBool, IdOf, PutId;
  }

  // ------------------------------------------------------------------------
  // Lists
  // ------------------------------------------------------------------------

  ghost predicate Canonical<T(!new)>(get: seq<byte> -> Parse<T>, put: (T, seq<byte>) -> seq<byte>, ok: T -> bool)
  {
    forall b :: get(b).Got? ==> ok(get(b).value) && b == put(get(b).value, get(b).rest)
  }

  lemma {:induction false} ItemsAreCanonical<T(!new)>(
    b: seq<byte>, n: nat, get: seq<byte> -> Parse<T>, put: (T, seq<byte>) -> seq<byte>, ok: T -> bool)
    requires Canonical(get, put, ok)
    ensures var r := Items(b, n, get);
            r.Got? ==>
              && |r.value| == n && (forall i :: 0 <= i < n ==> ok(r.value[i]))
              && b == PutItems(r.value, put, r.rest)
    decreases n
  {
    if n > 0 && get(b).Got? {
      ItemsAreCanonical(get(b).rest, n - 1, get, put, ok);
      var r := Items(b, n, get);
      if r.Got? {
        assert r.value[1..] == Items(get(b).rest, n - 1, get).value;
      }
    }
  }

  lemma ListIsCanonical<T(!new)>(
    b: seq<byte>, limit: u64, status: Status, get: seq<byte> -> Parse<T>, put: (T, seq<byte>) -> seq<byte>,
    ok: T -> bool)
    requires Canonical(get, put, ok)
    ensures var r := ListOf(b, limit, status, get);
            r.Got? ==>
              && |r.value| <= limit && (forall i :: 0 <= i < |r.value| ==> ok(r.value[i]))
              && b == PutList(r.value, put, r.rest)
  {
    IntegersAreCanonical();
    hide U64, PutU64;
    var count := U64(b, status);
    if count.Got? {
      ItemsAreCanonical(count.rest, count.value, get, put, ok);
    }
  }

  // ------------------------------------------------------------------------
  // Fields of a policy
  // ------------------------------------------------------------------------

  lemma EnumsAreCanonical()
    ensures forall b :: Kind(b).Got? ==> b == PutKind(Kind(b).value, Kind(b).rest)
    ensures forall b :: AggregationOf(b).Got? ==> b == PutAggregation(AggregationOf(b).value, AggregationOf(b).rest)
    ensures forall b :: QualityOf(b).Got? ==> b == PutQuality(QualityOf(b).value, QualityOf(b).rest)
    ensures forall b :: Mode(b).Got? ==> b == PutMode(Mode(b).value, Mode(b).rest)
    ensures forall b :: LifecycleOf(b).Got? ==> b == PutLifecycle(LifecycleOf(b).value, LifecycleOf(b).rest)
  {
    IntegersAreCanonical();
    hide U8, PutU8;
  }

  lemma MetricsAreCanonical()
    ensures forall b :: MetricOf(b).Got? ==> b == PutMetric(MetricOf(b).value, MetricOf(b).rest)
  {
    EnumsAreCanonical();
    IntegersAreCanonical();
    SignedAreCanonical();
    hide U8, U32, I64, Bool, PutU8, PutU32, PutI64, PutBool, Kind, PutKind;
  }

  lemma ThresholdsAreCanonical()
    ensures forall b :: Threshold(b).Got? ==> b == PutThreshold(Threshold(b).value, Threshold(b).rest)
  {
    EnumsAreCanonical();
    MetricsAreCanonical();
    hide MetricOf, PutMetric, Kind, PutKind;
  }

  lemma ImprovementsAreCanonical()
    ensures forall b :: Improvement(b).Got? ==> b == PutImprovement(Improvement(b).value, Improvement(b).rest)
  {
    EnumsAreCanonical();
    IntegersAreCanonical();
    hide U32, PutU32, Kind, PutKind;
  }

  lemma RequirementsAreCanonical()
    ensures forall b :: RequirementOf(b).Got? ==>
              RequirementOf(b).value.Valid() && b == PutRequirement(RequirementOf(b).value, RequirementOf(b).rest)
  {
    EnumsAreCanonical();
    IntegersAreCanonical();
    SignedAreCanonical();
    hide U32, U64, Bool, PutU32, PutU64, PutBool, Kind, PutKind, AggregationOf, PutAggregation, QualityOf, PutQuality,
         Requirement.Valid;
  }

  lemma IdListsAreCanonical(b: seq<byte>)
    ensures var r := ListOf(b, MAX_SCOPE_ENTRIES, Malformed, RouteIdOf);
            r.Got? ==> |r.value| <= MAX_SCOPE_ENTRIES && IdsOk(r.value, ROUTE_ID) && b == PutRouteIds(r.value, r.rest)
    ensures var r := ListOf(b, MAX_SCOPE_ENTRIES, Malformed, SetIdOf);
            r.Got? ==> |r.value| <= MAX_SCOPE_ENTRIES && IdsOk(r.value, SET_ID) && b == PutSetIds(r.value, r.rest)
  {
    IdsAreCanonical();
    hide IdOf, PutId, ListOf, PutList, IdOk;
    ListIsCanonical(b, MAX_SCOPE_ENTRIES, Malformed, RouteIdOf, PutId, (id: Id) => IdOk(id, ROUTE_ID));
    ListIsCanonical(b, MAX_SCOPE_ENTRIES, Malformed, SetIdOf, PutId, (id: Id) => IdOk(id, SET_ID));
  }

  lemma ScopesAreCanonical()
    ensures forall b :: ScopeOf(b).Got? ==>
            ScopeOk(ScopeOf(b).value) && b == PutScope(ScopeOf(b).value, ScopeOf(b).rest)
  {
    IdsAreCanonical();
    OptionalIdsAreCanonical();
    hide IdOf, PutId, OptionalId, PutOptionalId, FlaggedId, PutFlaggedId, ListOf, PutRouteIds, PutSetIds, IdOk, IdsOk,
         PolicyScope.WellFormed;
    forall b
      ensures var r := ListOf(b, MAX_SCOPE_ENTRIES, Malformed, RouteIdOf);
              r.Got? ==> |r.value| <= MAX_SCOPE_ENTRIES && IdsOk(r.value, ROUTE_ID) && b == PutRouteIds(r.value, r.rest)
      ensures var r := ListOf(b, MAX_SCOPE_ENTRIES, Malformed, SetIdOf);
              r.Got? ==> |r.value| <= MAX_SCOPE_ENTRIES && IdsOk(r.value, SET_ID) && b == PutSetIds(r.value, r.rest)
    {
      IdListsAreCanonical(b);
    }
  }

  lemma RulesAreCanonical()
    ensures forall b :: RulesOf(b).Got? ==> RulesOf(b).value.Ok() && b == PutRules(RulesOf(b).value, RulesOf(b).rest)
  {
    hide Threshold, PutThreshold, Improvement, PutImprovement, RequirementOf, PutRequirement, ListOf, PutList,
         Requirement.Valid;
    forall b | RulesOf(b).Got?
      ensures RulesOf(b).value.Ok() && b == PutRules(RulesOf(b).value, RulesOf(b).rest)
    {
      var thresholds := ListOf(b, MAX_THRESHOLDS, Malformed, Threshold);
      var improvements := ListOf(thresholds.rest, MAX_TERMS, Malformed, Improvement);
      ThresholdsAreCanonical();
      ImprovementsAreCanonical();
      RequirementsAreCanonical();
      ListIsCanonical(b, MAX_THRESHOLDS, Malformed, Threshold, PutThreshold, (r: ThresholdRule) => true);
      ListIsCanonical(thresholds.rest, MAX_TERMS, Malformed, Improvement, PutImprovement, (r: ImprovementRule) => true);
      ListIsCanonical(improvements.rest, MAX_REQUIREMENTS, Malformed, RequirementOf, PutRequirement,
                      (r: Requirement) => r.Valid());
    }
  }

  lemma DurationsAreCanonical()
    ensures forall b :: DurationsOf(b).Got? ==> b == PutDurations(DurationsOf(b).value, DurationsOf(b).rest)
  {
    IntegersAreCanonical();
    SignedAreCanonical();
    hide U32, U64, Bool, PutU32, PutU64, PutBool;
  }

  lemma TermsAreCanonical()
    ensures forall b :: Term(b).Got? ==> b == PutTerm(Term(b).value, Term(b).rest)
  {
    EnumsAreCanonical();
    IntegersAreCanonical();
    hide U32, PutU32, Kind, PutKind;
  }

  lemma ObjectivesAreCanonical()
    ensures forall b :: ObjectiveOf(b).Got? ==>
              |ObjectiveOf(b).value.terms| <= MAX_TERMS && b == PutObjective(ObjectiveOf(b).value, ObjectiveOf(b).rest)
  {
    EnumsAreCanonical();
    IntegersAreCanonical();
    hide U32, PutU32, Mode, PutMode, Term, PutTerm, ListOf, PutList;
    forall b | ObjectiveOf(b).Got?
      ensures |ObjectiveOf(b).value.terms| <= MAX_TERMS && b == PutObjective(ObjectiveOf(b).value, ObjectiveOf(b).rest)
    {
      TermsAreCanonical();
      ListIsCanonical(U32(Mode(b).rest, Malformed).rest, MAX_TERMS, Malformed, Term, PutTerm,
                      (t: ObjectiveTerm) => true);
    }
  }

  lemma EmergenciesAreCanonical()
    ensures forall b :: EmergencyOf(b).Got? ==> b == PutEmergency(EmergencyOf(b).value, EmergencyOf(b).rest)
  {
    SignedAreCanonical();
    hide Bool, PutBool;
  }

  lemma PriorityEntriesAreCanonical()
    ensures forall b :: PriorityEntry(b).Got? ==>
              IdOk(PriorityEntry(b).value.path, PATH_ID)
              && b == PutPriority(PriorityEntry(b).value, PriorityEntry(b).rest)
  {
    IdsAreCanonical();
    IntegersAreCanonical();
    hide IdOf, PutId, U32, PutU32, IdOk;
  }

  lemma PrioritiesAreCanonical(b: seq<byte>)
    ensures var r := ListOf(b, MAX_CANDIDATES, Malformed, PriorityEntry);
            r.Got? ==> PrioritiesOk(r.value) && b == PutPriorities(r.value, r.rest)
  {
    hide PriorityEntry, PutPriority, ListOf, PutList, IdOk;
    PriorityEntriesAreCanonical();
    ListIsCanonical(b, MAX_CANDIDATES, Malformed, PriorityEntry, PutPriority, (p: Priority) => IdOk(p.path, PATH_ID));
  }

  lemma SemanticsAreCanonical()
    ensures forall b :: SemanticsOf(b).Got? ==>
              SemanticsOk(SemanticsOf(b).value) && b == PutSemantics(SemanticsOf(b).value, SemanticsOf(b).rest)
  {
    IntegersAreCanonical();
    IdsAreCanonical();
    OptionalIdsAreCanonical();
    RulesAreCanonical();
    DurationsAreCanonical();
    ObjectivesAreCanonical();
    EmergenciesAreCanonical();
    hide U32, PutU32, IdOf, PutId, OptionalId, PutOptionalId, RulesOf, PutRules, Rules.Ok, DurationsOf, PutDurations,
         ObjectiveOf, PutObjective, EmergencyOf, PutEmergency, ListOf, PutPriorities, IdOk, PrioritiesOk;
    forall b
      ensures var r := ListOf(b, MAX_CANDIDATES, Malformed, PriorityEntry);
              r.Got? ==> PrioritiesOk(r.value) && b == PutPriorities(r.value, r.rest)
    {
      PrioritiesAreCanonical(b);
    }
  }

  // ------------------------------------------------------------------------
  // Records
  // ------------------------------------------------------------------------

  lemma TenuresAreCanonical()
    ensures forall b :: TenureOf(b).Got? ==>
            TenureOf(b).value.Ok() && b == PutTenure(TenureOf(b).value, TenureOf(b).rest)
  {
    EnumsAreCanonical();
    IntegersAreCanonical();
    IdsAreCanonical();
    hide U64, PutU64, IdOf, PutId, IdOk, LifecycleOf, PutLifecycle;
  }

  lemma PolicyIsCanonical(seen: seq<AdaptivePolicy>, b: seq<byte>)
    ensures var r := PolicyOf(seen, b);
            r.Got? ==>
              && PolicyOk(r.value) && OwnerOf(seen, r.value.id).None? && r.rest == []
              && b == PutPolicyRecord(r.value)
  {
    IdsAreCanonical();
    ScopesAreCanonical();
    SemanticsAreCanonical();
    TenuresAreCanonical();
    hide IdOf, PutId, IdOk, ScopeOf, PutScope, ScopeOk, SemanticsOf, PutSemantics, SemanticsOk, TenureOf, PutTenure,
         Semantics.FirstDefect, OwnerOf, Tenure.Ok;
  }

  lemma RevocationIsCanonical(b: seq<byte>)
    ensures var r := RevocationOf(b);
            r.Got? ==> RevocationOk(r.value) && r.rest == [] && b == PutRevocationRecord(r.value)
  {
    IdsAreCanonical();
    IntegersAreCanonical();
    BytesAreCanonical();
    hide IdOf, PutId, IdOk, U8, PutU8, U64, PutU64, Bytes, PutBytes;
  }

  lemma WeightsAreCanonical()
    ensures forall b :: Weight(b).Got? ==> WeightOk(Weight(b).value) && b == PutWeight(Weight(b).value, Weight(b).rest)
  {
    IdsAreCanonical();
    IntegersAreCanonical();
    hide IdOf, PutId, IdOk, U32, PutU32;
  }

  lemma ProposalsAreCanonical()
    ensures forall b :: OptionalProposal(b).Got? ==>
              && (OptionalProposal(b).value.Some? ==> ProposalOk(OptionalProposal(b).value.value))
              && b == PutOptionalProposal(OptionalProposal(b).value, OptionalProposal(b).rest)
  {
    SignedAreCanonical();
    hide Bool, PutBool, ProposalOf, PutProposal, ProposalOk;
    forall b
      ensures ProposalOf(b).Got? ==>
              ProposalOk(ProposalOf(b).value) && b == PutProposal(ProposalOf(b).value, ProposalOf(b).rest)
    {
      ProposalIsCanonical(b);
    }
  }

  lemma ProposalIsCanonical(b: seq<byte>)
    ensures ProposalOf(b).Got? ==>
            ProposalOk(ProposalOf(b).value) && b == PutProposal(ProposalOf(b).value, ProposalOf(b).rest)
  {
    IdsAreCanonical();
    IntegersAreCanonical();
    WeightsAreCanonical();
    hide IdOf, PutId, IdOk, U64, PutU64, Weight, PutWeight, WeightOk, Items, PutItems;
    if ProposalOf(b).Got? {
      var base := U64(IdOf(b, SET_ID, Malformed).rest, AbsurdCount);
      var count := U64(base.rest, AbsurdCount);
      ItemsAreCanonical(count.rest, count.value, Weight, PutWeight, (w: PathWeight) => WeightOk(w));
    }
  }

  lemma ProvenancesAreCanonical()
    ensures forall b :: ProvenanceOf(b).Got? ==>
              ProvenanceOk(ProvenanceOf(b).value) && b == PutProvenance(ProvenanceOf(b).value, ProvenanceOf(b).rest)
  {
    IdsAreCanonical();
    IntegersAreCanonical();
    hide MaybeId, PutId, IdOk, U8, PutU8, U64, PutU64;
  }

  lemma StandingsAreCanonical()
    ensures forall b :: StandingOf(b).Got? ==>
              StandingOf(b).value.Ok() && b == PutStanding(StandingOf(b).value, StandingOf(b).rest)
  {
    IdsAreCanonical();
    OptionalIdsAreCanonical();
    IntegersAreCanonical();
    SignedAreCanonical();
    hide IdOf, MaybeId, PutId, IdOk, OptionalId, PutOptionalId, U64, PutU64, Bool, PutBool;
  }

  lemma MovesAreCanonical()
    ensures forall b :: MoveOf(b).Got? ==> MoveOf(b).value.Ok() && b == PutMove(MoveOf(b).value, MoveOf(b).rest)
  {
    IdsAreCanonical();
    OptionalIdsAreCanonical();
    IntegersAreCanonical();
    hide MaybeId, PutId, IdOk, FlaggedId, PutFlaggedId, U64, PutU64;
  }

  lemma PreferencesAreCanonical()
    ensures forall b :: PreferenceFields(b).Got? ==>
              && PreferenceOk(PreferenceFields(b).value) && PreferenceFields(b).rest == []
              && b == PutPreferenceFields(PreferenceFields(b).value)
  {
    StandingsAreCanonical();
    MovesAreCanonical();
    ProposalsAreCanonical();
    OptionalIdsAreCanonical();
    ProvenancesAreCanonical();
    IntegersAreCanonical();
    hide StandingOf, PutStanding, Standing.Ok, MoveOf, PutMove, Move.Ok, OptionalProposal, PutOptionalProposal,
         ProposalOk, FlaggedId, PutFlaggedId, IdOk, ProvenanceOf, PutProvenance, ProvenanceOk, U64, PutU64;
  }

  lemma PreferenceIsCanonical(ps: seq<AdaptivePolicy>, b: seq<byte>)
    ensures var r := PreferenceOf(ps, b);
            r.Got? ==>
              && IdOk(r.value.policy, POLICY_ID) && PreferenceOk(r.value.preference)
              && PreferenceOwned(ps, r.value)
              && r.rest == [] && b == PutPreferenceRecord(r.value)
  {
    IdsAreCanonical();
    PreferencesAreCanonical();
    hide IdOf, PutId, IdOk, PreferenceFields, PutPreferenceFields, PreferenceOk, OwnerOf;
  }

  lemma StableIsCanonical(ps: seq<AdaptivePolicy>, b: seq<byte>)
    ensures var r := StableOf(ps, b);
            r.Got? ==>
              && IdOk(r.value.policy, POLICY_ID) && StableOk(r.value.stable)
              && OwnerOf(ps, r.value.policy).Some?
              && r.rest == [] && b == PutStableRecord(r.value)
  {
    IdsAreCanonical();
    IntegersAreCanonical();
    SignedAreCanonical();
    hide IdOf, MaybeId, PutId, IdOk, U64, PutU64, Bool, PutBool, OwnerOf;
  }

  lemma AgesAreCanonical(b: seq<byte>)
    ensures var r := ListOf(b, MAX_STAMPS, AbsurdCount, Age);
            r.Got? ==> |r.value| <= MAX_STAMPS && b == PutAges(r.value, r.rest)
  {
    IntegersAreCanonical();
    hide U64, PutU64, ListOf, PutList;
    ListIsCanonical(b, MAX_STAMPS, AbsurdCount, Age, PutAge, (a: Ticks) => true);
  }

  lemma TimingIsCanonical(ps: seq<AdaptivePolicy>, b: seq<byte>)
    ensures var r := TimingOf(ps, b);
            r.Got? ==>
              && IdOk(r.value.policy, POLICY_ID) && TimingOk(r.value) && OwnerOf(ps, r.value.policy).Some?
              && r.rest == [] && b == PutTimingRecord(r.value)
  {
    IdsAreCanonical();
    OptionalIdsAreCanonical();
    IntegersAreCanonical();
    SignedAreCanonical();
    hide IdOf, PutId, IdOk, FlaggedId, PutFlaggedId, U32, PutU32, U64, PutU64, Bool, PutBool, ListOf, PutAges, OwnerOf;
    forall b
      ensures var r := ListOf(b, MAX_STAMPS, AbsurdCount, Age);
              r.Got? ==> |r.value| <= MAX_STAMPS && b == PutAges(r.value, r.rest)
    {
      AgesAreCanonical(b);
    }
  }

  lemma VerdictsAreCanonical()
    ensures forall b :: VerdictOf(b).Got? ==> b == PutVerdict(VerdictOf(b).value, VerdictOf(b).rest)
  {
    IntegersAreCanonical();
    hide U8, PutU8, U16, PutU16;
  }

  lemma HistoryIsCanonical(ps: seq<AdaptivePolicy>, b: seq<byte>)
    ensures var r := HistoryOf(ps, b);
            r.Got? ==>
              && IdOk(r.value.policy, POLICY_ID) && HistoryOk(r.value.entry) && r.value.entry.committedAt == 0
              && OwnerOf(ps, r.value.policy).Some? && r.rest == [] && b == PutHistoryRecord(r.value)
  {
    IdsAreCanonical();
    OptionalIdsAreCanonical();
    VerdictsAreCanonical();
    IntegersAreCanonical();
    BytesAreCanonical();
    hide IdOf, PutId, IdOk, FlaggedId, PutFlaggedId, VerdictOf, PutVerdict, U64, PutU64, Bytes, PutBytes, OwnerOf;
  }
}
