// The canonical byte stream a policy digest is computed over: set-like lists
// are sorted first, so their declaration order does not matter (src/view.cpp).
// The hash that consumes the stream is not part of this model.

module Digests {
  import opened Base
  import opened Sorting
  import opened Metrics
  import opened Scoring
  import opened Evidence
  import opened Policy
  import Records
  import opened Codec
  import opened StoreFields
  import opened StoreRecords

  // ------------------------------------------------------------------------
  // The stream
  // ------------------------------------------------------------------------

  function ByThreshold(r: ThresholdRule): SortKey { SortKey(NO_ID, r.kind.Raw()) }
  function ByImprovement(r: ImprovementRule): SortKey { SortKey(NO_ID, r.kind.Raw()) }
  function ByRequirement(r: Requirement): SortKey { SortKey(NO_ID, r.kind.Raw()) }
  function ByPath(p: Priority): SortKey { SortKey(p.path, 0) }
  function ByItself(id: Id): SortKey { SortKey(id, 0) }

  function CanonicalSemantics(s: Semantics): Semantics
  {
    s.(thresholds := SortedBy(s.thresholds, ByThreshold), improvements := SortedBy(s.improvements, ByImprovement),
       evidence := SortedBy(s.evidence, ByRequirement), priorities := SortedBy(s.priorities, ByPath))
  }

  function CanonicalScope(s: PolicyScope): PolicyScope
  {
    s.(routes := SortedBy(s.routes, ByItself), sets := SortedBy(s.sets, ByItself))
  }

  const TAG: byte := 0x1F
  const DIGEST_VERSION: u32 := 1

  // "adaptive-policy", "scope" and "semantics" in ASCII.
  const POLICY_TAG: seq<byte> := [97, 100, 97, 112, 116, 105, 118, 101, 45, 112, 111, 108, 105, 99, 121]
  const SCOPE_TAG: seq<byte> := [115, 99, 111, 112, 101]
  const SEMANTICS_TAG: seq<byte> := [115, 101, 109, 97, 110, 116, 105, 99, 115]

  function PutTag(tag: seq<byte>, rest: seq<byte>): seq<byte> { PutU8(TAG, PutBytes(tag, rest)) }

  // A digest feeds the fields of a policy in the order a store writes them.
  function ScopeStream(s: PolicyScope, rest: seq<byte>): seq<byte>
  {
    PutTag(SCOPE_TAG, PutScope(CanonicalScope(s), rest))
  }

  function SemanticsStream(s: Semantics, rest: seq<byte>): seq<byte>
  {
    PutTag(SEMANTICS_TAG, PutSemantics(CanonicalSemantics(s), rest))
  }

  function Named(p: Records.AdaptivePolicy, rest: seq<byte>): seq<byte>
  {
    PutTag(POLICY_TAG, PutU32(DIGEST_VERSION, PutId(p.id, PutId(p.name, rest))))
  }

  function Tail(p: Records.AdaptivePolicy): seq<byte> { PutU8(p.lifecycle.Raw(), PutU64(p.generation, [])) }

  function PolicyStream(p: Records.AdaptivePolicy): seq<byte>
  {
    Named(p, ScopeStream(p.scope, SemanticsStream(p.semantics, Tail(p))))
  }

  // ------------------------------------------------------------------------
  // The stream is unambiguous
  // ------------------------------------------------------------------------

  // Reading a stream back, with no bound but the width of a length.
  function AnyId(b: seq<byte>): Parse<Id> { Bytes(b, U64_MAX, Malformed) }

  function AnyOptionalId(b: seq<byte>): Parse<Option<Id>>
  {
    var (present, b) :- Bool(b, Malformed);
    if !present then Got(None, b)
    else
      var (id, b) :- AnyId(b);
      Got(Some(id), b)
  }

  function AnyFlaggedId(b: seq<byte>): Parse<Id>
  {
    var (present, b) :- Bool(b, Malformed);
    if present then AnyId(b) else Got(NO_ID, b)
  }

  function AnyPriority(b: seq<byte>): Parse<Priority>
  {
    var (path, b) :- AnyId(b);
    var (priority, b) :- U32(b, Malformed);
    Got(Priority(path, priority), b)
  }

  function AnyScope(b: seq<byte>): Parse<PolicyScope>
  {
    var (fabric, b) :- AnyId(b);
    var (namespace, b) :- AnyId(b);
    var (site, b) :- AnyOptionalId(b);
    var (pathClass, b) :- AnyFlaggedId(b);
    var (routes, b) :- ListOf(b, U64_MAX, Malformed, AnyId);
    var (sets, b) :- ListOf(b, U64_MAX, Malformed, AnyId);
    Got(PolicyScope(fabric, namespace, site, pathClass, routes, sets), b)
  }

  function AnyRules(b: seq<byte>): Parse<Rules>
  {
    var (thresholds, b) :- ListOf(b, U64_MAX, Malformed, Threshold);
    var (improvements, b) :- ListOf(b, U64_MAX, Malformed, Improvement);
    var (evidence, b) :- ListOf(b, U64_MAX, Malformed, RequirementOf);
    Got(Rules(thresholds, improvements, evidence), b)
  }

  function AnyObjective(b: seq<byte>): Parse<Objective>
  {
    var (mode, b) :- Mode(b);
    var (version, b) :- U32(b, Malformed);
    var (terms, b) :- ListOf(b, U64_MAX, Malformed, Term);
    Got(Objective(mode, terms, version), b)
  }

  function AnySemantics(b: seq<byte>): Parse<Semantics>
  {
    var (version, b) :- U32(b, Malformed);
    var (route, b) :- AnyId(b);
    var (multipath, b) :- AnyOptionalId(b);
    var (rules, b) :- AnyRules(b);
    var (durations, b) :- DurationsOf(b);
    var (objective, b) :- AnyObjective(b);
    var (emergency, b) :- EmergencyOf(b);
    var (priorities, b) :- ListOf(b, U64_MAX, Malformed, AnyPriority);
    Got(Semantics(version, Target(route, multipath), rules.thresholds, rules.improvements, rules.evidence,
                  durations.holdDown, durations.cooldown, durations.dampening, durations.churn, objective, emergency,
                  priorities), b)
  }

  // Every length fits its field.
  predicate ShortIds(ids: seq<Id>) { |ids| < TWO_64 && forall i :: 0 <= i < |ids| ==> |ids[i]| < TWO_64 }
  predicate ShortOption(id: Option<Id>) { id.Some? ==> |id.value| < TWO_64 }

  predicate ShortScope(s: PolicyScope)
  {
    && |s.fabric| < TWO_64 && |s.namespace| < TWO_64 && ShortOption(s.site) && |s.pathClass| < TWO_64
    && ShortIds(s.routes) && ShortIds(s.sets)
  }

  predicate ShortSemantics(s: Semantics)
  {
    && |s.target.route| < TWO_64 && ShortOption(s.target.multipath)
    && |s.thresholds| < TWO_64 && |s.improvements| < TWO_64 && |s.evidence| < TWO_64 && |s.objective.terms| < TWO_64
    && |s.priorities| < TWO_64 && forall i :: 0 <= i < |s.priorities| ==> |s.priorities[i].path| < TWO_64
  }

  lemma IdsReadBack(rest: seq<byte>)
    ensures forall id: Id :: |id| < TWO_64 ==> AnyId(PutId(id, rest)) == Got(id, rest)
    ensures forall id :: ShortOption(id) ==> AnyOptionalId(PutOptionalId(id, rest)) == Got(id, rest)
    ensures forall id: Id :: |id| < TWO_64 ==> AnyFlaggedId(PutFlaggedId(id, rest)) == Got(id, rest)
  {
    hide Bytes, PutBytes, Bool, PutBool;
  }

  lemma IdListReadsBack(ids: seq<Id>, rest: seq<byte>)
    requires ShortIds(ids)
    ensures ListOf(PutList(ids, PutId, rest), U64_MAX, Malformed, AnyId) == Got(ids, rest)
  {
    forall id: Id, rest | |id| < TWO_64
      ensures AnyId(PutId(id, rest)) == Got(id, rest)
    {
      IdsReadBack(rest);
    }
    ListTrip(ids, PutId, AnyId, U64_MAX, Malformed, rest);
  }

  lemma ScopeReadsBack(s: PolicyScope, rest: seq<byte>)
    requires ShortScope(s)
    ensures AnyScope(PutScope(s, rest)) == Got(s, rest)
  {
    var b4 := PutSetIds(s.sets, rest);
    var b3 := PutRouteIds(s.routes, b4);
    var b2 := PutFlaggedId(s.pathClass, b3);
    var b1 := PutOptionalId(s.site, b2);
    IdListReadsBack(s.sets, rest);
    IdListReadsBack(s.routes, b4);
    hide AnyId, PutId, AnyOptionalId, PutOptionalId, AnyFlaggedId, PutFlaggedId, ListOf, PutList;
    IdsReadBack(b3);
    IdsReadBack(b2);
    IdsReadBack(b1);
    IdsReadBack(PutId(s.namespace, b1));
  }

  predicate RequirementsValid(rs: seq<Requirement>) { forall i :: 0 <= i < |rs| ==> rs[i].Valid() }

  lemma RulesReadBack(r: Rules, rest: seq<byte>)
    requires |r.thresholds| < TWO_64 && |r.improvements| < TWO_64 && |r.evidence| < TWO_64
    requires RequirementsValid(r.evidence)
    ensures AnyRules(PutRules(r, rest)) == Got(r, rest)
  {
    var evidence := PutList(r.evidence, PutRequirement, rest);
    var improvements := PutList(r.improvements, PutImprovement, evidence);
    ListTrip(r.evidence, PutRequirement, RequirementOf, U64_MAX, Malformed, rest);
    ListTrip(r.improvements, PutImprovement, Improvement, U64_MAX, Malformed, evidence);
    ListTrip(r.thresholds, PutThreshold, Threshold, U64_MAX, Malformed, improvements);
    hide ListOf, PutList, RequirementOf, PutRequirement, Improvement, PutImprovement, Threshold, PutThreshold,
         Requirement.Valid;
  }

  lemma ObjectiveReadsBack(o: Objective, rest: seq<byte>)
    requires |o.terms| < TWO_64
    ensures AnyObjective(PutObjective(o, rest)) == Got(o, rest)
  {
    ListTrip(o.terms, PutTerm, Term, U64_MAX, Malformed, rest);
    hide ListOf, PutList, U32, PutU32, Mode, PutMode, Term, PutTerm;
  }

  lemma PrioritiesReadBack(ps: seq<Priority>, rest: seq<byte>)
    requires |ps| < TWO_64 && forall i :: 0 <= i < |ps| ==> |ps[i].path| < TWO_64
    ensures ListOf(PutPriorities(ps, rest), U64_MAX, Malformed, AnyPriority) == Got(ps, rest)
  {
    forall p: Priority, rest | |p.path| < TWO_64
      ensures AnyPriority(PutPriority(p, rest)) == Got(p, rest)
    {
      IdsReadBack(PutU32(p.priority, rest));
    }
    ListTrip(ps, PutPriority, AnyPriority, U64_MAX, Malformed, rest);
  }

  lemma SemanticsReadBack(s: Semantics, rest: seq<byte>)
    requires ShortSemantics(s) && RequirementsValid(s.evidence)
    ensures AnySemantics(PutSemantics(s, rest)) == Got(s, rest)
  {
    var b6 := PutPriorities(s.priorities, rest);
    var b5 := PutEmergency(s.emergency, b6);
    var b4 := PutObjective(s.objective, b5);
    var b3 := PutDurations(Durations(s.holdDown, s.cooldown, s.dampening, s.churn), b4);
    var b2 := PutRules(RulesIn(s), b3);
    var b1 := PutOptionalId(s.target.multipath, b2);
    PrioritiesReadBack(s.priorities, rest);
    ObjectiveReadsBack(s.objective, b5);
    RulesReadBack(RulesIn(s), b3);
    IdsReadBack(b2);
    IdsReadBack(b1);
    hide AnyId, PutId, AnyOptionalId, PutOptionalId, ListOf, PutPriorities, U32, PutU32, EmergencyOf, PutEmergency,
         AnyObjective, PutObjective, DurationsOf, PutDurations, AnyRules, PutRules, Requirement.Valid, IdOk;
  }

  // ------------------------------------------------------------------------
  // Equal streams
  // ------------------------------------------------------------------------

  // Equal up to the order of the lists that are sets.
  ghost predicate SameScope(a: PolicyScope, b: PolicyScope)
  {
    && multiset(a.routes) == multiset(b.routes) && multiset(a.sets) == multiset(b.sets)
    && a == b.(routes := a.routes, sets := a.sets)
  }

  ghost predicate SameSemantics(a: Semantics, b: Semantics)
  {
    && multiset(a.thresholds) == multiset(b.thresholds) && multiset(a.improvements) == multiset(b.improvements)
    && multiset(a.evidence) == multiset(b.evidence) && multiset(a.priorities) == multiset(b.priorities)
    && a == b.(thresholds := a.thresholds, improvements := a.improvements, evidence := a.evidence,
               priorities := a.priorities)
  }

  lemma ScopeKeysDistinct(s: PolicyScope)
    requires s.WellFormed()
    ensures DistinctKeys(s.routes, ByItself) && DistinctKeys(s.sets, ByItself)
  {
  }

  lemma SemanticsKeysDistinct(s: Semantics)
    requires s.Valid()
    ensures DistinctKeys(s.thresholds, ByThreshold) && DistinctKeys(s.improvements, ByImprovement)
    ensures DistinctKeys(s.evidence, ByRequirement) && DistinctKeys(s.priorities, ByPath)
    ensures RequirementsValid(s.evidence)
  {
    assert s.BandKindsDistinct() && s.ImprovementsValid() && s.EvidenceValid() && s.PrioritiesValid();
  }

  lemma CanonicalScopeIsExact(a: PolicyScope, b: PolicyScope)
    requires a.WellFormed() && b.WellFormed()
    ensures CanonicalScope(a) == CanonicalScope(b) <==> SameScope(a, b)
  {
    ScopeKeysDistinct(a);
    ScopeKeysDistinct(b);
    SortForgetsOrder(a.routes, b.routes, ByItself);
    SortForgetsOrder(a.sets, b.sets, ByItself);
    hide SortedBy;
  }

  lemma CanonicalSemanticsIsExact(a: Semantics, b: Semantics)
    requires a.Valid() && b.Valid()
    ensures CanonicalSemantics(a) == CanonicalSemantics(b) <==> SameSemantics(a, b)
  {
    SemanticsKeysDistinct(a);
    SemanticsKeysDistinct(b);
    SortForgetsOrder(a.thresholds, b.thresholds, ByThreshold);
    SortForgetsOrder(a.improvements, b.improvements, ByImprovement);
    SortForgetsOrder(a.evidence, b.evidence, ByRequirement);
    SortForgetsOrder(a.priorities, b.priorities, ByPath);
    hide SortedBy, Semantics.FirstDefect;
  }

  lemma SortKeepsAll<T(!new)>(s: seq<T>, key: T -> SortKey, ok: T -> bool)
    requires forall i :: 0 <= i < |s| ==> ok(s[i])
    ensures |SortedBy(s, key)| == |s| && forall i :: 0 <= i < |s| ==> ok(SortedBy(s, key)[i])
  {
    SortedPermutes(s, key);
    var t := SortedBy(s, key);
    assert |multiset(t)| == |multiset(s)|;
    forall i | 0 <= i < |t|
      ensures ok(t[i])
    {
      assert t[i] in multiset(s);
    }
  }

  lemma CanonicalScopeIsShort(s: PolicyScope)
    requires ShortScope(s)
    ensures ShortScope(CanonicalScope(s))
  {
    SortKeepsAll(s.routes, ByItself, (id: Id) => |id| < TWO_64);
    SortKeepsAll(s.sets, ByItself, (id: Id) => |id| < TWO_64);
    hide SortedBy;
  }

  lemma CanonicalSemanticsIsShort(s: Semantics)
    requires ShortSemantics(s) && RequirementsValid(s.evidence)
    ensures ShortSemantics(CanonicalSemantics(s)) && RequirementsValid(CanonicalSemantics(s).evidence)
  {
    SortKeepsAll(s.thresholds, ByThreshold, (r: ThresholdRule) => true);
    SortKeepsAll(s.improvements, ByImprovement, (r: ImprovementRule) => true);
    SortKeepsAll(s.evidence, ByRequirement, (r: Requirement) => r.Valid());
    SortKeepsAll(s.priorities, ByPath, (p: Priority) => |p.path| < TWO_64);
    hide SortedBy, Requirement.Valid;
  }

  lemma TagCancels(tag: seq<byte>, a: seq<byte>, b: seq<byte>)
    requires |tag| < TWO_64 && PutTag(tag, a) == PutTag(tag, b)
    ensures a == b
  {
    hide U8, PutU8, Bytes, PutBytes;
    assert U8(PutTag(tag, a), Malformed).rest == PutBytes(tag, a);
    assert Bytes(PutBytes(tag, a), U64_MAX, Malformed) == Bytes(PutBytes(tag, b), U64_MAX, Malformed);
  }

  // Two scopes feed the same bytes exactly when they agree up to the order of
  // their lists; what follows them is not confused with them.
  lemma ScopeStreamIsExact(a: PolicyScope, b: PolicyScope, x: seq<byte>, y: seq<byte>)
    requires a.WellFormed() && b.WellFormed() && ShortScope(a) && ShortScope(b)
    ensures ScopeStream(a, x) == ScopeStream(b, y) <==> SameScope(a, b) && x == y
  {
    CanonicalScopeIsExact(a, b);
    CanonicalScopeIsShort(a);
    CanonicalScopeIsShort(b);
    hide CanonicalScope, PutTag, PutScope, AnyScope, SameScope, ShortScope;
    if ScopeStream(a, x) == ScopeStream(b, y) {
      TagCancels(SCOPE_TAG, PutScope(CanonicalScope(a), x), PutScope(CanonicalScope(b), y));
      ScopeReadsBack(CanonicalScope(a), x);
      ScopeReadsBack(CanonicalScope(b), y);
    }
  }

  lemma SemanticsStreamIsExact(a: Semantics, b: Semantics, x: seq<byte>, y: seq<byte>)
    requires a.Valid() && b.Valid() && ShortSemantics(a) && ShortSemantics(b)
    ensures SemanticsStream(a, x) == SemanticsStream(b, y) <==> SameSemantics(a, b) && x == y
  {
    SemanticsKeysDistinct(a);
    SemanticsKeysDistinct(b);
    CanonicalSemanticsIsExact(a, b);
    CanonicalSemanticsIsShort(a);
    CanonicalSemanticsIsShort(b);
    hide CanonicalSemantics, PutTag, PutSemantics, AnySemantics, SameSemantics, ShortSemantics, RequirementsValid,
         Semantics.FirstDefect;
    if SemanticsStream(a, x) == SemanticsStream(b, y) {
      TagCancels(SEMANTICS_TAG, PutSemantics(CanonicalSemantics(a), x), PutSemantics(CanonicalSemantics(b), y));
      SemanticsReadBack(CanonicalSemantics(a), x);
      SemanticsReadBack(CanonicalSemantics(b), y);
    }
  }

  ghost predicate Digestible(p: Records.AdaptivePolicy)
  {
    && p.semantics.Valid() && p.scope.WellFormed() && ShortSemantics(p.semantics) && ShortScope(p.scope)
    && |p.id| < TWO_64 && |p.name| < TWO_64
  }

  // Two policies feed their digest the same bytes exactly when they agree on
  // identity, name, lifecycle, generation, and, up to the order of what is
  // declared as a list but meant as a set, on scope and semantics.
  lemma PolicyStreamIsExact(p: Records.AdaptivePolicy, q: Records.AdaptivePolicy)
    requires Digestible(p) && Digestible(q)
    ensures PolicyStream(p) == PolicyStream(q) <==>
      && p.id == q.id && p.name == q.name && p.lifecycle == q.lifecycle && p.generation == q.generation
      && SameScope(p.scope, q.scope) && SameSemantics(p.semantics, q.semantics)
  {
    var pt, qt := Tail(p), Tail(q);
    TailsAreExact(p, q);
    SemanticsStreamIsExact(p.semantics, q.semantics, pt, qt);
    var ps, qs := SemanticsStream(p.semantics, pt), SemanticsStream(q.semantics, qt);
    ScopeStreamIsExact(p.scope, q.scope, ps, qs);
    hide ScopeStream, SemanticsStream, PutTag, SameScope, SameSemantics, Tail, Semantics.FirstDefect, ShortSemantics,
         ShortScope;
    NamesAreExact(p, q, ScopeStream(p.scope, ps), ScopeStream(q.scope, qs));
  }

  lemma TailsAreExact(p: Records.AdaptivePolicy, q: Records.AdaptivePolicy)
    ensures Tail(p) == Tail(q) <==> p.lifecycle == q.lifecycle && p.generation == q.generation
  {
    assert LifecycleOf(PutLifecycle(p.lifecycle, PutU64(p.generation, [])))
        == Got(p.lifecycle, PutU64(p.generation, []));
    assert LifecycleOf(PutLifecycle(q.lifecycle, PutU64(q.generation, [])))
        == Got(q.lifecycle, PutU64(q.generation, []));
    hide U8, PutU8, U64, PutU64, LifecycleOf;
    assert U64(PutU64(p.generation, []), Malformed) == Got(p.generation, []);
    assert U64(PutU64(q.generation, []), Malformed) == Got(q.generation, []);
  }

  lemma IdCancels(a: Id, b: Id, x: seq<byte>, y: seq<byte>)
    requires |a| < TWO_64 && |b| < TWO_64
    ensures PutId(a, x) == PutId(b, y) <==> a == b && x == y
  {
    hide AnyId, PutId;
    IdsReadBack(x);
    IdsReadBack(y);
  }

  lemma VersionCancels(a: seq<byte>, b: seq<byte>)
    ensures PutU32(DIGEST_VERSION, a) == PutU32(DIGEST_VERSION, b) ==> a == b
  {
    hide PutU32, U32;
    assert U32(PutU32(DIGEST_VERSION, a), Malformed).rest == a && U32(PutU32(DIGEST_VERSION, b), Malformed).rest == b;
  }

  lemma NamesAreExact(p: Records.AdaptivePolicy, q: Records.AdaptivePolicy, x: seq<byte>, y: seq<byte>)
    requires |p.id| < TWO_64 && |p.name| < TWO_64 && |q.id| < TWO_64 && |q.name| < TWO_64
    ensures Named(p, x) == Named(q, y) <==> p.id == q.id && p.name == q.name && x == y
  {
    hide PutTag, PutU32, PutId;
    IdCancels(p.name, q.name, x, y);
    var a, b := PutId(p.name, x), PutId(q.name, y);
    IdCancels(p.id, q.id, a, b);
    if Named(p, x) == Named(q, y) {
      TagCancels(POLICY_TAG, PutU32(DIGEST_VERSION, PutId(p.id, a)), PutU32(DIGEST_VERSION, PutId(q.id, b)));
      VersionCancels(PutId(p.id, a), PutId(q.id, b));
    }
  }
}
