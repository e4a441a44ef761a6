// The durable store: a header, five counters and six sections of
// length-prefixed records behind an integrity trailer (src/persistence.cpp).
// The hash of the trailer is a parameter.

module Store {
  import opened Base
  import opened Policy
  import opened Records
  import opened Durable
  import opened Codec
  import opened StoreFields
  import opened StoreRecords
  import opened StoreCanonical
  import opened StoreSizes

  const STORE_MAGIC: u32 := 0x50465241
  const MAX_STORE: nat := 67_108_864
  const MAX_RECORD: u64 := 16_777_216
  const MAX_POLICIES: u64 := 100_000
  const MAX_REVOCATIONS: u64 := 4096
  const MAX_HISTORY: u64 := 4096

  // ------------------------------------------------------------------------
  // Sections
  // ------------------------------------------------------------------------

  // Reads n records; what was read before decides whether the next one fits.
  function RecordsOf<T>(b: seq<byte>, n: nat, get: (seq<T>, seq<byte>) -> Parse<T>, before: seq<T>): Parse<seq<T>>
    decreases n
  {
    if n == 0 then Got(before, b)
    else
      var (record, b) :- Bytes(b, MAX_RECORD, Truncated);
      var (x, _) :- get(before, record);
      RecordsOf(b, n - 1, get, before + [x])
  }

  function PutRecords<T>(xs: seq<T>, put: T -> seq<byte>, rest: seq<byte>): seq<byte>
  {
    if xs == [] then rest else PutBytes(put(xs[0]), PutRecords(xs[1..], put, rest))
  }

  // A missing count is refused with a status of its own.
  function Section<T>(b: seq<byte>, limit: u64, missing: Status, get: (seq<T>, seq<byte>) -> Parse<T>): Parse<seq<T>>
  {
    var (count, b) :- U64(b, missing);
    if count > limit then Bad(AbsurdCount) else RecordsOf(b, count, get, [])
  }

  function PutSection<T>(xs: seq<T>, put: T -> seq<byte>, rest: seq<byte>): seq<byte>
  {
    PutU64(|xs| % TWO_64, PutRecords(xs, put, rest))
  }

  // A record codec that accepts exactly what it writes of the values that fit.
  ghost predicate Exact<T(!new)>(
    get: (seq<T>, seq<byte>) -> Parse<T>, put: T -> seq<byte>, fits: (seq<T>, T) -> bool)
  {
    && (forall before, b :: get(before, b).Got? ==>
          get(before, b).rest == [] && fits(before, get(before, b).value) && b == put(get(before, b).value))
    && (forall before, x :: fits(before, x) ==> get(before, put(x)) == Got(x, []))
  }

  predicate Small<T>(x: T, put: T -> seq<byte>) { |put(x)| <= MAX_RECORD }

  // Every record is small enough and fits after those before it.
  predicate FitAfter<T>(before: seq<T>, xs: seq<T>, put: T -> seq<byte>, fits: (seq<T>, T) -> bool)
    decreases |xs|
  {
    xs == [] || (Small(xs[0], put) && fits(before, xs[0]) && FitAfter(before + [xs[0]], xs[1..], put, fits))
  }

  lemma {:induction false} FitAfterAt<T>(before: seq<T>, xs: seq<T>, put: T -> seq<byte>, fits: (seq<T>, T) -> bool)
    ensures FitAfter(before, xs, put, fits)
            <==> forall i :: 0 <= i < |xs| ==> Small(xs[i], put) && fits(before + xs[..i], xs[i])
    decreases |xs|
  {
    if xs != [] {
      FitAfterAt(before + [xs[0]], xs[1..], put, fits);
      assert before + xs[..0] == before;
      assert forall i :: 0 <= i < |xs[1..]| ==>
        before + [xs[0]] + xs[1..][..i] == before + xs[..i + 1] && xs[1..][i] == xs[i + 1];
      if FitAfter(before, xs, put, fits) {
        forall i | 0 <= i < |xs|
          ensures Small(xs[i], put) && fits(before + xs[..i], xs[i])
        {
          if i > 0 { assert xs[i] == xs[1..][i - 1]; }
        }
      }
    }
  }

  lemma {:induction false} RecordsTrip<T(!new)>(
    before: seq<T>, xs: seq<T>, get: (seq<T>, seq<byte>) -> Parse<T>, put: T -> seq<byte>,
    fits: (seq<T>, T) -> bool, rest: seq<byte>)
    requires Exact(get, put, fits) && FitAfter(before, xs, put, fits)
    ensures RecordsOf(PutRecords(xs, put, rest), |xs|, get, before) == Got(before + xs, rest)
    decreases |xs|
  {
    hide Bytes, PutBytes;
    if xs == [] {
      assert before + xs == before;
    } else {
      RecordsTrip(before + [xs[0]], xs[1..], get, put, fits, rest);
      assert before + [xs[0]] + xs[1..] == before + xs;
    }
  }

  lemma {:induction false} RecordsAreCanonical<T(!new)>(
    b: seq<byte>, n: nat, before: seq<T>, get: (seq<T>, seq<byte>) -> Parse<T>, put: T -> seq<byte>,
    fits: (seq<T>, T) -> bool) returns (xs: seq<T>)
    requires Exact(get, put, fits) && RecordsOf(b, n, get, before).Got?
    ensures |xs| == n && FitAfter(before, xs, put, fits)
    ensures var r := RecordsOf(b, n, get, before); r.value == before + xs && b == PutRecords(xs, put, r.rest)
    decreases n
  {
    xs := [];
    if n > 0 {
      BytesAreCanonical();
      hide Bytes, PutBytes;
      var record := Bytes(b, MAX_RECORD, Truncated);
      var x := get(before, record.value).value;
      var others := RecordsAreCanonical(record.rest, n - 1, before + [x], get, put, fits);
      xs := [x] + others;
      assert xs[1..] == others && before + [x] + others == before + xs;
    }
  }

  // A section is read exactly when it was written from records that fit.
  lemma SectionIsExact<T(!new)>(
    b: seq<byte>, xs: seq<T>, rest: seq<byte>, limit: u64, missing: Status,
    get: (seq<T>, seq<byte>) -> Parse<T>, put: T -> seq<byte>, fits: (seq<T>, T) -> bool)
    requires Exact(get, put, fits)
    ensures Section(b, limit, missing, get) == Got(xs, rest)
            <==> |xs| <= limit && FitAfter([], xs, put, fits) && b == PutSection(xs, put, rest)
  {
    IntegersAreCanonical();
    hide U64, PutU64, RecordsOf, PutRecords, FitAfter;
    var count := U64(b, missing);
    if count.Got? && count.value <= limit && RecordsOf(count.rest, count.value, get, []).Got? {
      var ys := RecordsAreCanonical(count.rest, count.value, [], get, put, fits);
      assert [] + ys == ys;
    }
    if |xs| <= limit && FitAfter([], xs, put, fits) {
      RecordsTrip([], xs, get, put, fits, rest);
      assert [] + xs == xs;
    }
  }

  // ------------------------------------------------------------------------
  // The six sections
  // ------------------------------------------------------------------------

  // No policy twice.
  predicate PoliciesOk(ps: seq<AdaptivePolicy>)
  {
    && |ps| <= MAX_POLICIES
    && (forall i :: 0 <= i < |ps| ==> PolicyOk(ps[i]))
    && DistinctIds(ps)
  }

  predicate RevocationsOk(xs: seq<Revocation>)
  {
    |xs| <= MAX_REVOCATIONS && forall i :: 0 <= i < |xs| ==> RevocationOk(xs[i])
  }

  predicate PreferenceFits(ps: seq<AdaptivePolicy>, x: DurablePreference)
  {
    IdOk(x.policy, POLICY_ID) && PreferenceOk(x.preference) && PreferenceOwned(ps, x)
  }

  predicate PreferencesOk(ps: seq<AdaptivePolicy>, xs: seq<DurablePreference>)
  {
    |xs| <= MAX_POLICIES && forall i :: 0 <= i < |xs| ==> PreferenceFits(ps, xs[i])
  }

  predicate StableFits(ps: seq<AdaptivePolicy>, x: DurableStable)
  {
    IdOk(x.policy, POLICY_ID) && StableOk(x.stable) && OwnerOf(ps, x.policy).Some?
  }

  predicate StablesOk(ps: seq<AdaptivePolicy>, xs: seq<DurableStable>)
  {
    |xs| <= MAX_POLICIES && forall i :: 0 <= i < |xs| ==> StableFits(ps, xs[i])
  }

  predicate TimingFits(ps: seq<AdaptivePolicy>, x: DurableTiming)
  {
    IdOk(x.policy, POLICY_ID) && TimingOk(x) && OwnerOf(ps, x.policy).Some?
  }

  predicate TimingsOk(ps: seq<AdaptivePolicy>, xs: seq<DurableTiming>)
  {
    |xs| <= MAX_POLICIES && forall i :: 0 <= i < |xs| ==> TimingFits(ps, xs[i])
  }

  // A commit time is not part of the record.
  predicate HistoryFits(ps: seq<AdaptivePolicy>, x: DurableHistory)
  {
    && IdOk(x.policy, POLICY_ID) && HistoryOk(x.entry) && OwnerOf(ps, x.policy).Some? && x.entry.committedAt == 0
  }

  predicate HistoriesOk(ps: seq<AdaptivePolicy>, xs: seq<DurableHistory>)
  {
    |xs| <= MAX_HISTORY && forall i :: 0 <= i < |xs| ==> HistoryFits(ps, xs[i])
  }

  function PoliciesOf(b: seq<byte>): Parse<seq<AdaptivePolicy>> { Section(b, MAX_POLICIES, Truncated, PolicyOf) }

  function NextRevocation(before: seq<Revocation>, b: seq<byte>): Parse<Revocation> { RevocationOf(b) }

  function RevocationsOf(b: seq<byte>): Parse<seq<Revocation>>
  {
    Section(b, MAX_REVOCATIONS, Truncated, NextRevocation)
  }

  function NextPreference(ps: seq<AdaptivePolicy>): (seq<DurablePreference>, seq<byte>) -> Parse<DurablePreference>
  {
    (before: seq<DurablePreference>, b: seq<byte>) => PreferenceOf(ps, b)
  }

  function PreferencesOf(ps: seq<AdaptivePolicy>, b: seq<byte>): Parse<seq<DurablePreference>>
  {
    Section(b, MAX_POLICIES, Truncated, NextPreference(ps))
  }

  function NextStable(ps: seq<AdaptivePolicy>): (seq<DurableStable>, seq<byte>) -> Parse<DurableStable>
  {
    (before: seq<DurableStable>, b: seq<byte>) => StableOf(ps, b)
  }

  function StablesOf(ps: seq<AdaptivePolicy>, b: seq<byte>): Parse<seq<DurableStable>>
  {
    Section(b, MAX_POLICIES, AbsurdCount, NextStable(ps))
  }

  function NextTiming(ps: seq<AdaptivePolicy>): (seq<DurableTiming>, seq<byte>) -> Parse<DurableTiming>
  {
    (before: seq<DurableTiming>, b: seq<byte>) => TimingOf(ps, b)
  }

  function TimingsOf(ps: seq<AdaptivePolicy>, b: seq<byte>): Parse<seq<DurableTiming>>
  {
    Section(b, MAX_POLICIES, AbsurdCount, NextTiming(ps))
  }

  function NextHistory(ps: seq<AdaptivePolicy>): (seq<DurableHistory>, seq<byte>) -> Parse<DurableHistory>
  {
    (before: seq<DurableHistory>, b: seq<byte>) => HistoryOf(ps, b)
  }

  function HistoriesOf(ps: seq<AdaptivePolicy>, b: seq<byte>): Parse<seq<DurableHistory>>
  {
    Section(b, MAX_HISTORY, AbsurdCount, NextHistory(ps))
  }

  lemma FitsAlone<T(!new)>(xs: seq<T>, put: T -> seq<byte>, fits: (seq<T>, T) -> bool, ok: T -> bool)
    requires forall before, x :: fits(before, x) <==> ok(x)
    requires forall x :: ok(x) ==> Small(x, put)
    ensures FitAfter([], xs, put, fits) <==> forall i :: 0 <= i < |xs| ==> ok(xs[i])
  {
    FitAfterAt([], xs, put, fits);
    if FitAfter([], xs, put, fits) {
      forall i | 0 <= i < |xs|
        ensures ok(xs[i])
      {
        assert fits([] + xs[..i], xs[i]);
      }
    }
  }

  predicate PolicyFits(before: seq<AdaptivePolicy>, p: AdaptivePolicy)
  {
    PolicyOk(p) && OwnerOf(before, p.id).None?
  }

  lemma PolicyCodecIsExact()
    ensures Exact(PolicyOf, PutPolicyRecord, PolicyFits)
  {
    hide PutPolicyRecord, PolicyOf, PolicyOk, OwnerOf;
    forall before, b { PolicyIsCanonical(before, b); }
    forall before, p | PolicyFits(before, p) { PolicyTrip(before, p); }
  }

  predicate DistinctIds(ps: seq<AdaptivePolicy>) { forall i, j :: 0 <= i < j < |ps| ==> ps[i].id != ps[j].id }

  lemma NotSeen(xs: seq<AdaptivePolicy>, i: nat)
    requires i < |xs|
    ensures PolicyFits([] + xs[..i], xs[i]) <==> PolicyOk(xs[i]) && forall k :: 0 <= k < i ==> xs[k].id != xs[i].id
  {
    hide PolicyOk;
    assert [] + xs[..i] == xs[..i];
  }

  // Each policy fits after the others exactly when no two share an identity.
  lemma PoliciesFit(xs: seq<AdaptivePolicy>)
    ensures FitAfter([], xs, PutPolicyRecord, PolicyFits)
            <==> (forall i :: 0 <= i < |xs| ==> PolicyOk(xs[i])) && DistinctIds(xs)
  {
    hide PutPolicyRecord, PolicyOk, FitAfter, PolicyFits;
    FitAfterAt([], xs, PutPolicyRecord, PolicyFits);
    forall i | 0 <= i < |xs|
      ensures PolicyFits([] + xs[..i], xs[i]) <==> PolicyOk(xs[i]) && forall k :: 0 <= k < i ==> xs[k].id != xs[i].id
      ensures PolicyOk(xs[i]) ==> Small(xs[i], PutPolicyRecord)
    {
      NotSeen(xs, i);
      if PolicyOk(xs[i]) { PolicyIsSmall(xs[i]); }
    }
  }

  lemma PoliciesAreExact(b: seq<byte>, xs: seq<AdaptivePolicy>, rest: seq<byte>)
    ensures PoliciesOf(b) == Got(xs, rest) <==> PoliciesOk(xs) && b == PutSection(xs, PutPolicyRecord, rest)
  {
    hide Section, PutSection, PutPolicyRecord, PolicyOf, PolicyOk, FitAfter, PolicyFits;
    PolicyCodecIsExact();
    PoliciesFit(xs);
    SectionIsExact(b, xs, rest, MAX_POLICIES, Truncated, PolicyOf, PutPolicyRecord, PolicyFits);
  }

  lemma RevocationsAreExact(b: seq<byte>, xs: seq<Revocation>, rest: seq<byte>)
    ensures RevocationsOf(b) == Got(xs, rest) <==> RevocationsOk(xs) && b == PutSection(xs, PutRevocationRecord, rest)
  {
    hide Section, PutSection, PutRevocationRecord, RevocationOf, RevocationOk, IdOk;
    forall b { RevocationIsCanonical(b); }
    var fits := (before: seq<Revocation>, x: Revocation) => RevocationOk(x);
    SectionIsExact(b, xs, rest, MAX_REVOCATIONS, Truncated, NextRevocation, PutRevocationRecord, fits);
    forall x | RevocationOk(x) ensures Small(x, PutRevocationRecord) { RevocationIsSmall(x); }
    FitsAlone(xs, PutRevocationRecord, fits, (x: Revocation) => RevocationOk(x));
  }

  lemma PreferencesAreExact(ps: seq<AdaptivePolicy>, b: seq<byte>, xs: seq<DurablePreference>, rest: seq<byte>)
    ensures PreferencesOf(ps, b) == Got(xs, rest) <==>
              PreferencesOk(ps, xs) && b == PutSection(xs, PutPreferenceRecord, rest)
  {
    hide Section, PutSection, PutPreferenceRecord, PreferenceOf, PreferenceOk, OwnerOf, IdOk;
    forall b { PreferenceIsCanonical(ps, b); }
    var fits := (before: seq<DurablePreference>, x: DurablePreference) => PreferenceFits(ps, x);
    SectionIsExact(b, xs, rest, MAX_POLICIES, Truncated, NextPreference(ps), PutPreferenceRecord, fits);
    forall x | PreferenceFits(ps, x) ensures Small(x, PutPreferenceRecord) { PreferenceIsSmall(x); }
    FitsAlone(xs, PutPreferenceRecord, fits, (x: DurablePreference) => PreferenceFits(ps, x));
  }

  lemma StablesAreExact(ps: seq<AdaptivePolicy>, b: seq<byte>, xs: seq<DurableStable>, rest: seq<byte>)
    ensures StablesOf(ps, b) == Got(xs, rest) <==> StablesOk(ps, xs) && b == PutSection(xs, PutStableRecord, rest)
  {
    hide Section, PutSection, PutStableRecord, StableOf, StableOk, OwnerOf, IdOk;
    forall b { StableIsCanonical(ps, b); }
    var fits := (before: seq<DurableStable>, x: DurableStable) => StableFits(ps, x);
    SectionIsExact(b, xs, rest, MAX_POLICIES, AbsurdCount, NextStable(ps), PutStableRecord, fits);
    forall x | StableFits(ps, x) ensures Small(x, PutStableRecord) { StableIsSmall(x); }
    FitsAlone(xs, PutStableRecord, fits, (x: DurableStable) => StableFits(ps, x));
  }

  lemma TimingsAreExact(ps: seq<AdaptivePolicy>, b: seq<byte>, xs: seq<DurableTiming>, rest: seq<byte>)
    ensures TimingsOf(ps, b) == Got(xs, rest) <==> TimingsOk(ps, xs) && b == PutSection(xs, PutTimingRecord, rest)
  {
    hide Section, PutSection, PutTimingRecord, TimingOf, TimingOk, OwnerOf, IdOk;
    forall b { TimingIsCanonical(ps, b); }
    var fits := (before: seq<DurableTiming>, x: DurableTiming) => TimingFits(ps, x);
    SectionIsExact(b, xs, rest, MAX_POLICIES, AbsurdCount, NextTiming(ps), PutTimingRecord, fits);
    forall x | TimingFits(ps, x) ensures Small(x, PutTimingRecord) { TimingIsSmall(x); }
    FitsAlone(xs, PutTimingRecord, fits, (x: DurableTiming) => TimingFits(ps, x));
  }

  lemma HistoriesAreExact(ps: seq<AdaptivePolicy>, b: seq<byte>, xs: seq<DurableHistory>, rest: seq<byte>)
    ensures HistoriesOf(ps, b) == Got(xs, rest) <==> HistoriesOk(ps, xs) && b == PutSection(xs, PutHistoryRecord, rest)
  {
    hide Section, PutSection, PutHistoryRecord, HistoryOf, HistoryOk, OwnerOf, IdOk;
    forall b { HistoryIsCanonical(ps, b); }
    var fits := (before: seq<DurableHistory>, x: DurableHistory) => HistoryFits(ps, x);
    SectionIsExact(b, xs, rest, MAX_HISTORY, AbsurdCount, NextHistory(ps), PutHistoryRecord, fits);
    forall x | HistoryFits(ps, x) ensures Small(x, PutHistoryRecord) { HistoryIsSmall(x); }
    FitsAlone(xs, PutHistoryRecord, fits, (x: DurableHistory) => HistoryFits(ps, x));
  }

  // ------------------------------------------------------------------------
  // The body
  // ------------------------------------------------------------------------

  datatype Counters = Counters(
    epoch: u64, authorityGeneration: u64, evidenceGeneration: u64, evidenceWatermark: u64, upstreamWatermark: u64)
  {
    predicate Ok() { epoch != 0 && authorityGeneration != 0 && evidenceGeneration != 0 }
  }

  // The reader also looks for an evidence watermark without a generation, which
  // the check of the generations has already excluded.
  function CountersOf(b: seq<byte>): Parse<Counters>
  {
    var (epoch, b) :- U64(b, Truncated);
    var (authority, b) :- U64(b, Truncated);
    var (evidence, b) :- U64(b, Truncated);
    var (evidenceWatermark, b) :- U64(b, Truncated);
    var (upstreamWatermark, b) :- U64(b, Truncated);
    if epoch == 0 || authority == 0 || evidence == 0 then Bad(InvalidGeneration)
    else Got(Counters(epoch, authority, evidence, evidenceWatermark, upstreamWatermark), b)
  }

  function PutCounters(c: Counters, rest: seq<byte>): (b: seq<byte>)
    ensures c.Ok() ==> CountersOf(b) == Got(c, rest)
  {
    PutU64(c.epoch, PutU64(c.authorityGeneration, PutU64(c.evidenceGeneration, PutU64(c.evidenceWatermark,
      PutU64(c.upstreamWatermark, rest)))))
  }

  lemma CountersAreCanonical(b: seq<byte>)
    ensures CountersOf(b).Got? ==> CountersOf(b).value.Ok() && b == PutCounters(CountersOf(b).value, CountersOf(b).rest)
  {
    IntegersAreCanonical();
    hide U64, PutU64;
  }

  function BodyOf(b: seq<byte>): Parse<DurableState>
  {
    var (c, b) :- CountersOf(b);
    var (policies, b) :- PoliciesOf(b);
    var (revocations, b) :- RevocationsOf(b);
    var (preferences, b) :- PreferencesOf(policies, b);
    var (stables, b) :- StablesOf(policies, b);
    var (timings, b) :- TimingsOf(policies, b);
    var (history, b) :- HistoriesOf(policies, b);
    if b != [] then Bad(TrailingBytes)
    else
      Got(DurableState(PERSISTENCE_FORMAT_VERSION, c.epoch, c.authorityGeneration, c.evidenceGeneration,
                       c.evidenceWatermark, c.upstreamWatermark, policies, revocations, preferences, stables, timings,
                       history), [])
  }

  function CountersIn(d: DurableState): Counters
  {
    Counters(d.epoch, d.authorityGeneration, d.evidenceGeneration, d.evidenceWatermark, d.upstreamWatermark)
  }

  function PutBody(d: DurableState): seq<byte>
  {
    PutCounters(CountersIn(d), PutSection(d.policies, PutPolicyRecord, PutSection(d.revocations, PutRevocationRecord,
      PutSection(d.preferences, PutPreferenceRecord, PutSection(d.stables, PutStableRecord,
        PutSection(d.timings, PutTimingRecord, PutSection(d.history, PutHistoryRecord, [])))))))
  }

  // What a store must be like to be read back.
  predicate Storable(d: DurableState)
  {
    && d.version == PERSISTENCE_FORMAT_VERSION && CountersIn(d).Ok()
    && PoliciesOk(d.policies) && RevocationsOk(d.revocations) && PreferencesOk(d.policies, d.preferences)
    && StablesOk(d.policies, d.stables) && TimingsOk(d.policies, d.timings) && HistoriesOk(d.policies, d.history)
  }

  lemma BodyTrip(d: DurableState)
    requires Storable(d)
    ensures BodyOf(PutBody(d)) == Got(d, [])
  {
    hide CountersOf, PutCounters, Counters.Ok, PutSection, PoliciesOf, PoliciesOk, RevocationsOf, RevocationsOk,
         PreferencesOf, PreferencesOk, StablesOf, StablesOk, TimingsOf, TimingsOk, HistoriesOf, HistoriesOk;
    var b6 := PutSection(d.history, PutHistoryRecord, []);
    var b5 := PutSection(d.timings, PutTimingRecord, b6);
    var b4 := PutSection(d.stables, PutStableRecord, b5);
    var b3 := PutSection(d.preferences, PutPreferenceRecord, b4);
    var b2 := PutSection(d.revocations, PutRevocationRecord, b3);
    var b1 := PutSection(d.policies, PutPolicyRecord, b2);
    PoliciesAreExact(b1, d.policies, b2);
    RevocationsAreExact(b2, d.revocations, b3);
    PreferencesAreExact(d.policies, b3, d.preferences, b4);
    StablesAreExact(d.policies, b4, d.stables, b5);
    TimingsAreExact(d.policies, b5, d.timings, b6);
    HistoriesAreExact(d.policies, b6, d.history, []);
  }

  lemma BodyIsCanonical(b: seq<byte>)
    ensures var r := BodyOf(b);
            r.Got? ==> Storable(r.value) && r.rest == [] && b == PutBody(r.value)
  {
    hide CountersOf, PutCounters, Counters.Ok, PutSection, PoliciesOf, PoliciesOk, RevocationsOf, RevocationsOk,
         PreferencesOf, PreferencesOk, StablesOf, StablesOk, TimingsOf, TimingsOk, HistoriesOf, HistoriesOk;
    var r := BodyOf(b);
    if r.Got? {
      CountersAreCanonical(b);
      var d, b1 := r.value, CountersOf(b).rest;
      var b2 := PoliciesOf(b1).rest;
      var b3 := RevocationsOf(b2).rest;
      var b4 := PreferencesOf(d.policies, b3).rest;
      var b5 := StablesOf(d.policies, b4).rest;
      var b6 := TimingsOf(d.policies, b5).rest;
      PoliciesAreExact(b1, d.policies, b2);
      RevocationsAreExact(b2, d.revocations, b3);
      PreferencesAreExact(d.policies, b3, d.preferences, b4);
      StablesAreExact(d.policies, b4, d.stables, b5);
      TimingsAreExact(d.policies, b5, d.timings, b6);
      HistoriesAreExact(d.policies, b6, d.history, []);
    }
  }

  // ------------------------------------------------------------------------
  // Header and trailer
  // ------------------------------------------------------------------------

  const HEADER: nat := 8
  const TRAILER: nat := 8

  function PutHeader(body: seq<byte>): seq<byte>
  {
    PutU32(STORE_MAGIC, PutU32(PERSISTENCE_FORMAT_VERSION, body))
  }

  function Seal(body: seq<byte>, hash: seq<byte> -> u64): seq<byte>
  {
    PutHeader(body) + PutU64(hash(PutHeader(body)), [])
  }

  // The body of a store whose header and trailer are right.
  function Unseal(b: seq<byte>, hash: seq<byte> -> u64): Parse<seq<byte>>
  {
    if b == [] then Bad(Empty)
    else if |b| > MAX_STORE then Bad(TooLarge)
    else if |b| < HEADER + TRAILER then Bad(Truncated)
    else
      var (magic, versioned) :- U32(b, BadMagic);
      if magic != STORE_MAGIC then Bad(BadMagic)
      else
        var (version, _) :- U32(versioned, BadVersion);
        if version != PERSISTENCE_FORMAT_VERSION then Bad(BadVersion)
        else
          var end := |b| - TRAILER;
          var (stored, _) :- U64(b[end..], Integrity);
          if stored != hash(b[..end]) then Bad(Integrity) else Got(b[HEADER..end], [])
  }

  function Encode(d: DurableState, hash: seq<byte> -> u64): seq<byte> { Seal(PutBody(d), hash) }

  function Decode(b: seq<byte>, hash: seq<byte> -> u64): Parse<DurableState>
  {
    var (body, _) :- Unseal(b, hash);
    BodyOf(body)
  }

  lemma HeaderSplits(body: seq<byte>, tail: seq<byte>)
    ensures PutHeader(body) + tail == PutHeader(body + tail)
    ensures |PutHeader(body)| == HEADER + |body| && PutHeader(body)[HEADER..] == body
  {
    hide PutU32, U32;
    WritersPrepend(PERSISTENCE_FORMAT_VERSION, 0, body);
    WritersPrepend(PERSISTENCE_FORMAT_VERSION, 0, body + tail);
    var version, magic := PutU32(PERSISTENCE_FORMAT_VERSION, []), PutU32(STORE_MAGIC, []);
    WritersPrepend(STORE_MAGIC, 0, version + body);
    WritersPrepend(STORE_MAGIC, 0, version + (body + tail));
    Associates(magic, version, body, tail);
  }

  lemma Associates(a: seq<byte>, b: seq<byte>, c: seq<byte>, d: seq<byte>)
    ensures a + (b + c) + d == a + (b + (c + d))
    ensures |a + (b + c)| == |a| + |b| + |c| && (a + (b + c))[|a| + |b|..] == c
  {
    assert a + (b + c) == a + b + c;
    assert a + b + c + d == a + b + (c + d);
  }

  lemma SealedIsOpened(body: seq<byte>, hash: seq<byte> -> u64)
    requires |Seal(body, hash)| <= MAX_STORE
    ensures Unseal(Seal(body, hash), hash) == Got(body, [])
  {
    var content := PutHeader(body);
    var tail := PutU64(hash(content), []);
    var b := Seal(body, hash);
    HeaderSplits(body, tail);
    assert b == PutHeader(body + tail) && |tail| == TRAILER;
    assert U32(b, BadMagic) == Got(STORE_MAGIC, PutU32(PERSISTENCE_FORMAT_VERSION, body + tail));
    hide PutHeader, U32, U64, PutU32, PutU64;
    assert b[..|b| - TRAILER] == content && b[|b| - TRAILER..] == tail;
    assert b[HEADER..|b| - TRAILER] == content[HEADER..];
  }

  lemma OpenedIsSealed(b: seq<byte>, hash: seq<byte> -> u64)
    requires Unseal(b, hash).Got?
    ensures var r := Unseal(b, hash); r.rest == [] && b == Seal(r.value, hash) && |b| <= MAX_STORE
  {
    IntegersAreCanonical();
    hide U32, U64, PutU32, PutU64;
    var end := |b| - TRAILER;
    var payload := U32(U32(b, BadMagic).rest, BadVersion).rest;
    assert b == PutHeader(payload);
    HeaderSplits(payload, []);
    var body, tail := payload[..|payload| - TRAILER], payload[|payload| - TRAILER..];
    assert payload == body + tail;
    HeaderSplits(body, tail);
    assert b[..end] == PutHeader(body) && b[end..] == tail && b[HEADER..end] == body;
    TrailerIsCanonical(tail);
  }

  // The store is an exact format: a byte string is accepted precisely when it
  // is the encoding of a storable state of admissible size, and then that state
  // is what is read. In particular no two byte strings are read alike, and
  // every state that is read could have been written.
  lemma StoreIsExact(b: seq<byte>, d: DurableState, hash: seq<byte> -> u64)
    ensures Decode(b, hash) == Got(d, []) <==> Storable(d) && b == Encode(d, hash) && |b| <= MAX_STORE
    ensures Decode(b, hash).Got? ==> Decode(b, hash).rest == []
  {
    hide Unseal, Seal, BodyOf, PutBody, Storable;
    if Unseal(b, hash).Got? {
      OpenedIsSealed(b, hash);
      BodyIsCanonical(Unseal(b, hash).value);
    }
    if Storable(d) && b == Encode(d, hash) && |b| <= MAX_STORE {
      SealedIsOpened(PutBody(d), hash);
      BodyTrip(d);
    }
  }

  lemma TrailerIsCanonical(tail: seq<byte>)
    requires |tail| == TRAILER
    ensures U64(tail, Integrity).Got? && tail == PutU64(U64(tail, Integrity).value, [])
  {
    FromLittleEndianBound(tail, 8);
    Powers();
    IntegersAreCanonical();
  }

  // ------------------------------------------------------------------------
  // The round trip
  // ------------------------------------------------------------------------

  // The commit time of a history entry is not written.
  lemma HistoryIgnoresCommitTime(d: DurableState, hash: seq<byte> -> u64)
    ensures Encode(Stripped(d), hash) == Encode(d, hash)
  {
    hide Seal, PutSection, PutCounters;
    StrippedSection(d.history, Stripped(d).history);
  }

  lemma StrippedSection(xs: seq<DurableHistory>, ys: seq<DurableHistory>)
    requires |ys| == |xs|
    requires forall i :: 0 <= i < |xs| ==> ys[i] == xs[i].(entry := xs[i].entry.(committedAt := 0))
    ensures PutSection(xs, PutHistoryRecord, []) == PutSection(ys, PutHistoryRecord, [])
  {
    StrippedRecords(xs, ys, []);
  }

  lemma {:induction false} StrippedRecords(xs: seq<DurableHistory>, ys: seq<DurableHistory>, rest: seq<byte>)
    requires |ys| == |xs|
    requires forall i :: 0 <= i < |xs| ==> ys[i] == xs[i].(entry := xs[i].entry.(committedAt := 0))
    ensures PutRecords(xs, PutHistoryRecord, rest) == PutRecords(ys, PutHistoryRecord, rest)
  {
    if xs != [] {
      StrippedRecords(xs[1..], ys[1..], rest);
    }
  }

  // Decoding an encoding gives the same state, except for the commit times of
  // the history, exactly when the state is storable and fits.
  lemma RoundTrip(d: DurableState, hash: seq<byte> -> u64)
    ensures Decode(Encode(d, hash), hash) == Got(Stripped(d), [])
            <==> Storable(Stripped(d)) && |Encode(d, hash)| <= MAX_STORE
  {
    hide Encode, Decode, Storable;
    HistoryIgnoresCommitTime(d, hash);
    StoreIsExact(Encode(d, hash), Stripped(d), hash);
  }
}
