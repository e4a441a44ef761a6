// What is saved and how it is brought back: durations instead of clock readings,
// policies that must be revalidated, a new epoch (src/fabric_api.cpp).

module Durable {
  import opened Base
  import opened Evidence
  import opened Outcomes
  import opened Policy
  import opened Records
  import opened Indexing

  datatype DurablePreference = DurablePreference(policy: Id, preference: Preference)
  datatype DurableStable = DurableStable(policy: Id, stable: Stable)
  datatype DurableHistory = DurableHistory(policy: Id, entry: HistoryEntry)

  // Timers as remaining durations and stamps as ages: a clock reading means
  // nothing after a restart and is never written.
  datatype DurableTiming = DurableTiming(
    policy: Id, holdDownActive: bool, holdDownRemaining: Ticks, policyGeneration: u64, lockedPath: Id,
    cooldownActive: bool, cooldownRemaining: Ticks, penalty: u32, decayRemaining: Ticks, churnAges: seq<Ticks>)

  const PERSISTENCE_FORMAT_VERSION: u32 := 1

  datatype DurableState = DurableState(
    version: u32, epoch: u64, authorityGeneration: u64, evidenceGeneration: u64, evidenceWatermark: u64,
    upstreamWatermark: u64, policies: seq<AdaptivePolicy>, revocations: seq<Revocation>,
    preferences: seq<DurablePreference>, stables: seq<DurableStable>, timings: seq<DurableTiming>,
    history: seq<DurableHistory>)

  function Remaining(deadline: Ticks, now: Ticks): Ticks { if deadline > now then deadline - now else 0 }

  function Elapsed(now: Ticks, since: Ticks): Ticks { if now >= since then now - since else 0 }

  function Ages(stamps: seq<Ticks>, now: Ticks): seq<Ticks>
  {
    seq(|stamps|, i requires 0 <= i < |stamps| => Elapsed(now, stamps[i]))
  }

  function Stamps(ages: seq<Ticks>, now: Ticks): seq<Ticks>
  {
    seq(|ages|, i requires 0 <= i < |ages| => Elapsed(now, ages[i]))
  }

  function SavedTiming(id: Id, r: PolicyRecord, now: Ticks): DurableTiming
  {
    var t := r.timing;
    var holding := t.holdDownActive && t.holdDownDeadline > now;
    var cooling := t.cooldownActive && t.cooldownDeadline > now;
    DurableTiming(id, holding, if holding then t.holdDownDeadline - now else 0, r.policy.generation, t.lockedPath,
                  cooling, if cooling then t.cooldownDeadline - now else 0, t.penalty,
                  Remaining(t.lastDecay, now), Ages(t.churn, now))
  }

  function SavedHistory(id: Id, history: seq<HistoryEntry>): seq<DurableHistory>
  {
    seq(|history|, i requires 0 <= i < |history| => DurableHistory(id, history[i]))
  }

  ghost function AllHistory(policies: map<Id, PolicyRecord>, ids: seq<Id>): seq<DurableHistory>
    requires forall i :: 0 <= i < |ids| ==> ids[i] in policies
  {
    if ids == [] then []
    else AllHistory(policies, ids[..|ids| - 1])
         + SavedHistory(ids[|ids| - 1], policies[ids[|ids| - 1]].history)
  }

  // The clock is read once for each policy.
  type SaveTimes = Id -> Ticks

  ghost function BuildDurable(s: State, now: SaveTimes): DurableState
  {
    var ids := InOrderOf(s.policies.Keys);
    var revoked := InOrderOf(s.revocations.Keys);
    DurableState(PERSISTENCE_FORMAT_VERSION, s.epoch, s.authorityGeneration, s.evidenceGeneration,
      s.evidence.watermark, s.upstreamWatermark,
      seq(|ids|, i requires 0 <= i < |ids| => s.policies[ids[i]].policy),
      seq(|revoked|, i requires 0 <= i < |revoked| => s.revocations[revoked[i]]),
      seq(|ids|, i requires 0 <= i < |ids| => DurablePreference(ids[i], s.policies[ids[i]].preference)),
      seq(|ids|, i requires 0 <= i < |ids| => DurableStable(ids[i], s.policies[ids[i]].stable)),
      seq(|ids|, i requires 0 <= i < |ids| => SavedTiming(ids[i], s.policies[ids[i]], now(ids[i]))),
      AllHistory(s.policies, ids))
  }

  // The store does not carry the commit time of a history entry.
  function Stripped(d: DurableState): DurableState
  {
    d.(history := seq(|d.history|, i requires 0 <= i < |d.history| =>
      d.history[i].(entry := d.history[i].entry.(committedAt := 0))))
  }

  // ------------------------------------------------------------------------
  // Recovery
  // ------------------------------------------------------------------------

  function RestoredPolicy(p: AdaptivePolicy, conservative: bool): PolicyRecord
  {
    PolicyRecord(
      if conservative && !p.lifecycle.Terminal() then p.(lifecycle := NeedsRevalidation) else p,
      [], NoPreference(p.semantics.target), NO_STABLE, NO_TIMING, [], None)
  }

  function RestoredTiming(t: DurableTiming, before: Timing, now: Ticks): Timing
  {
    Timing(t.holdDownActive, WrapAdd(now, t.holdDownRemaining), t.lockedPath, t.cooldownActive,
           WrapAdd(now, t.cooldownRemaining), t.penalty, WrapAdd(now, t.decayRemaining),
           before.churn + Stamps(t.churnAges, now))
  }

  // An identity that is already present keeps its first record.
  function RestorePolicies(ps: seq<AdaptivePolicy>, conservative: bool): map<Id, PolicyRecord>
  {
    if ps == [] then map[]
    else
      var before := RestorePolicies(ps[..|ps| - 1], conservative);
      var p := ps[|ps| - 1];
      if p.id in before then before else before[p.id := RestoredPolicy(p, conservative)]
  }

  function RestoreNames(ps: seq<AdaptivePolicy>): map<Id, Id>
  {
    if ps == [] then map[]
    else
      var before := RestoreNames(ps[..|ps| - 1]);
      var p := ps[|ps| - 1];
      if p.name in before then before else before[p.name := p.id]
  }

  // One section of the store, entry by entry; an entry without its policy is
  // skipped.
  function Each<T>(m: map<Id, PolicyRecord>, items: seq<T>, key: T -> Id, put: (PolicyRecord, T) -> PolicyRecord)
    : (r: map<Id, PolicyRecord>)
    ensures r.Keys == m.Keys
  {
    if items == [] then m
    else
      var before := Each(m, items[..|items| - 1], key, put);
      var x := items[|items| - 1];
      if key(x) in before then before[key(x) := put(before[key(x)], x)] else before
  }

  function PreferenceKey(x: DurablePreference): Id { x.policy }
  function PutPreference(r: PolicyRecord, x: DurablePreference): PolicyRecord
  {
    r.(preference := x.preference.(provenance := x.preference.provenance.(cause := RECOVERED)))
  }

  function StableKey(x: DurableStable): Id { x.policy }
  function PutStable(r: PolicyRecord, x: DurableStable): PolicyRecord { r.(stable := x.stable) }

  function TimingKey(x: DurableTiming): Id { x.policy }
  function PutTiming(now: Ticks): (PolicyRecord, DurableTiming) -> PolicyRecord
  {
    (r: PolicyRecord, x: DurableTiming) => r.(timing := RestoredTiming(x, r.timing, now))
  }

  function RevocationKey(x: Revocation): Id { x.policy }
  function PutRevocation(r: PolicyRecord, x: Revocation): PolicyRecord { r.(revocation := Some(x)) }

  function HistoryKey(x: DurableHistory): Id { x.policy }
  function PutHistory(bound: nat): (PolicyRecord, DurableHistory) -> PolicyRecord
  {
    (r: PolicyRecord, x: DurableHistory) => r.(history := Base.Trimmed(r.history + [x.entry], bound))
  }

  function RestoreRevocations(rs: seq<Revocation>, policies: set<Id>): map<Id, Revocation>
  {
    if rs == [] then map[]
    else
      var before := RestoreRevocations(rs[..|rs| - 1], policies);
      var x := rs[|rs| - 1];
      if x.policy in policies && x.policy !in before then before[x.policy := x] else before
  }

  function RestoredRecords(d: DurableState, now: Ticks, limits: Limits): map<Id, PolicyRecord>
  {
    var policies := RestorePolicies(d.policies, limits.conservativeRecovery);
    var preferred := Each(policies, d.preferences, PreferenceKey, PutPreference);
    var stable := Each(preferred, d.stables, StableKey, PutStable);
    var timed := Each(stable, d.timings, TimingKey, PutTiming(now));
    var revoked := Each(timed, d.revocations, RevocationKey, PutRevocation);
    Each(revoked, d.history, HistoryKey, PutHistory(limits.maxHistory))
  }

  function ReindexedAll(s: State, ids: seq<Id>, limits: Limits): State
  {
    if ids == [] then s else Reindexed(ReindexedAll(s, ids[..|ids| - 1], limits), ids[|ids| - 1], limits)
  }

  function RecoveryRefusal(d: DurableState, limits: Limits): Option<Outcome>
  {
    if d.version != PERSISTENCE_FORMAT_VERSION then Some(UNSUPPORTED_VERSION)
    else if |d.policies| > limits.maxPolicies || |d.revocations| > limits.maxRevocations
            || |d.history| > limits.maxDecisions then Some(RESOURCE_LIMIT)
    else if Next(d.epoch).None? || Next(d.authorityGeneration).None? then Some(GENERATION_OVERFLOW)
    else None
  }

  // Nothing of the previous process survives: no registration, no fence, no
  // attempt, no candidate and no evidence.
  function Bare(d: DurableState, now: Ticks, limits: Limits): State
    requires RecoveryRefusal(d, limits).None?
  {
    var records := RestoredRecords(d, now, limits);
    State(Next(d.epoch).value, Next(d.authorityGeneration).value, d.evidenceGeneration, d.upstreamWatermark,
          Store(map[], d.evidenceWatermark), records, RestoreNames(d.policies), map[], {},
          RestoreRevocations(d.revocations, records.Keys), AttemptLog(map[], []), Indexes(map[], map[], map[], map[]))
  }

  ghost function Recovered(d: DurableState, now: Ticks, limits: Limits): State
    requires RecoveryRefusal(d, limits).None?
  {
    ReindexedAll(Bare(d, now, limits), InOrderOf(RestoredRecords(d, now, limits).Keys), limits)
  }

  // ------------------------------------------------------------------------
  // One policy through save and recovery
  // ------------------------------------------------------------------------

  // The items of one policy, applied in order.
  function FoldFor<T>(r: PolicyRecord, items: seq<T>, id: Id, key: T -> Id,
                      put: (PolicyRecord, T) -> PolicyRecord): PolicyRecord
  {
    if items == [] then r
    else
      var before := FoldFor(r, items[..|items| - 1], id, key, put);
      var x := items[|items| - 1];
      if key(x) == id then put(before, x) else before
  }

  lemma {:induction false} EachAt<T>(
    m: map<Id, PolicyRecord>, items: seq<T>, key: T -> Id, put: (PolicyRecord, T) -> PolicyRecord, id: Id)
    requires id in m
    ensures Each(m, items, key, put)[id] == FoldFor(m[id], items, id, key, put)
  {
    if items != [] {
      EachAt(m, items[..|items| - 1], key, put, id);
    }
  }

  // When exactly one item names the policy, only that item is applied.
  lemma {:induction false} FoldOnce<T>(
    r: PolicyRecord, items: seq<T>, key: T -> Id, put: (PolicyRecord, T) -> PolicyRecord, id: Id, k: nat)
    requires k < |items| && key(items[k]) == id
    requires forall j :: 0 <= j < |items| && j != k ==> key(items[j]) != id
    ensures FoldFor(r, items, id, key, put) == put(r, items[k])
  {
    var last := |items| - 1;
    if k < last {
      FoldOnce(r, items[..last], key, put, id, k);
    } else {
      FoldNone(r, items[..last], key, put, id);
    }
  }

  lemma {:induction false} FoldNone<T>(
    r: PolicyRecord, items: seq<T>, key: T -> Id, put: (PolicyRecord, T) -> PolicyRecord, id: Id)
    requires forall j :: 0 <= j < |items| ==> key(items[j]) != id
    ensures FoldFor(r, items, id, key, put) == r
  {
    if items != [] {
      FoldNone(r, items[..|items| - 1], key, put, id);
    }
  }

  lemma {:induction false} FoldKeepsAllBut(
    r: PolicyRecord, history: seq<DurableHistory>, revocations: seq<Revocation>, id: Id, bound: nat)
    ensures var a := FoldFor(r, history, id, HistoryKey, PutHistory(bound)); a == r.(history := a.history)
    ensures var b := FoldFor(r, revocations, id, RevocationKey, PutRevocation); b == r.(revocation := b.revocation)
    decreases |history| + |revocations|
  {
    if history != [] {
      FoldKeepsAllBut(r, history[..|history| - 1], revocations, id, bound);
    }
    if revocations != [] {
      FoldKeepsAllBut(r, history, revocations[..|revocations| - 1], id, bound);
    }
  }

  // Every record is stored under its own identity.
  ghost predicate Keyed(s: State)
  {
    forall id :: id in s.policies ==> s.policies[id].policy.id == id
  }

  ghost predicate DistinctPolicies(ps: seq<AdaptivePolicy>)
  {
    forall i, j :: 0 <= i < j < |ps| ==> ps[i].id != ps[j].id
  }

  lemma {:induction false} RestoredPolicyAt(ps: seq<AdaptivePolicy>, conservative: bool, k: nat)
    requires DistinctPolicies(ps) && k < |ps|
    ensures ps[k].id in RestorePolicies(ps, conservative)
    ensures RestorePolicies(ps, conservative)[ps[k].id] == RestoredPolicy(ps[k], conservative)
  {
    var init, last := ps[..|ps| - 1], ps[|ps| - 1];
    if k < |ps| - 1 {
      RestoredPolicyAt(init, conservative, k);
    } else {
      RestoredKeys(init, conservative);
    }
  }

  lemma {:induction false} RestoredKeys(ps: seq<AdaptivePolicy>, conservative: bool)
    ensures RestorePolicies(ps, conservative).Keys == set p | p in ps :: p.id
  {
    if ps != [] {
      RestoredKeys(ps[..|ps| - 1], conservative);
      assert ps == ps[..|ps| - 1] + [ps[|ps| - 1]];
    }
  }

  // What one policy is after save and recovery: its identity, semantics,
  // generation, preference and anchor survive, its timers are re-armed, and it
  // has no candidate.
  ghost predicate RestartedRecord(id: Id, r: PolicyRecord, r': PolicyRecord, saved: Ticks, now: Ticks, limits: Limits)
  {
    && r'.policy == RestoredPolicy(r.policy, limits.conservativeRecovery).policy
    && r'.candidates == []
    && r'.preference == r.preference.(provenance := r.preference.provenance.(cause := RECOVERED))
    && r'.stable == r.stable
    && r'.timing == RestoredTiming(SavedTiming(id, r, saved), NO_TIMING, now)
  }

  // Every per-policy section lists the policies in the same order.
  ghost predicate SectionedBy(d: DurableState, ids: seq<Id>)
  {
    && |d.policies| == |d.preferences| == |d.stables| == |d.timings| == |ids|
    && forall j :: 0 <= j < |ids| ==>
         && d.policies[j].id == ids[j] && d.preferences[j].policy == ids[j]
         && d.stables[j].policy == ids[j] && d.timings[j].policy == ids[j]
  }

  lemma BuiltIsSectioned(s: State, saved: SaveTimes)
    requires Keyed(s)
    ensures SectionedBy(Stripped(BuildDurable(s, saved)), InOrderOf(s.policies.Keys))
  {
  }

  ghost predicate ComesBack(d: DurableState, k: nat, r: PolicyRecord, now: Ticks, limits: Limits)
    requires k < |d.policies| == |d.preferences| == |d.stables| == |d.timings|
  {
    && r.policy == RestoredPolicy(d.policies[k], limits.conservativeRecovery).policy
    && r.candidates == []
    && r.preference == PutPreference(r, d.preferences[k]).preference
    && r.stable == d.stables[k].stable
    && r.timing == RestoredTiming(d.timings[k], NO_TIMING, now)
  }

  // The preference, anchor and timers of one policy, in that order.
  function Timed(r: PolicyRecord, d: DurableState, id: Id, now: Ticks): PolicyRecord
  {
    FoldFor(FoldFor(FoldFor(r, d.preferences, id, PreferenceKey, PutPreference), d.stables, id, StableKey, PutStable),
            d.timings, id, TimingKey, PutTiming(now))
  }

  lemma TimedOnce(d: DurableState, ids: seq<Id>, k: nat, r: PolicyRecord, now: Ticks)
    requires SectionedBy(d, ids) && NoDuplicates(ids) && k < |ids|
    ensures Timed(r, d, ids[k], now)
         == PutTiming(now)(PutStable(PutPreference(r, d.preferences[k]), d.stables[k]), d.timings[k])
  {
    FoldOnce(r, d.preferences, PreferenceKey, PutPreference, ids[k], k);
    var preferred := PutPreference(r, d.preferences[k]);
    FoldOnce(preferred, d.stables, StableKey, PutStable, ids[k], k);
    FoldOnce(PutStable(preferred, d.stables[k]), d.timings, TimingKey, PutTiming(now), ids[k], k);
  }

  lemma SectionedRecord(d: DurableState, ids: seq<Id>, k: nat, now: Ticks, limits: Limits)
    requires SectionedBy(d, ids) && NoDuplicates(ids) && k < |ids|
    ensures ids[k] in RestoredRecords(d, now, limits)
    ensures ComesBack(d, k, RestoredRecords(d, now, limits)[ids[k]], now, limits)
  {
    var id := ids[k];
    RestoredPolicyAt(d.policies, limits.conservativeRecovery, k);
    SectionsAt(d, now, limits, id);
    var base := RestoredPolicy(d.policies[k], limits.conservativeRecovery);
    TimedOnce(d, ids, k, base, now);
    var timed := Timed(base, d, id, now);
    FoldKeepsAllBut(timed, d.history, d.revocations, id, limits.maxHistory);
    var revoked := FoldFor(timed, d.revocations, id, RevocationKey, PutRevocation);
    FoldKeepsAllBut(revoked, d.history, d.revocations, id, limits.maxHistory);
  }

  lemma RestartAt(s: State, saved: SaveTimes, now: Ticks, limits: Limits, id: Id)
    requires Keyed(s) && id in s.policies
    ensures var records := RestoredRecords(Stripped(BuildDurable(s, saved)), now, limits);
            id in records && RestartedRecord(id, s.policies[id], records[id], saved(id), now, limits)
  {
    var ids := InOrderOf(s.policies.Keys);
    var k :| 0 <= k < |ids| && ids[k] == id;
    BuiltIsSectioned(s, saved);
    SectionedRecord(Stripped(BuildDurable(s, saved)), ids, k, now, limits);
  }

  // The record of one policy, section after section.
  lemma SectionsAt(d: DurableState, now: Ticks, limits: Limits, id: Id)
    requires id in RestorePolicies(d.policies, limits.conservativeRecovery)
    ensures id in RestoredRecords(d, now, limits)
    ensures RestoredRecords(d, now, limits)[id] ==
      FoldFor(FoldFor(Timed(RestorePolicies(d.policies, limits.conservativeRecovery)[id], d, id, now),
                      d.revocations, id, RevocationKey, PutRevocation),
              d.history, id, HistoryKey, PutHistory(limits.maxHistory))
  {
    var policies := RestorePolicies(d.policies, limits.conservativeRecovery);
    EachAt(policies, d.preferences, PreferenceKey, PutPreference, id);
    var preferred := Each(policies, d.preferences, PreferenceKey, PutPreference);
    EachAt(preferred, d.stables, StableKey, PutStable, id);
    var stable := Each(preferred, d.stables, StableKey, PutStable);
    EachAt(stable, d.timings, TimingKey, PutTiming(now), id);
    var timed := Each(stable, d.timings, TimingKey, PutTiming(now));
    EachAt(timed, d.revocations, RevocationKey, PutRevocation, id);
    var revoked := Each(timed, d.revocations, RevocationKey, PutRevocation);
    EachAt(revoked, d.history, HistoryKey, PutHistory(limits.maxHistory), id);
  }

  lemma {:induction false} ReindexKeeps(s: State, ids: seq<Id>, limits: Limits)
    ensures var t := ReindexedAll(s, ids, limits);
            t == s.(index := t.index)
  {
    if ids != [] {
      ReindexKeeps(s, ids[..|ids| - 1], limits);
    }
  }

  // Exactly the saved policies come back.
  lemma RestartKeys(s: State, saved: SaveTimes, now: Ticks, limits: Limits)
    requires Keyed(s)
    ensures RestoredRecords(Stripped(BuildDurable(s, saved)), now, limits).Keys == s.policies.Keys
  {
    var d := Stripped(BuildDurable(s, saved));
    RestoredKeys(d.policies, limits.conservativeRecovery);
    BuiltIsSectioned(s, saved);
    SectionedKeys(d, InOrderOf(s.policies.Keys));
  }

  lemma SectionedKeys(d: DurableState, ids: seq<Id>)
    requires SectionedBy(d, ids)
    ensures (set p | p in d.policies :: p.id) == set id | id in ids
  {
    forall id | id in ids
      ensures id in set p | p in d.policies :: p.id
    {
      var k :| 0 <= k < |ids| && ids[k] == id;
      assert d.policies[k].id == id;
    }
  }
}
